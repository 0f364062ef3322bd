/**
 * The front end's `escapeHtml(s)`: `String(s||'')` followed by a global
 * replace of each of & < > " ' by its HTML character reference.
 */
module Script {
  import opened Strings

  /** The five characters the replace pattern [&<>"'] matches. */
  predicate IsSpecial(c: char) {
    c == '&' || c == '<' || c == '>' || c == '"' || c == '\''
  }

  /** The characters that must not survive escaping. */
  predicate IsUnsafe(c: char) {
    c == '<' || c == '>' || c == '"' || c == '\''
  }

  /** The lookup table of the replace callback; other characters are kept. */
  function EscapeChar(c: char): (r: string)
    ensures !IsSpecial(c) ==> r == [c]
    ensures IsSpecial(c) ==> |r| >= 4 && r[0] == '&' && r[|r| - 1] == ';'
  {
    match c
    case '&' => "&amp;"
    case '<' => "&lt;"
    case '>' => "&gt;"
    case '"' => "&quot;"
    case '\'' => "&#39;"
    case _ => [c]
  }

  /** The replace itself: every character replaced by its table entry, in order. */
  function EscapeHtml(s: string): (r: string)
    ensures |r| >= |s|
    ensures forall i :: 0 <= i < |r| ==> !IsUnsafe(r[i])
  {
    if s == [] then [] else EscapeChar(s[0]) + EscapeHtml(s[1..])
  }

  /** The five replacements, as whole strings. */
  lemma EscapeTable()
    ensures EscapeHtml("&") == "&amp;" && EscapeHtml("<") == "&lt;" && EscapeHtml(">") == "&gt;"
    ensures EscapeHtml("\"") == "&quot;" && EscapeHtml("'") == "&#39;"
  {
  }

  /** The safe integers: the range, magnitude below 2^53, in which a JavaScript number holds every integer exactly. */
  type SafeInteger = n: int | -0x1F_FFFF_FFFF_FFFF <= n <= 0x1F_FFFF_FFFF_FFFF

  /** The argument of escapeHtml as JavaScript has it; numbers are the safe integers. */
  datatype JsValue = Undefined | Null | Boolean(b: bool) | Number(n: SafeInteger) | Str(s: string)

  predicate IsFalsy(v: JsValue) {
    v.Undefined? || v.Null? || v == Boolean(false) || v == Number(0) || v == Str("")
  }

  /** `String(v || '')`. */
  function StringOrEmpty(v: JsValue): (r: string)
    ensures IsFalsy(v) <==> r == []
    ensures v.Str? ==> r == v.s
    ensures v == Boolean(true) ==> r == "true"
    ensures v.Number? && v.n != 0 ==> r == IntToString(v.n as int) && (r[0] == '-' <==> v.n < 0)
  {
    match v
    case Undefined => ""
    case Null => ""
    case Boolean(b) => if b then "true" else ""
    case Number(n) => if n == 0 then "" else IntToString(n)
    case Str(s) => s
  }

  /** escapeHtml(v) of script.js. */
  function EscapeValue(v: JsValue): (r: string)
    ensures IsFalsy(v) ==> r == []
    ensures forall i :: 0 <= i < |r| ==> !IsUnsafe(r[i])
  {
    EscapeHtml(StringOrEmpty(v))
  }

  /** Escaping distributes over concatenation. */
  lemma {:induction false} EscapeHtmlConcat(a: string, b: string)
    ensures EscapeHtml(a + b) == EscapeHtml(a) + EscapeHtml(b)
  {
    if a == [] {
      assert a + b == b;
    } else {
      assert (a + b)[0] == a[0] && (a + b)[1..] == a[1..] + b;
      EscapeHtmlConcat(a[1..], b);
    }
  }

  /** A string without any of the five special characters is passed through unchanged. */
  lemma {:induction false} EscapeHtmlPlain(s: string)
    requires forall i :: 0 <= i < |s| ==> !IsSpecial(s[i])
    ensures EscapeHtml(s) == s
  {
    if s != [] {
      EscapeHtmlPlain(s[1..]);
    }
  }

  /**
   * Decoding of the five character references escapeHtml emits, as an HTML
   * parser reads them back; every other character is kept.
   */
  function Unescape(s: string): string {
    if s == [] then []
    else if |s| >= 5 && s[..5] == "&amp;" then "&" + Unescape(s[5..])
    else if |s| >= 4 && s[..4] == "&lt;" then "<" + Unescape(s[4..])
    else if |s| >= 4 && s[..4] == "&gt;" then ">" + Unescape(s[4..])
    else if |s| >= 6 && s[..6] == "&quot;" then "\"" + Unescape(s[6..])
    else if |s| >= 5 && s[..5] == "&#39;" then "'" + Unescape(s[5..])
    else [s[0]] + Unescape(s[1..])
  }

  /** Unescape of one escaped character followed by anything. */
  lemma UnescapeStep(c: char, rest: string)
    ensures Unescape(EscapeChar(c) + rest) == [c] + Unescape(rest)
  {
    var e := EscapeChar(c) + rest;
    if c == '&' {
      assert e[..5] == "&amp;" && e[5..] == rest;
    } else if c == '<' {
      assert |e| >= 5 ==> e[..5][1] == 'l';
      assert e[..4] == "&lt;" && e[4..] == rest;
    } else if c == '>' {
      assert (|e| >= 5 ==> e[..5][1] == 'g') && e[..4][1] == 'g';
      assert e[..4] == "&gt;" && e[4..] == rest;
    } else if c == '"' {
      assert e[..5][1] == 'q' && e[..4][1] == 'q';
      assert e[..6] == "&quot;" && e[6..] == rest;
    } else if c == '\'' {
      assert e[..5][1] == '#' && e[..4][1] == '#' && (|e| >= 6 ==> e[..6][1] == '#');
      assert e[..5] == "&#39;" && e[5..] == rest;
    } else {
      assert e[0] == c && e[1..] == rest;
      assert |e| >= 4 ==> e[..4][0] == c;
      assert |e| >= 5 ==> e[..5][0] == c;
      assert |e| >= 6 ==> e[..6][0] == c;
    }
  }

  /** Escaping loses nothing: the page shows exactly the original text. */
  lemma {:induction false} UnescapeEscape(s: string)
    ensures Unescape(EscapeHtml(s)) == s
  {
    if s != [] {
      UnescapeStep(s[0], EscapeHtml(s[1..]));
      UnescapeEscape(s[1..]);
    }
  }

  /** Different texts never escape to the same markup. */
  lemma EscapeHtmlInjective(a: string, b: string)
    requires EscapeHtml(a) == EscapeHtml(b)
    ensures a == b
  {
    UnescapeEscape(a);
    UnescapeEscape(b);
  }
}
