/**
 * recipes.py: `generate_recipes` builds a chat request for the OpenAI API,
 * sends it, and turns the model's reply into a JSON value, falling back to
 * the first bracketed block of the reply when the reply as a whole is not
 * JSON. The HTTP call and `json.loads` are parameters.
 */
module Recipes {
  import opened Wrappers
  import opened Strings

  /** A JSON value as `json.loads` returns it; numbers are the integer ones. */
  datatype Json =
    | JNull
    | JBool(b: bool)
    | JNumber(n: int)
    | JString(s: string)
    | JArray(items: seq<Json>)
    | JObject(fields: map<string, Json>)

  const OpenAiUrl := "https://api.openai.com/v1/chat/completions"

  const SystemPrompt :=
    "You are a helpful recipe generator. Given a short list of ingredients and optional dietary notes, "
    + "return a JSON object with a top-level 'recipes' array. Each recipe must have: "
    + "title (string), description (string), ingredients (array of strings), steps (array of strings), "
    + "prep_minutes (integer), cook_minutes (integer). Return only valid JSON and nothing else."

  const MissingKeyMessage := "OPENAI_API_KEY is not set in environment"
  const NoJsonPrefix := "Model did not return JSON. Raw output:\n"

  /** The request `generate_recipes` posts: endpoint, bearer header, model and the two chat messages. */
  datatype ChatRequest = ChatRequest(url: string, authorization: string, model: string, systemPrompt: string, userPrompt: string)

  /**
   * What came back: the first choice's message content, or the error raised on the way to it:
   * by `post` (a timeout included), `raise_for_status`, `resp.json()` on a body that is not JSON,
   * the lookup of the content, or `.strip()` on a null content.
   */
  datatype Upstream = Completion(content: string) | Failed(message: string)

  /** The requests sent and the value returned or the message of the error raised. */
  datatype Run = Run(sent: seq<ChatRequest>, result: Result<Json>)

  /** The user message: `f"Ingredients: {ingredients}\nNotes: {notes}\nReturn {limit} recipes."`. */
  function UserPrompt(ingredients: string, notes: string, limit: int): string {
    "Ingredients: " + (ingredients + ("\n" + ("Notes: " + (notes + ("\n" + ("Return " + IntToString(limit) + " recipes."))))))
  }

  predicate NoNewline(s: string) {
    forall i :: 0 <= i < |s| ==> s[i] != '\n'
  }

  /** The position of the first newline of s, or |s| when there is none. */
  function FirstNewline(s: string): (k: nat)
    ensures k <= |s|
  {
    if s == [] || s[0] == '\n' then 0 else 1 + FirstNewline(s[1..])
  }

  lemma {:induction false} FirstNewlineAfterHead(x: string, y: string)
    requires NoNewline(x)
    ensures FirstNewline(x + ("\n" + y)) == |x|
  {
    if x == [] {
      assert x + ("\n" + y) == "\n" + y;
    } else {
      assert (x + ("\n" + y))[1..] == x[1..] + ("\n" + y);
      FirstNewlineAfterHead(x[1..], y);
    }
  }

  /** Splitting at the first newline: a single-line head is determined by the whole. */
  lemma SplitAtNewline(x: string, y: string, x': string, y': string)
    requires NoNewline(x) && NoNewline(x')
    requires x + ("\n" + y) == x' + ("\n" + y')
    ensures x == x' && y == y'
  {
    var s := x + ("\n" + y);
    FirstNewlineAfterHead(x, y);
    FirstNewlineAfterHead(x', y');
    assert x == s[..|x|] == x';
    assert y == s[|x| + 1..] == y';
  }

  lemma UserPromptHead(a: string, b: string, m: int)
    ensures |UserPrompt(a, b, m)| == |a| + |b| + |IntToString(m)| + 38
    ensures UserPrompt(a, b, m)[..13] == "Ingredients: " && UserPrompt(a, b, m)[13..13 + |a|] == a
  {
    var p := UserPrompt(a, b, m);
    assert p[13..] == a + ("\n" + ("Notes: " + (b + ("\n" + ("Return " + IntToString(m) + " recipes.")))));
  }

  lemma UserPromptNotes(a: string, b: string, m: int)
    ensures |UserPrompt(a, b, m)| >= 21 + |a| + |b|
    ensures UserPrompt(a, b, m)[21 + |a|..21 + |a| + |b|] == b
  {
    var r := "Notes: " + (b + ("\n" + ("Return " + IntToString(m) + " recipes.")));
    var p := UserPrompt(a, b, m);
    assert p[14 + |a|..] == r;
    assert r[7..7 + |b|] == b;
  }

  lemma UserPromptEnd(a: string, b: string, m: int)
    ensures EndsWith(UserPrompt(a, b, m), IntToString(m) + " recipes.")
  {
    var t := "Return " + IntToString(m) + " recipes.";
    var p := UserPrompt(a, b, m);
    assert p[|p| - |t|..] == t;
    assert t[7..] == IntToString(m) + " recipes.";
  }

  /** Where the fields sit in the prompt: the ingredients after the label, the notes after the first newline and its label, the limit last. */
  lemma UserPromptLayout(a: string, b: string, m: int)
    ensures |UserPrompt(a, b, m)| == |a| + |b| + |IntToString(m)| + 38
    ensures UserPrompt(a, b, m)[..13] == "Ingredients: " && UserPrompt(a, b, m)[13..13 + |a|] == a
    ensures UserPrompt(a, b, m)[21 + |a|..21 + |a| + |b|] == b
    ensures EndsWith(UserPrompt(a, b, m), IntToString(m) + " recipes.")
  {
    UserPromptHead(a, b, m);
    UserPromptNotes(a, b, m);
    UserPromptEnd(a, b, m);
  }

  /** The prompt is unambiguous: with single-line fields it determines the ingredients, the notes and the limit. */
  lemma UserPromptInjective(a: string, b: string, m: int, a': string, b': string, m': int)
    requires NoNewline(a) && NoNewline(b) && NoNewline(a') && NoNewline(b')
    requires UserPrompt(a, b, m) == UserPrompt(a', b', m')
    ensures a == a' && b == b' && m == m'
  {
    var t, t' := "Return " + IntToString(m) + " recipes.", "Return " + IntToString(m') + " recipes.";
    var r, r' := "Notes: " + (b + ("\n" + t)), "Notes: " + (b' + ("\n" + t'));
    assert a + ("\n" + r) == UserPrompt(a, b, m)[13..] == a' + ("\n" + r');
    SplitAtNewline(a, r, a', r');
    assert b + ("\n" + t) == r[7..] == b' + ("\n" + t');
    SplitAtNewline(b, t, b', t');
    assert IntToString(m) == t[7..|t| - 9] == IntToString(m');
    IntToStringInjective(m, m');
  }

  /** text[q] == c for some q after p. */
  ghost predicate HasAfter(text: string, p: int, c: char) {
    exists q :: 0 <= p < q < |text| && text[q] == c
  }

  /** The closing bracket of the alternative whose opening bracket is o. */
  function Closer(o: char): char {
    if o == '{' then '}' else ']'
  }

  /** At p, the pattern `(\{.*\}|\[.*\])` under re.S can match: an opening bracket with a closer of its kind later on. */
  ghost predicate OpensAt(text: string, p: int) {
    0 <= p < |text| && (text[p] == '{' || text[p] == '[') && HasAfter(text, p, Closer(text[p]))
  }

  /**
   * text[p..q+1] is what `re.search` returns: p is the leftmost position
   * where the pattern matches, and the greedy `.*` extends to the last
   * closer of the same kind.
   */
  ghost predicate IsSearchMatch(text: string, p: int, q: int) {
    && OpensAt(text, p)
    && (forall p' :: 0 <= p' < p ==> !OpensAt(text, p'))
    && p < q < |text| && text[q] == Closer(text[p])
    && (forall q' :: q < q' < |text| ==> text[q'] != text[q])
  }

  /** The last index of c in text. */
  function LastIndexOf(text: string, c: char): (r: Option<nat>)
    ensures r.Some? ==> r.value < |text| && text[r.value] == c && forall q :: r.value < q < |text| ==> text[q] != c
    ensures r.None? ==> forall q :: 0 <= q < |text| ==> text[q] != c
  {
    if text == [] then None
    else if text[|text| - 1] == c then Some(|text| - 1)
    else LastIndexOf(text[..|text| - 1], c)
  }

  /** The scan of `re.search`, trying start positions from p on. */
  function SearchFrom(text: string, p: nat): (r: Option<(nat, nat)>)
    requires p <= |text|
    requires forall p' :: 0 <= p' < p ==> !OpensAt(text, p')
    ensures r.Some? ==> IsSearchMatch(text, r.value.0, r.value.1)
    ensures r.None? ==> forall p' :: 0 <= p' < |text| ==> !OpensAt(text, p')
    decreases |text| - p
  {
    if p == |text| then None
    else if text[p] == '{' || text[p] == '[' then
      match LastIndexOf(text, Closer(text[p]))
      case Some(q) =>
        if p < q then Some((p, q))
        else
          assert !OpensAt(text, p);
          SearchFrom(text, p + 1)
      case None =>
        SearchFrom(text, p + 1)
    else
      SearchFrom(text, p + 1)
  }

  /** There is only one such match. */
  lemma SearchMatchUnique(text: string, p: int, q: int, p': int, q': int)
    requires IsSearchMatch(text, p, q) && IsSearchMatch(text, p', q')
    ensures p == p' && q == q'
  {
  }

  /** A block that starts with { and ends with }, or starts with [ and ends with ]. */
  predicate IsBracketed(s: string) {
    |s| >= 2 && ((s[0] == '{' && s[|s| - 1] == '}') || (s[0] == '[' && s[|s| - 1] == ']'))
  }

  /** `re.search(r"(\{.*\}|\[.*\])", text, flags=re.S)` and `m.group(0)`. */
  function ExtractJson(text: string): (r: Option<string>)
    ensures r.None? <==> forall p :: 0 <= p < |text| ==> !OpensAt(text, p)
    ensures r.Some? ==> IsBracketed(r.value)
    ensures r.Some? ==> exists p, q :: IsSearchMatch(text, p, q) && r.value == text[p..q + 1]
  {
    match SearchFrom(text, 0)
    case None => None
    case Some((p, q)) =>
      assert IsSearchMatch(text, p, q);
      Some(text[p..q + 1])
  }

  /** No opening bracket, so nothing to extract. */
  lemma NoBracketNoMatch(text: string)
    requires forall i :: 0 <= i < |text| ==> text[i] != '{' && text[i] != '['
    ensures ExtractJson(text) == None
  {
  }

  /** A bracketed block in prose that opens no bracket before it and closes none of its kind after it is extracted whole. */
  lemma {:induction false} ExtractFromProse(pre: string, block: string, post: string)
    requires forall i :: 0 <= i < |pre| ==> pre[i] != '{' && pre[i] != '['
    requires IsBracketed(block)
    requires forall i :: 0 <= i < |post| ==> post[i] != block[|block| - 1]
    ensures ExtractJson(pre + block + post) == Some(block)
  {
    var text := pre + block + post;
    var p, q := |pre|, |pre| + |block| - 1;
    assert text[p] == block[0] && text[q] == block[|block| - 1];
    assert Closer(text[p]) == text[q];
    forall p' | 0 <= p' < p ensures !OpensAt(text, p') {
      assert text[p'] == pre[p'];
    }
    forall q' | q < q' < |text| ensures text[q'] != text[q] {
      assert text[q'] == post[q' - q - 1];
    }
    assert IsSearchMatch(text, p, q);
    var r := ExtractJson(text);
    assert r.Some?;
    var p', q' :| IsSearchMatch(text, p', q') && r.value == text[p'..q' + 1];
    SearchMatchUnique(text, p, q, p', q');
    assert text[p..q + 1] == block;
  }

  function ParseFailureMessage(e: string, text: string): (r: string)
    ensures |r| == |e| + |text| + 53
    ensures r[..40] == "Failed to parse JSON from model output: " && r[40..40 + |e|] == e
    ensures EndsWith(r, "\nRaw output:\n" + text)
  {
    "Failed to parse JSON from model output: " + e + "\nRaw output:\n" + text
  }

  /** The try/except chain after the reply is stripped: parse, else extract and parse, else fail. */
  function RecoverJson(text: string, parse: string -> Result<Json>): (r: Result<Json>)
    ensures parse(text).Ok? ==> r == parse(text)
    ensures r.Ok? && parse(text).Err? ==> ExtractJson(text).Some? && r == parse(ExtractJson(text).value)
    ensures r.Err? ==> EndsWith(r.error, text)
    ensures parse(text).Err? && ExtractJson(text).None? ==> r == Err(NoJsonPrefix + text)
    ensures parse(text).Err? && ExtractJson(text).Some? && parse(ExtractJson(text).value).Ok? ==>
              r == parse(ExtractJson(text).value)
    ensures parse(text).Err? && ExtractJson(text).Some? && parse(ExtractJson(text).value).Err? ==>
              r == Err(ParseFailureMessage(parse(ExtractJson(text).value).error, text))
  {
    match parse(text)
    case Ok(v) => Ok(v)
    case Err(_) =>
      match ExtractJson(text)
      case None => Err(NoJsonPrefix + text)
      case Some(candidate) =>
        match parse(candidate)
        case Ok(v) => Ok(v)
        case Err(e) => Err(ParseFailureMessage(e, text))
  }

  /** A JSON object wrapped in prose is still recovered. */
  lemma RecoverFromProse(pre: string, block: string, post: string, parse: string -> Result<Json>)
    requires forall i :: 0 <= i < |pre| ==> pre[i] != '{' && pre[i] != '['
    requires IsBracketed(block)
    requires forall i :: 0 <= i < |post| ==> post[i] != block[|block| - 1]
    requires parse(pre + block + post).Err? && parse(block).Ok?
    ensures RecoverJson(pre + block + post, parse) == parse(block)
  {
    ExtractFromProse(pre, block, post);
  }

  /** Text that is not JSON and contains no opening bracket fails with the raw text. */
  lemma GarbageFails(text: string, parse: string -> Result<Json>)
    requires forall i :: 0 <= i < |text| ==> text[i] != '{' && text[i] != '['
    requires parse(text).Err?
    ensures RecoverJson(text, parse) == Err(NoJsonPrefix + text)
  {
    NoBracketNoMatch(text);
  }

  /** The request built for the given arguments and API key. */
  function RequestFor(apiKey: string, model: string, ingredients: string, notes: string, limit: int): (r: ChatRequest)
    ensures r.url == OpenAiUrl && r.model == model && r.systemPrompt == SystemPrompt
    ensures |r.authorization| == |apiKey| + 7
    ensures r.authorization[..7] == "Bearer " && r.authorization[7..] == apiKey
    ensures r.userPrompt == UserPrompt(ingredients, notes, limit)
  {
    ChatRequest(OpenAiUrl, "Bearer " + apiKey, model, SystemPrompt, UserPrompt(ingredients, notes, limit))
  }

  /** `generate_recipes(ingredients, notes, limit)` with OPENAI_API_KEY = apiKey, OPENAI_MODEL = model. */
  function GenerateRecipes(apiKey: string, model: string, ingredients: string, notes: string, limit: int,
                           send: ChatRequest -> Upstream, parse: string -> Result<Json>): (run: Run)
    ensures apiKey == [] ==> run == Run([], Err(MissingKeyMessage))
    ensures apiKey != [] ==> run.sent == [RequestFor(apiKey, model, ingredients, notes, limit)]
    ensures apiKey != [] && send(run.sent[0]).Failed? ==> run.result == Err(send(run.sent[0]).message)
    ensures apiKey != [] && send(run.sent[0]).Completion? ==> run.result == RecoverJson(Strip(send(run.sent[0]).content), parse)
  {
    if apiKey == [] then Run([], Err(MissingKeyMessage))
    else
      var request := RequestFor(apiKey, model, ingredients, notes, limit);
      match send(request)
      case Failed(message) => Run([request], Err(message))
      case Completion(content) => Run([request], RecoverJson(Strip(content), parse))
  }

  /** A reply that parses as it stands is returned as parsed, whatever it contains. */
  lemma DirectParseWins(apiKey: string, model: string, ingredients: string, notes: string, limit: int,
                        send: ChatRequest -> Upstream, parse: string -> Result<Json>)
    requires apiKey != []
    requires send(RequestFor(apiKey, model, ingredients, notes, limit)).Completion?
    requires parse(Strip(send(RequestFor(apiKey, model, ingredients, notes, limit)).content)).Ok?
    ensures GenerateRecipes(apiKey, model, ingredients, notes, limit, send, parse).result
         == parse(Strip(send(RequestFor(apiKey, model, ingredients, notes, limit)).content))
  {
  }
}
