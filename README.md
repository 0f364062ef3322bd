# new-chakula backend core, modelled in Dafny

This project models the logic of a small recipe-suggestion backend. It stores
accounts and a daily quota for each user. Generation calls are forwarded to the
OpenAI chat API, and a paywall answer comes back once the quota is used up. The
project covers four parts:

- `app.dfy` (module `App`) models the five JSON endpoints of `app.py`: signup,
  login, logout, me and generate. They are methods of a class `Server`. Its
  fields are the `users` table, the `daily_usage` table, the next primary keys
  the database will hand out, and the client's Flask session. `Server.Valid()`
  is the invariant every handler keeps. It is one predicate per table,
  `UserRows` and `UsageRows`:
  - usernames are unique, normalised and non-empty;
  - (user_id, date) is unique;
  - every row sits under its own key, below the next key to be handed out;
  - counts are never negative.

  A ghost field `sent` records every request sent to the OpenAI endpoint. It
  shows that a request refused before the generator (401, 400, the uncaught
  `int()` error, the 402 paywall) sends nothing.

  The foreign key from `daily_usage.user_id` to `users.id` is a separate
  predicate, `ReferencesHold()`. SQLite, the default store, does not enforce
  it, and generate uses the session's user id without looking the user up.
  So a handler only keeps the foreign key when the session's user exists.
- `models.dfy` (module `Models`) holds the rows of `models.py`, `User.to_dict`,
  the constraints of the two tables, and the lookups the handlers run
  (`filter_by(...).scalar_one_or_none()`), with lemmas for inserting and
  updating rows.
- `recipes.dfy` (module `Recipes`) models `generate_recipes`:
  - the missing-key check;
  - the request it builds;
  - the stripped reply;
  - the chain "parse, else extract the `(\{.*\}|\[.*\])` block and parse it,
    else fail". The extraction is a pure function proved to return the
    leftmost, greedy match of that regular expression under `re.S`.
- `script.dfy` (module `Script`) models the front end's `escapeHtml`.
- `strings.dfy` (module `Strings`) models the Python built-ins these parts
  rely on: `str.strip`, `str.lower` and `str(int)`. `wrappers.dfy` holds
  `Option` and `Result`.

The outside world comes in as parameters:
- today's date (`date.today()`);
- the bcrypt hash (a function with the request's salt fixed) and bcrypt verify;
- the OpenAI endpoint (`send`, from a request to a reply or an error);
- `json.loads` (`parse`, from a string to a value or an error message);
- the environment settings (`Config`, with `DefaultConfig` for the defaults).
  `Config.openAiKey` is the key as `recipes.py` saw it when it was imported.
  recipes.py:7 reads `OPENAI_API_KEY` at import time, and app.py:10 imports it
  before `load_dotenv()` runs at app.py:17.
  - Under `python app.py` this does not matter. `debug=True` (app.py:203)
    serves from a reloader child process that inherits the loaded environment.
  - `flask run` also loads `.env` before importing the app.
  - A WSGI server that imports the module directly, such as `gunicorn app:app`,
    reads a key set only in `.env` as `""`. Every generation then fails with the
    missing-key message; `App.DefaultConfigCannotGenerate` states this no-key
    case.

What the code does, and the model with it:
- The quota gate fires only when today's row already exists. So the first
  generation of a day always passes, even when `DAILY_LIMIT <= 0`; see
  `App.FirstOfDayPasses`.
- The counter is committed before the response body is built. When the model's
  JSON is not an object, `model_result.get` raises after the commit. The client
  then gets a 500 although the quota was consumed (`Response.InternalError` in
  `Server.Generate`).
- The checkout URL is concatenated without URL encoding. A missing session
  username renders as `None`.
- The comment at app.py:169 says "get or create daily usage row", but lines
  170-172 only look the row up. The row is created at app.py:190-192, and only
  after a successful generation (`Server.CountGeneration`).
- The empty-ingredients check is made by the handler (app.py:162-163).
  `generate_recipes` itself accepts empty ingredients.
- The gate at app.py:172 closes only on an existing row (`App.GateCloses`).

## Model

| member | source | states |
|---|---|---|
| `App.Server.constructor` | app.py:73-78 | a fresh database has empty tables that satisfy all constraints, with the given settings and session cookie |
| `App.Server.Signup` | app.py:83-101 | an empty normalised username or empty password gives 400 and changes nothing; a normalised name already stored gives 409 and leaves the user table as it was; otherwise exactly one user (next id, normalised name, hash of the password) is added and the normalised name then finds it; the session and usage table never change; the invariant is kept |
| `App.Server.Login` | app.py:103-124 | empty fields give 400, an unknown user or a failed verify gives 401, both with the session untouched; on success the session holds exactly that user's id and username and the reply carries the username; the tables are not touched |
| `App.Server.StartSession` | app.py:119-121 | after `session.clear()` and the two assignments the session holds exactly the user's id and name; the invariant is kept |
| `App.Server.Logout` | app.py:126-129 | the session is always emptied, the reply is ok, and the invariant is kept |
| `App.Server.Me` | app.py:131-150 | no session user, or a session user that no longer exists, reports no user; otherwise the user's name, today's count (0 without a row) and the daily limit |
| `App.Server.Generate` | app.py:152-199 | no session user gives 401, a limit `int()` cannot convert gives an uncaught error, empty ingredients give 400; every request that stops before the generator (these three and the 402) leaves the usage table, the next usage id and the sent requests unchanged; a request that reaches the generator adds exactly the generator's requests to those sent; then the same outcomes as `GatedGenerate` |
| `App.Server.GatedGenerate` | app.py:165-197 | an existing row at or over the limit gives 402 with `limit_reached`, the paywall message, `base?amount=A&ref=username` and the amount, and sends nothing; a generator error gives 500 `recipe generation failed: ...` with usage and the next usage id unchanged; on success the table is `Counted` (the next id moves on only when a row is created), today's count rises by exactly 1, and the reply's `used_today` is the new count (or an uncaught error when the JSON is not an object) |
| `App.Server.CountAndRespond` | app.py:189-197 | after a successful generation the table is `Counted`, today's count rises by 1, and the reply carries the recipes and the new count, or is an uncaught error when the value is not an object |
| `App.Server.CountGeneration` | app.py:189-195 | today's row is created with count 1 under the next id (which then moves on), or its count goes up by 1 with the next id unchanged; the result is `Counted` of the old table; the constraints and, for an existing user, the foreign key are kept |
| `App.Counted` | app.py:189-194 | the table after one more generation: the constraints hold, the lookup of (user, day) finds a row whose count is the old count plus 1, every other row is unchanged, and a new key appears exactly when the day had no row (holding user, day and count 1) |
| `App.CountKeepsUsageRows` | app.py:189-195 | counting keeps the usage table's invariant, with the next id moving on only when a row is created |
| `App.CountKeepsReferences` | app.py:189-195 | counting a generation of an existing user keeps the foreign key |
| `App.Server.AddUser` | app.py:93-95 | the new row has the next id, the name and the hash; the table gains exactly that row; the name then finds it; the invariant is kept |
| `App.SignupKeepsUserRows` | app.py:93-95 | inserting a free normalised name under the next id keeps the users table's invariant, adds one row and makes the name findable |
| `App.GateCloses` | app.py:172 | the gate closes only on an existing row, and on an existing row exactly when its count has reached the limit |
| `App.StatusCode` | app.py:89-197 | 402 exactly for the paywall, 400 for bad requests, 401 for auth and credential failures, 409 for a taken name, 500 for generation failures and uncaught errors, 200 for every other reply |
| `App.DefaultConfigCannotGenerate` | recipes.py:7 | with no key in the environment every generation fails with `OPENAI_API_KEY is not set in environment` and sends nothing |
| `App.CheckoutUrl` | app.py:175 | the checkout URL ends with the session username, or with `None` when there is none |
| `App.RecipesField` | app.py:197 | `model_result.get("recipes", [])`: the `recipes` member of an object, `[]` for an object without it, and no value (an exception) for anything that is not an object |
| `App.UsedToday` | app.py:143-147 | the count of the one row of that user and day, or 0 when there is none |
| `App.FirstOfDayPasses` | app.py:172 | without a row for the day the gate does not close, whatever the limit |
| `Models.ToDict` | models.py:14-15 | the dictionary has exactly the keys `id` and `username`, with the user's values, and no `password_hash` |
| `Models.ToDictIgnoresHash` | models.py:14-15 | changing the password hash does not change `to_dict` |
| `Models.NewDailyUsage` | models.py:17-22 | a new usage row keeps the given id, user and date, and its count defaults to 0 when none is given |
| `Models.FindUserByName` | app.py:113-114 | under the unique-username constraint, the lookup finds no user exactly when nobody has the name, and otherwise the stored row with that name |
| `Models.FindUsage` | app.py:145-146 | under the (user_id, date) constraint, the lookup finds no row exactly when none has that user and date, and otherwise the stored row for them |
| `Models.InsertUser` | models.py:9-10 | adding a user under a fresh key with an unused name keeps both constraints, adds one row and makes the name findable |
| `Models.InsertUsage` | models.py:24 | adding a row under a fresh key for a (user, date) that has none keeps the constraints and makes the lookup return it |
| `Models.UpdateUsage` | models.py:24 | replacing a row by one with the same key, user and date keeps the constraints and the lookup returns the new row |
| `Recipes.GenerateRecipes` | recipes.py:23-42 | an empty API key fails with `OPENAI_API_KEY is not set in environment` and sends nothing; otherwise exactly one request to the chat endpoint with `Bearer <key>`, the model, the system prompt and the user prompt is sent; an upstream error fails with its message; a reply is stripped and recovered |
| `Recipes.UserPrompt` | recipes.py:27 | the f-string `Ingredients: {ingredients}\nNotes: {notes}\nReturn {limit} recipes.`, piece by piece; its layout is stated by `UserPromptLayout` and its unambiguity by `UserPromptInjective` |
| `Recipes.UserPromptLayout` | recipes.py:27 | the prompt has length of the fields plus 38; it starts with `Ingredients: ` and the ingredients; the notes sit right after the first newline and `Notes: `; it ends with the limit and ` recipes.` |
| `Recipes.RequestFor` | recipes.py:18-39 | the request goes to the chat endpoint with `Bearer ` followed by exactly the key, the configured model, the system prompt and the user prompt |
| `Recipes.ParseFailureMessage` | recipes.py:56 | the error starts with `Failed to parse JSON from model output: ` and the parser's message, and ends with `\nRaw output:\n` and the raw text |
| `Recipes.UserPromptInjective` | recipes.py:27 | with single-line ingredients and notes, the user prompt determines the ingredients, the notes and the limit |
| `Recipes.RecoverJson` | recipes.py:44-58 | a direct parse that succeeds is the result; otherwise, when the extracted block parses, its value is the result, and when it does not, the error is `Failed to parse JSON from model output: ` with the parser's message, `\nRaw output:\n` and the text; with no block the error is `Model did not return JSON. Raw output:\n` plus the text; every success is one of the two parses and every error message ends with the raw text |
| `Recipes.DirectParseWins` | recipes.py:42-47 | a stripped reply that parses is returned as parsed |
| `Recipes.SearchFrom` | recipes.py:51 | the scan from position p returns the leftmost greedy match, or reports that no position opens one |
| `Recipes.ExtractJson` | recipes.py:51 | there is no block exactly when no `{` has a later `}` and no `[` has a later `]`; a block is a contiguous part of the text from the leftmost such opener to the last closer of its kind, and it starts with `{` and ends with `}` or starts with `[` and ends with `]` |
| `Recipes.SearchMatchUnique` | recipes.py:51 | the leftmost greedy match is unique |
| `Recipes.ExtractFromProse` | recipes.py:51 | a bracketed block in prose with no opener before it and no closer of its kind after it is extracted whole |
| `Recipes.NoBracketNoMatch` | recipes.py:51-52 | text without `{` or `[` has no block |
| `Recipes.RecoverFromProse` | recipes.py:44-54 | reply text that is prose wrapped around a parsable block yields the block's value |
| `Recipes.GarbageFails` | recipes.py:51-58 | unparsable text without brackets fails with the no-JSON message and the raw text |
| `Strings.IsSpace` | app.py:86 | among ASCII characters, exactly space, tab, newline, carriage return, vertical tab, form feed and `\x1c` to `\x1f` are whitespace; no whitespace character is a digit or a Latin letter |
| `Strings.TrimStart` | app.py:86 | the result is a suffix of the input, only whitespace was dropped, and it does not start with whitespace |
| `Strings.TrimEnd` | app.py:86 | the result is a prefix of the input, only whitespace was dropped, and it does not end with whitespace |
| `Strings.Strip` | recipes.py:42 | the result is a contiguous part of the input with only whitespace removed around it, and it neither starts nor ends with whitespace |
| `Strings.StripIdempotent` | app.py:86 | stripping twice is stripping once |
| `Strings.Lower` | app.py:86 | same length, each character lowered in place |
| `Strings.LowerIdempotent` | app.py:86 | lowering twice is lowering once |
| `Strings.Normalise` | app.py:86 | a normalised username has no surrounding whitespace, no upper-case letters, and is no longer than the input |
| `Strings.NormaliseIdempotent` | app.py:106 | normalising a normalised name changes nothing, so the stored names are exactly those login looks up |
| `Strings.NatToString` | recipes.py:27 | the decimal digits of a natural number, non-empty and without leading zeros |
| `Strings.IntToString` | recipes.py:27 | `str(limit)`: a minus sign exactly for negatives, then the digits |
| `Strings.IntToStringRoundTrip` | recipes.py:27 | reading the rendered integer back gives the integer |
| `Strings.IntToStringInjective` | recipes.py:27 | different integers render differently |
| `Script.EscapeChar` | script.js:234 | a special character becomes an entity that starts with `&` and ends with `;`; any other character stays itself |
| `Script.EscapeTable` | script.js:234 | `&`, `<`, `>`, `"`, `'` become `&amp;`, `&lt;`, `&gt;`, `&quot;`, `&#39;` |
| `Script.EscapeHtml` | script.js:234 | the output is at least as long as the input and contains no `<`, `>`, `"` or `'` |
| `Script.StringOrEmpty` | script.js:234 | the argument as a string, or the empty string: empty exactly for a falsy argument, the string itself for a string, `true` for true, and for a non-zero safe integer its decimal rendering (a leading minus exactly for negatives) |
| `Script.EscapeValue` | script.js:234 | falsy input escapes to the empty string, and no output contains an unsafe character |
| `Script.EscapeHtmlConcat` | script.js:234 | escaping distributes over concatenation |
| `Script.EscapeHtmlPlain` | script.js:234 | a string without special characters is passed through unchanged and in order |
| `Script.UnescapeEscape` | script.js:234 | decoding the five entities recovers exactly the input |
| `Script.EscapeHtmlInjective` | script.js:234 | different texts never escape to the same markup |

## Left out

- Flask routing, request JSON decoding, CORS, the secret key and cookie signing, and the duplicate `Flask(...)` at app.py:19 and app.py:28 are left out. In signup and login, `username` and `password` are taken as strings, and a missing or null one is the empty string (the `or ""` of app.py:86-87). A value of another JSON type is not modelled (it makes `.strip()` raise, or is passed to bcrypt).
- `Server.Generate` takes `ingredients` and `notes` as the text Python's f-string renders for them (recipes.py:27). A missing one is `""` (app.py:158-159), and a JSON null `notes` is the text `None`. The caller renders such values; other JSON types rendered by `str()`, such as lists for `ingredients`, are not modelled. The emptiness check of app.py:162 is modelled for strings only. `limitRequested` is the result of `int(payload.get("limit", 3))`: 3 when the field is missing, and `None` when `int()` raises, as it does for a null or non-numeric limit.
- The session is reduced to its two keys, `user_id` and `username`. Any other keys `session.clear()` would remove are not represented.
- bcrypt, `json.loads`, `date.today()`, `os.getenv` and the HTTP call are parameters, not models. Their failure modes beyond "returns an error" are not modelled: a malformed stored hash raising in `verify`, or a timeout's exact message.
- The Paystack `create_checkout` and `paystack_webhook` handlers (app.py:36-70) are left out: they are network calls and stubs that change no state.
- `get_recipes` (app.py:205-223) is left out. It is a network client around the OpenAI SDK, with its own 400 for empty ingredients (app.py:210-211). Under `python app.py` it is registered only after `app.run` returns (app.py:201-205), so it does not serve requests there.
- `database.py` is left out: it holds the engine, the session factory and the choice of database URL.
- Database failures other than the unique constraint are not modelled: connection errors, MySQL's enforcement of `String(80)` and of foreign keys. The store is taken to be the default SQLite one.
- Concurrent requests are not modelled. The check-then-increment of the counter is not atomic in the code, and the model is sequential.
- The `temperature` and `max_tokens` payload fields, the `Content-Type` header and the 30-second timeout are not part of `Recipes.ChatRequest`. They only shape what the endpoint returns, and `send` leaves that open. A reply slower than 30 seconds is a `Failed` (a 500 through app.py:186-187). A reply cut short by `max_tokens` is a `Completion` that may not parse.
- A `DAILY_LIMIT` that is not an integer raises at start-up. This is not modelled: `Config.dailyLimit` is an integer.
- `Strings.Lower`: models `str.lower()` only for ASCII and Latin-1 letters (U+00C0 to U+00DE without U+00D7). Other scripts' case mappings, including those that change the length, are not modelled.
- `Script.StringOrEmpty`: covers undefined, null, booleans, strings and the safe integers (magnitude below 2^53), for which `String(n)` is the plain decimal rendering. Other numbers are not modelled: fractions, NaN, infinities, and large values that JavaScript renders in exponent form (`String(1e21)` is `1e+21`). Objects are not modelled either.
- `Recipes.Json` numbers are integers. JSON floats (a `prep_minutes` of `12.5`) are not modelled. Only `recipes` is read from the value and it is passed through, so no contract depends on number values.
- Everything in script.js except `escapeHtml` is left out: DOM updates, fetch calls and event handlers.
