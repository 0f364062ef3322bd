/**
 * app.py: the JSON endpoints signup, login, logout, me and generate, over
 * the users and daily_usage tables and the client's session. The clock,
 * bcrypt, the OpenAI call and json.loads come in as parameters.
 */
module App {
  import opened Wrappers
  import opened Strings
  import opened Models
  import Recipes

  /** The settings read from the environment at start-up. */
  datatype Config = Config(
    dailyLimit: int,        // DAILY_LIMIT
    paywallAmount: string,  // PAYWALL_AMOUNT_KES
    checkoutBase: string,   // INTASEND_CHECKOUT_BASE
    openAiKey: string,      // OPENAI_API_KEY
    openAiModel: string)    // OPENAI_MODEL

  /** The settings when none of the variables is set. */
  const DefaultConfig := Config(5, "50", "https://pay.intasend.com/checkout", "", "gpt-4o-mini")

  /** Flask's session dictionary, reduced to the two keys the handlers use. */
  datatype Session = Session(userId: Option<int>, username: Option<string>)

  const EmptySession := Session(None, None)

  const MissingCredentials := "username and password required"
  const UsernameTaken := "username already exists"
  const InvalidCredentials := "invalid credentials"
  const AuthRequired := "auth required"
  const NoIngredients := "no ingredients provided"
  const GenerationFailedPrefix := "recipe generation failed: "
  const LimitReached := "limit_reached"
  const LimitReachedMessage := "Daily limit reached. Complete payment to unlock more recipes."

  /** The responses of the five endpoints. */
  datatype Response =
    | SignupOk                                         // 200 {"ok": true}
    | LoginOk(username: string)                        // 200 {"ok": true, "username": ...}
    | LogoutOk                                         // 200 {"ok": true}
    | Anonymous                                        // 200 {"user": null}
    | CurrentUser(user: string, usedToday: int, limit: int)      // 200
    | Generated(recipes: Recipes.Json, usedToday: int, limit: int) // 200
    | Paywall(error: string, message: string, checkoutUrl: string, amount: string)  // 402
    | BadRequest(error: string)                        // 400
    | Unauthorized(error: string)                      // 401
    | Conflict(error: string)                          // 409
    | GenerationFailed(error: string)                  // 500 {"error": ...}
    | InternalError                                    // 500 from an exception the handler does not catch

  /** The HTTP status each handler returns with the response. */
  function StatusCode(r: Response): (code: int)
    ensures code == 402 <==> r.Paywall?
    ensures code == 400 <==> r.BadRequest?
    ensures code == 401 <==> r.Unauthorized?
    ensures code == 409 <==> r.Conflict?
    ensures code == 500 <==> r.GenerationFailed? || r.InternalError?
    ensures code == 200 <==> r.SignupOk? || r.LoginOk? || r.LogoutOk? || r.Anonymous? || r.CurrentUser? || r.Generated?
  {
    match r
    case Paywall(_, _, _, _) => 402
    case BadRequest(_) => 400
    case Unauthorized(_) => 401
    case Conflict(_) => 409
    case GenerationFailed(_) => 500
    case InternalError => 500
    case _ => 200
  }

  /** `f"{INTASEND_CHECKOUT_BASE}?amount={PAYWALL_AMOUNT_KES}&ref={session.get('username')}"`. */
  function CheckoutUrl(config: Config, username: Option<string>): (url: string)
    ensures EndsWith(url, if username.Some? then username.value else "None")
  {
    config.checkoutBase + "?amount=" + config.paywallAmount + "&ref=" + (if username.Some? then username.value else "None")
  }

  /** `model_result.get("recipes", [])`; None when the value has no `get`, which raises. */
  function RecipesField(v: Recipes.Json): (r: Option<Recipes.Json>)
    ensures r.Some? <==> v.JObject?
    ensures v.JObject? && "recipes" !in v.fields ==> r == Some(Recipes.JArray([]))
    ensures v.JObject? && "recipes" in v.fields ==> r == Some(v.fields["recipes"])
  {
    match v
    case JObject(fields) => Some(if "recipes" in fields then fields["recipes"] else Recipes.JArray([]))
    case _ => None
  }

  /** `du.count if du else 0` for the row of (uid, day). */
  function UsedToday(usage: map<int, DailyUsage>, uid: int, day: Date): (n: int)
    requires UsageTable(usage)
    ensures (forall k :: k in usage ==> !(usage[k].userId == uid && usage[k].date == day)) ==> n == 0
    ensures forall k :: k in usage && usage[k].userId == uid && usage[k].date == day ==> n == usage[k].count
  {
    match FindUsage(usage, uid, day)
    case None => 0
    case Some(du) => du.count
  }

  /**
   * The "increment usage" step: the table after one more generation by uid on day. A row
   * under the fresh key nextId with count 1 when the day has none, else that row's count plus one.
   */
  function Counted(usage: map<int, DailyUsage>, nextId: int, uid: int, day: Date): (u: map<int, DailyUsage>)
    requires UsageTable(usage) && nextId !in usage
    ensures UsageTable(u)
    ensures FindUsage(u, uid, day).Some? && FindUsage(u, uid, day).value.count == UsedToday(usage, uid, day) + 1
    ensures forall k :: k in usage && !(usage[k].userId == uid && usage[k].date == day) ==> k in u && u[k] == usage[k]
    ensures FindUsage(usage, uid, day).None? ==> u.Keys == usage.Keys + {nextId} && u[nextId] == DailyUsage(nextId, uid, day, 1)
    ensures FindUsage(usage, uid, day).Some? ==>
              u.Keys == usage.Keys && FindUsage(u, uid, day).value.id == FindUsage(usage, uid, day).value.id
  {
    match FindUsage(usage, uid, day)
    case None =>
      var row := DailyUsage(nextId, uid, day, 1);
      InsertUsage(usage, row);
      usage[nextId := row]
    case Some(du) =>
      var row := du.(count := du.count + 1);
      UpdateUsage(usage, row);
      usage[du.id := row]
  }

  /** The gate of app.py: it closes only on a row of today that has reached the limit. */
  predicate GateCloses(row: Option<DailyUsage>, limit: int)
    ensures GateCloses(row, limit) ==> row.Some?
    ensures row.Some? ==> (GateCloses(row, limit) <==> row.value.count >= limit)
  {
    row.Some? && row.value.count >= limit
  }

  /** The first generation of a day always passes the gate, whatever the limit. */
  lemma FirstOfDayPasses(usage: map<int, DailyUsage>, uid: int, day: Date, limit: int)
    requires UsageTable(usage)
    requires forall k :: k in usage ==> !(usage[k].userId == uid && usage[k].date == day)
    ensures !GateCloses(FindUsage(usage, uid, day), limit)
  {
  }

  /** The users table as the handlers keep it: keys below the next id, names normalised and non-empty. */
  ghost predicate UserRows(users: map<int, User>, nextId: int) {
    && UsersTable(users)
    && nextId >= 1
    && (forall k :: k in users ==> 1 <= k < nextId)
    && (forall k :: k in users ==> users[k].username != [] && IsNormalised(users[k].username))
  }

  /** The daily_usage table as the handlers keep it: keys below the next id, counts never negative. */
  ghost predicate UsageRows(usage: map<int, DailyUsage>, nextId: int) {
    && UsageTable(usage)
    && nextId >= 1
    && (forall k :: k in usage ==> 1 <= k < nextId)
    && (forall k :: k in usage ==> usage[k].count >= 0)
  }

  /** A signup of a free normalised name under the next id keeps the users table, and the name then finds the new row. */
  lemma SignupKeepsUserRows(users: map<int, User>, nextId: int, user: User)
    requires UserRows(users, nextId)
    requires user.id == nextId && user.username != [] && IsNormalised(user.username)
    requires FindUserByName(users, user.username).None?
    ensures UserRows(users[nextId := user], nextId + 1)
    ensures FindUserByName(users[nextId := user], user.username) == Some(user)
    ensures |users[nextId := user]| == |users| + 1
  {
    InsertUser(users, user);
  }

  /** Counting a generation keeps the usage table, the next id moving on only when a row is created. */
  lemma CountKeepsUsageRows(usage: map<int, DailyUsage>, nextId: int, uid: int, day: Date)
    requires UsageRows(usage, nextId)
    ensures UsageRows(Counted(usage, nextId, uid, day), nextId + (if FindUsage(usage, uid, day).None? then 1 else 0))
  {
    var u := Counted(usage, nextId, uid, day);
    if FindUsage(usage, uid, day).None? {
      assert forall k :: k in u ==> k in usage || k == nextId;
    } else {
      var du := FindUsage(usage, uid, day).value;
      assert forall k :: k in u ==> k in usage;
      assert forall k :: k in u && k != du.id ==> u[k] == usage[k];
    }
  }

  /** Counting a generation of an existing user keeps the foreign key. */
  lemma CountKeepsReferences(usage: map<int, DailyUsage>, nextId: int, uid: int, day: Date, users: map<int, User>)
    requires UsageTable(usage) && nextId !in usage
    requires UsageRefersToUsers(usage, users) && uid in users
    ensures UsageRefersToUsers(Counted(usage, nextId, uid, day), users)
  {
    var u := Counted(usage, nextId, uid, day);
    forall k | k in u
      ensures u[k].userId in users
    {
      if !(k in usage && !(usage[k].userId == uid && usage[k].date == day)) {
        assert u[k].userId == uid;
      }
    }
  }

  /** Under the default settings no key is set: every generation fails with the key message and sends nothing. */
  lemma DefaultConfigCannotGenerate(ingredients: string, notes: string, limit: int,
                                    send: Recipes.ChatRequest -> Recipes.Upstream, parse: string -> Result<Recipes.Json>)
    ensures Recipes.GenerateRecipes(DefaultConfig.openAiKey, DefaultConfig.openAiModel, ingredients, notes, limit, send, parse)
         == Recipes.Run([], Err(Recipes.MissingKeyMessage))
  {
  }

  /** The server: its configuration, its two tables, the ids the database hands out next, and the session. */
  class Server {
    const config: Config
    var users: map<int, User>
    var usage: map<int, DailyUsage>
    var nextUserId: int
    var nextUsageId: int
    var session: Session
    /** Every request sent to the OpenAI endpoint so far. */
    ghost var sent: seq<Recipes.ChatRequest>

    /** The constraints the schema declares and the handlers keep. */
    ghost predicate Valid()
      reads this`users, this`usage, this`nextUserId, this`nextUsageId
    {
      UserRows(users, nextUserId) && UsageRows(usage, nextUsageId)
    }

    /** The foreign key, which the default SQLite store does not enforce. */
    ghost predicate ReferencesHold()
      reads this
    {
      UsageRefersToUsers(usage, users)
    }

    /** The session names a user that exists. */
    ghost predicate SessionUserExists()
      reads this
    {
      session.userId.Some? ==> session.userId.value in users
    }

    /** A fresh database (`create_all`) and the session the client's cookie carries. */
    constructor (config: Config, cookie: Session)
      ensures Valid() && ReferencesHold()
      ensures this.config == config && session == cookie
      ensures users == map[] && usage == map[] && sent == []
    {
      this.config := config;
      users, usage := map[], map[];
      nextUserId, nextUsageId := 1, 1;
      session := cookie;
      sent := [];
    }

    /** POST /api/signup; `hash` is bcrypt.hash with this request's salt. */
    method Signup(username: string, password: string, hash: string -> string) returns (r: Response)
      requires Valid()
      modifies this`users, this`nextUserId
      ensures Valid()
      ensures old(ReferencesHold()) ==> ReferencesHold()
      ensures old(SessionUserExists()) ==> SessionUserExists()
      ensures Normalise(username) == [] || password == [] ==>
                r == BadRequest(MissingCredentials) && users == old(users) && nextUserId == old(nextUserId)
      ensures Normalise(username) != [] && password != [] && FindUserByName(old(users), Normalise(username)).Some? ==>
                r == Conflict(UsernameTaken) && users == old(users) && nextUserId == old(nextUserId)
      ensures Normalise(username) != [] && password != [] && FindUserByName(old(users), Normalise(username)).None? ==>
                && r == SignupOk
                && users == old(users)[old(nextUserId) := User(old(nextUserId), Normalise(username), hash(password))]
                && |users| == |old(users)| + 1
                && nextUserId == old(nextUserId) + 1
                && FindUserByName(users, Normalise(username)) == Some(users[old(nextUserId)])
    {
      var name := Normalise(username);
      if name == [] || password == [] {
        return BadRequest(MissingCredentials);
      }
      if FindUserByName(users, name).Some? {
        // the insert violates the unique constraint and is rolled back
        return Conflict(UsernameTaken);
      }
      NormaliseIdempotent(username);
      var user := AddUser(name, hash(password));
      r := SignupOk;
    }

    /** `db.add(User(...))` and `db.commit()` for a name nobody has: the row gets the next id. */
    method AddUser(name: string, passwordHash: string) returns (user: User)
      requires Valid()
      requires name != [] && IsNormalised(name) && FindUserByName(users, name).None?
      modifies this`users, this`nextUserId
      ensures Valid()
      ensures old(ReferencesHold()) ==> ReferencesHold()
      ensures old(SessionUserExists()) ==> SessionUserExists()
      ensures user == User(old(nextUserId), name, passwordHash)
      ensures users == old(users)[old(nextUserId) := user] && FindUserByName(users, name) == Some(user)
      ensures |users| == |old(users)| + 1 && nextUserId == old(nextUserId) + 1
    {
      user := User(nextUserId, name, passwordHash);
      SignupKeepsUserRows(users, nextUserId, user);
      users := users[user.id := user];
      nextUserId := nextUserId + 1;
    }

    /** POST /api/login; `verify` is bcrypt.verify. */
    method Login(username: string, password: string, verify: (string, string) -> bool) returns (r: Response)
      requires Valid()
      modifies this`session
      ensures Valid()
      ensures Normalise(username) == [] || password == [] ==>
                r == BadRequest(MissingCredentials) && session == old(session)
      ensures Normalise(username) != [] && password != [] ==>
                var found := FindUserByName(users, Normalise(username));
                if found.None? || !verify(password, found.value.passwordHash) then
                  r == Unauthorized(InvalidCredentials) && session == old(session)
                else
                  r == LoginOk(Normalise(username)) && session == Session(Some(found.value.id), Some(found.value.username))
      ensures old(SessionUserExists()) ==> SessionUserExists()
      ensures r.LoginOk? ==> SessionUserExists()
    {
      var name := Normalise(username);
      if name == [] || password == [] {
        return BadRequest(MissingCredentials);
      }
      var found := FindUserByName(users, name);
      if found.None? || !verify(password, found.value.passwordHash) {
        return Unauthorized(InvalidCredentials);
      }
      var user := found.value;
      StartSession(user);
      r := LoginOk(user.username);
    }

    /** `session.clear()`, then the user's id and name. */
    method StartSession(user: User)
      requires Valid()
      modifies this`session
      ensures Valid()
      ensures session == Session(Some(user.id), Some(user.username))
    {
      session := EmptySession;
      session := session.(userId := Some(user.id));
      session := session.(username := Some(user.username));
    }

    /** POST /api/logout. */
    method Logout() returns (r: Response)
      requires Valid()
      modifies this`session
      ensures Valid()
      ensures session == EmptySession && r == LogoutOk
    {
      session := EmptySession;
      r := LogoutOk;
    }

    /** GET /api/me on day `today`. */
    method Me(today: Date) returns (r: Response)
      requires Valid()
      ensures session.userId.None? ==> r == Anonymous
      ensures session.userId.Some? && session.userId.value !in users ==> r == Anonymous
      ensures session.userId.Some? && session.userId.value in users ==>
                r == CurrentUser(users[session.userId.value].username, UsedToday(usage, session.userId.value, today), config.dailyLimit)
    {
      if session.userId.None? {
        return Anonymous;
      }
      var uid := session.userId.value;
      if uid !in users {
        return Anonymous;
      }
      r := CurrentUser(users[uid].username, UsedToday(usage, uid, today), config.dailyLimit);
    }

    /** The request passes every check of generate and reaches the recipe generator. */
    ghost predicate Proceeds(today: Date, ingredients: string, limitRequested: Option<int>)
      reads this
      requires Valid()
    {
      && session.userId.Some? && limitRequested.Some? && ingredients != []
      && !GateCloses(FindUsage(usage, session.userId.value, today), config.dailyLimit)
    }

    /** `generate_recipes(ingredients, notes, limit_requested)` under this server's settings. */
    function RunFor(ingredients: string, notes: string, limit: int,
                    send: Recipes.ChatRequest -> Recipes.Upstream, parse: string -> Result<Recipes.Json>): Recipes.Run
    {
      Recipes.GenerateRecipes(config.openAiKey, config.openAiModel, ingredients, notes, limit, send, parse)
    }

    /** The "increment usage" step of generate: create today's row with count 1, or add 1 to it, and commit. */
    method CountGeneration(uid: int, today: Date) returns (row: DailyUsage)
      requires Valid()
      modifies this`usage, this`nextUsageId
      ensures Valid()
      ensures old(ReferencesHold()) && uid in users ==> ReferencesHold()
      ensures var du := FindUsage(old(usage), uid, today);
              && (du.None? ==> row == DailyUsage(old(nextUsageId), uid, today, 1) && nextUsageId == old(nextUsageId) + 1)
              && (du.Some? ==> row == du.value.(count := du.value.count + 1) && nextUsageId == old(nextUsageId))
      ensures usage == Counted(old(usage), old(nextUsageId), uid, today) == old(usage)[row.id := row]
      ensures FindUsage(usage, uid, today) == Some(row)
      ensures UsedToday(usage, uid, today) == row.count == UsedToday(old(usage), uid, today) + 1
    {
      var du := FindUsage(usage, uid, today);
      CountKeepsUsageRows(usage, nextUsageId, uid, today);
      if ReferencesHold() && uid in users {
        CountKeepsReferences(usage, nextUsageId, uid, today, users);
      }
      ghost var counted := Counted(usage, nextUsageId, uid, today);
      if du.None? {
        row := NewDailyUsage(nextUsageId, uid, today, Some(1));
        InsertUsage(usage, row);
        assert usage[row.id := row] == counted;
        usage := usage[row.id := row];
        nextUsageId := nextUsageId + 1;
      } else {
        row := du.value.(count := du.value.count + 1);
        UpdateUsage(usage, row);
        assert usage[row.id := row] == counted;
        usage := usage[row.id := row];
      }
    }

    /**
     * POST /api/generate on day `today`. `ingredients` and `notes` are the payload fields as the
     * prompt renders them (`""` when missing). `limitRequested` is `int(payload.get("limit", 3))`,
     * None when that conversion raises; `send` is the OpenAI endpoint and `parse` is json.loads.
     */
    method Generate(today: Date, ingredients: string, notes: string, limitRequested: Option<int>,
                    send: Recipes.ChatRequest -> Recipes.Upstream, parse: string -> Result<Recipes.Json>)
      returns (r: Response)
      requires Valid()
      modifies this`usage, this`nextUsageId, this`sent
      ensures Valid()
      ensures old(ReferencesHold()) && SessionUserExists() ==> ReferencesHold()
      ensures !old(Proceeds(today, ingredients, limitRequested)) ==>
                usage == old(usage) && nextUsageId == old(nextUsageId) && sent == old(sent)
      ensures old(Proceeds(today, ingredients, limitRequested)) ==>
                sent == old(sent) + RunFor(ingredients, notes, limitRequested.value, send, parse).sent
      ensures session.userId.None? ==> r == Unauthorized(AuthRequired)
      ensures session.userId.Some? && limitRequested.None? ==> r == InternalError
      ensures session.userId.Some? && limitRequested.Some? && ingredients == [] ==> r == BadRequest(NoIngredients)
      ensures session.userId.Some? && limitRequested.Some? && ingredients != []
              && GateCloses(FindUsage(old(usage), session.userId.value, today), config.dailyLimit) ==>
                r == Paywall(LimitReached, LimitReachedMessage, CheckoutUrl(config, session.username), config.paywallAmount)
      ensures old(Proceeds(today, ingredients, limitRequested))
              && RunFor(ingredients, notes, limitRequested.value, send, parse).result.Err? ==>
                r == GenerationFailed(GenerationFailedPrefix + RunFor(ingredients, notes, limitRequested.value, send, parse).result.error)
                && usage == old(usage) && nextUsageId == old(nextUsageId)
      ensures old(Proceeds(today, ingredients, limitRequested))
              && RunFor(ingredients, notes, limitRequested.value, send, parse).result.Ok? ==>
                var uid, du := session.userId.value, FindUsage(old(usage), session.userId.value, today);
                && usage == Counted(old(usage), old(nextUsageId), uid, today)
                && nextUsageId == old(nextUsageId) + (if du.None? then 1 else 0)
                && UsedToday(usage, uid, today) == UsedToday(old(usage), uid, today) + 1
                && r == match RecipesField(RunFor(ingredients, notes, limitRequested.value, send, parse).result.value)
                        case None => InternalError
                        case Some(recipes) => Generated(recipes, UsedToday(usage, uid, today), config.dailyLimit)
    {
      if session.userId.None? {
        return Unauthorized(AuthRequired);
      }
      if limitRequested.None? {
        return InternalError;
      }
      if ingredients == [] {
        return BadRequest(NoIngredients);
      }
      r := GatedGenerate(today, ingredients, notes, limitRequested.value, send, parse);
    }

    /** The part of generate after the request checks: the quota gate, the generator and the count. */
    method GatedGenerate(today: Date, ingredients: string, notes: string, limit: int,
                         send: Recipes.ChatRequest -> Recipes.Upstream, parse: string -> Result<Recipes.Json>)
      returns (r: Response)
      requires Valid() && session.userId.Some? && ingredients != []
      modifies this`usage, this`nextUsageId, this`sent
      ensures Valid()
      ensures old(ReferencesHold()) && SessionUserExists() ==> ReferencesHold()
      ensures GateCloses(FindUsage(old(usage), session.userId.value, today), config.dailyLimit) ==>
                && r == Paywall(LimitReached, LimitReachedMessage, CheckoutUrl(config, session.username), config.paywallAmount)
                && usage == old(usage) && nextUsageId == old(nextUsageId) && sent == old(sent)
      ensures old(Proceeds(today, ingredients, Some(limit))) ==> sent == old(sent) + RunFor(ingredients, notes, limit, send, parse).sent
      ensures old(Proceeds(today, ingredients, Some(limit))) && RunFor(ingredients, notes, limit, send, parse).result.Err? ==>
                r == GenerationFailed(GenerationFailedPrefix + RunFor(ingredients, notes, limit, send, parse).result.error)
                && usage == old(usage) && nextUsageId == old(nextUsageId)
      ensures old(Proceeds(today, ingredients, Some(limit))) && RunFor(ingredients, notes, limit, send, parse).result.Ok? ==>
                var uid, du := session.userId.value, FindUsage(old(usage), session.userId.value, today);
                && usage == Counted(old(usage), old(nextUsageId), uid, today)
                && nextUsageId == old(nextUsageId) + (if du.None? then 1 else 0)
                && UsedToday(usage, uid, today) == UsedToday(old(usage), uid, today) + 1
                && r == match RecipesField(RunFor(ingredients, notes, limit, send, parse).result.value)
                        case None => InternalError
                        case Some(recipes) => Generated(recipes, UsedToday(usage, uid, today), config.dailyLimit)
    {
      if GateCloses(FindUsage(usage, session.userId.value, today), config.dailyLimit) {
        return Paywall(LimitReached, LimitReachedMessage, CheckoutUrl(config, session.username), config.paywallAmount);
      }
      var run := RunFor(ingredients, notes, limit, send, parse);
      if run.result.Err? {
        sent := sent + run.sent;
        return GenerationFailed(GenerationFailedPrefix + run.result.error);
      }
      r := CountAndRespond(today, run.result.value);
      sent := sent + run.sent;
    }

    /** After a successful generation: count it, commit, and build the body from the model's value. */
    method CountAndRespond(today: Date, model: Recipes.Json) returns (r: Response)
      requires Valid() && session.userId.Some?
      modifies this`usage, this`nextUsageId
      ensures Valid()
      ensures old(ReferencesHold()) && SessionUserExists() ==> ReferencesHold()
      ensures var uid, du := session.userId.value, FindUsage(old(usage), session.userId.value, today);
              && usage == Counted(old(usage), old(nextUsageId), uid, today)
              && nextUsageId == old(nextUsageId) + (if du.None? then 1 else 0)
              && UsedToday(usage, uid, today) == UsedToday(old(usage), uid, today) + 1
              && r == match RecipesField(model)
                      case None => InternalError
                      case Some(recipes) => Generated(recipes, UsedToday(usage, uid, today), config.dailyLimit)
    {
      var row := CountGeneration(session.userId.value, today);
      // the commit has happened; building the body may still raise
      match RecipesField(model)
      case None => r := InternalError;
      case Some(recipes) => r := Generated(recipes, row.count, config.dailyLimit);
    }
  }
}
