/**
 * The two tables of models.py: `users` and `daily_usage`, their rows, the
 * constraints the database enforces on them, and the lookups the request
 * handlers run against them. A table is a map from primary key to row.
 */
module Models {
  import opened Wrappers

  /** A calendar date, as the number of its day. */
  type Date = int

  /** A row of `users`. */
  datatype User = User(id: int, username: string, passwordHash: string)

  /** A row of `daily_usage`: how many generations user `userId` made on `date`. */
  datatype DailyUsage = DailyUsage(id: int, userId: int, date: Date, count: int)

  /** A value of the dictionary `User.to_dict` returns. */
  datatype Field = IntField(i: int) | StrField(s: string)

  /** `User.to_dict()`: the public view of a user. */
  function ToDict(u: User): (d: map<string, Field>)
    ensures d.Keys == {"id", "username"}
    ensures "password_hash" !in d
    ensures d["id"] == IntField(u.id) && d["username"] == StrField(u.username)
  {
    map["id" := IntField(u.id), "username" := StrField(u.username)]
  }

  /** The public view does not depend on the password hash at all. */
  lemma ToDictIgnoresHash(u: User, h: string)
    ensures ToDict(u) == ToDict(u.(passwordHash := h))
  {
  }

  /** `DailyUsage(id=..., user_id=..., date=..., count=...)`, where an omitted count takes the column default. */
  function NewDailyUsage(id: int, userId: int, date: Date, count: Option<int>): (r: DailyUsage)
    ensures r.id == id && r.userId == userId && r.date == date
    ensures count.None? ==> r.count == 0
    ensures count.Some? ==> r.count == count.value
  {
    DailyUsage(id, userId, date, if count.Some? then count.value else 0)
  }

  /** Every row sits under its own primary key. */
  ghost predicate UsersKeyed(users: map<int, User>) {
    forall k :: k in users ==> users[k].id == k
  }

  /** The unique constraint on `users.username`. */
  ghost predicate UniqueUsernames(users: map<int, User>) {
    forall a, b :: a in users && b in users && users[a].username == users[b].username ==> a == b
  }

  ghost predicate UsersTable(users: map<int, User>) {
    UsersKeyed(users) && UniqueUsernames(users)
  }

  ghost predicate UsageKeyed(usage: map<int, DailyUsage>) {
    forall k :: k in usage ==> usage[k].id == k
  }

  /** The unique constraint `uniq_user_date` on (`user_id`, `date`). */
  ghost predicate UniqueUserDate(usage: map<int, DailyUsage>) {
    forall a, b :: a in usage && b in usage && usage[a].userId == usage[b].userId && usage[a].date == usage[b].date ==> a == b
  }

  ghost predicate UsageTable(usage: map<int, DailyUsage>) {
    UsageKeyed(usage) && UniqueUserDate(usage)
  }

  /** The foreign key `daily_usage.user_id` -> `users.id`. */
  ghost predicate UsageRefersToUsers(usage: map<int, DailyUsage>, users: map<int, User>) {
    forall k :: k in usage ==> usage[k].userId in users
  }

  /** `select(User).filter_by(username=name)` with `scalar_one_or_none()`. */
  function FindUserByName(users: map<int, User>, name: string): (r: Option<User>)
    requires UsersTable(users)
    ensures r.None? <==> forall k :: k in users ==> users[k].username != name
    ensures r.Some? ==> r.value.id in users && users[r.value.id] == r.value && r.value.username == name
  {
    if exists k :: k in users && users[k].username == name then
      var k :| k in users && users[k].username == name;
      Some(users[k])
    else
      None
  }

  /** `select(DailyUsage).filter_by(user_id=uid, date=day)` with `scalar_one_or_none()`. */
  function FindUsage(usage: map<int, DailyUsage>, uid: int, day: Date): (r: Option<DailyUsage>)
    requires UsageTable(usage)
    ensures r.None? <==> forall k :: k in usage ==> !(usage[k].userId == uid && usage[k].date == day)
    ensures r.Some? ==> r.value.id in usage && usage[r.value.id] == r.value
    ensures r.Some? ==> r.value.userId == uid && r.value.date == day
  {
    if exists k :: k in usage && usage[k].userId == uid && usage[k].date == day then
      var k :| k in usage && usage[k].userId == uid && usage[k].date == day;
      Some(usage[k])
    else
      None
  }

  /** Adding a row under a fresh key whose (user, date) has no row keeps the constraints, and the lookup finds it. */
  lemma InsertUsage(usage: map<int, DailyUsage>, row: DailyUsage)
    requires UsageTable(usage)
    requires row.id !in usage
    requires FindUsage(usage, row.userId, row.date).None?
    ensures UsageTable(usage[row.id := row])
    ensures FindUsage(usage[row.id := row], row.userId, row.date) == Some(row)
  {
    var m := usage[row.id := row];
    assert row.id in m && m[row.id] == row;
    var r := FindUsage(m, row.userId, row.date);
    assert r.value.id == row.id;
  }

  /** Replacing a row by one with the same key, user and date keeps the constraints, and the lookup finds it. */
  lemma UpdateUsage(usage: map<int, DailyUsage>, row: DailyUsage)
    requires UsageTable(usage)
    requires row.id in usage && usage[row.id].userId == row.userId && usage[row.id].date == row.date
    ensures UsageTable(usage[row.id := row])
    ensures FindUsage(usage[row.id := row], row.userId, row.date) == Some(row)
  {
    var m := usage[row.id := row];
    assert row.id in m && m[row.id] == row;
    var r := FindUsage(m, row.userId, row.date);
    assert r.value.id == row.id;
  }

  /** Adding a user under a fresh key with a name nobody has keeps the constraints. */
  lemma InsertUser(users: map<int, User>, u: User)
    requires UsersTable(users)
    requires u.id !in users
    requires FindUserByName(users, u.username).None?
    ensures UsersTable(users[u.id := u])
    ensures FindUserByName(users[u.id := u], u.username) == Some(u)
    ensures |users[u.id := u]| == |users| + 1
  {
    var m := users[u.id := u];
    assert u.id in m && m[u.id] == u;
    var r := FindUserByName(m, u.username);
    assert r.value.id == u.id;
  }
}
