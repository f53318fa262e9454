/** The authentication server's tables and request handlers, as functions from
    the database before a request to the database after it and the response.

    The clock is the `now` parameter (milliseconds), the random bytes of a new
    session or reset token are the `token` parameter, and the two hash functions
    (SHA-256 of tokens, bcrypt of passwords) are the fields of `Crypto`. Rows are
    kept in insertion order, which is the order in which the single-row queries
    of the server find them. */
module Auth {
  import opened Maybe
  import opened Text
  import opened Numbers
  import opened Seqs
  import opened JsonData

  /** Seven days, the lifetime of a session. */
  const SessionLifetimeMs: int := 1000 * 60 * 60 * 24 * 7
  /** Thirty minutes, the lifetime of a password-reset ticket. */
  const ResetLifetimeMs: int := 1000 * 60 * 30
  /** The role linked to every new account, when it exists. */
  const DefaultRoleName: string := "Administrador"
  /** The scheme prefix of an `Authorization` header carrying a bearer token
      (section 2.1 of RFC 6750); the server compares it case-sensitively. */
  const BearerPrefix: string := "Bearer "

  /** The foreign hash functions: `hashToken` stands for hex SHA-256 and
      `hashPassword` for bcrypt, whose verification is modelled as equality of
      hashes. */
  datatype Crypto = Crypto(hashToken: string -> string, hashPassword: string -> string)

  /** Distinct tokens have distinct hashes (collision resistance of SHA-256). */
  ghost predicate TokenHashInjective(c: Crypto)
  {
    forall a: string, b: string :: c.hashToken(a) == c.hashToken(b) ==> a == b
  }

  datatype User = User(id: nat, name: Option<string>, email: string, passwordHash: string, createdAt: int)
  datatype Session = Session(id: nat, userId: nat, tokenHash: string, createdAt: int, expiresAt: int)
  datatype Reset = Reset(id: nat, userId: nat, tokenHash: string, expiresAt: int, usedAt: Option<int>)
  datatype Role = Role(id: nat, name: string)
  datatype UserRole = UserRole(userId: nat, roleId: nat)

  datatype DocKind = PipelineDoc | FinanceDoc
  /** A stored JSON blob: per user (`pipeline_data`, `finance_data`) or the one
      shared board (`pipeline_state`). */
  datatype DocKey = UserDoc(owner: nat, kind: DocKind) | Board

  /** The tables. `singleSession` is the `single_session` column of
      `user_preferences`, keyed by user id; the `next…` fields are the next
      AUTOINCREMENT row ids. */
  datatype Database = Database(
    users: seq<User>,
    sessions: seq<Session>,
    resets: seq<Reset>,
    roles: seq<Role>,
    userRoles: set<UserRole>,
    singleSession: map<nat, bool>,
    documents: map<DocKey, Json>,
    nextUserId: nat,
    nextSessionId: nat,
    nextResetId: nat)

  /** The table constraints the handlers keep: positive distinct user ids below
      the counter, distinct non-empty emails (`email TEXT NOT NULL UNIQUE`),
      session, ticket and preference keys below their counters; AUTOINCREMENT
      ids start at 1. */
  predicate Valid(db: Database)
  {
    && db.nextUserId > 0
    && (forall i :: 0 <= i < |db.users| ==> 0 < db.users[i].id < db.nextUserId && db.users[i].email != [])
    && (forall i, j :: 0 <= i < j < |db.users| ==>
          db.users[i].id != db.users[j].id && db.users[i].email != db.users[j].email)
    && (forall i :: 0 <= i < |db.sessions| ==> db.sessions[i].id < db.nextSessionId)
    && (forall i :: 0 <= i < |db.resets| ==> db.resets[i].id < db.nextResetId)
    && (forall k :: k in db.singleSession ==> k < db.nextUserId)
  }

  /** The roles seeded into an empty `roles` table, in insertion order. */
  const SeedRoles: seq<Role> := [Role(1, "Administrador"), Role(2, "Gestor"), Role(3, "Analista"), Role(4, "Leitor")]

  /** A new database: every table empty except the seeded roles, every
      AUTOINCREMENT counter at 1. */
  function Initial(): (r: Database)
    ensures Valid(r)
    ensures r.users == [] && r.sessions == [] && r.resets == []
  {
    Database([], [], [], SeedRoles, {}, map[], map[], 1, 1, 1)
  }

  /** The user as the handlers report it. */
  datatype AuthUser = AuthUser(id: nat, email: string, name: Option<string>)

  datatype Body =
    | SignedIn(user: AuthUser, token: string)
    | Profile(user: AuthUser)
    | Ok
    | ResetIssued(resetToken: string)
    | Data(data: Option<Json>)
    | Failure(error: string)

  datatype Response = Response(status: nat, body: Body)

  /** The credential parts of a request: the `Authorization` header and the
      `sc_session` cookie, each absent or a string. */
  datatype Credential = Credential(authorization: Option<string>, cookie: Option<string>)

  function ToAuthUser(u: User): AuthUser
  {
    AuthUser(u.id, u.email, u.name)
  }

  const Unauthorized := Response(401, Failure("unauthorized"))

  /** A string body field: trimmed and lower-cased, or "" when it is not a
      string. */
  function NormalizeEmail(email: Option<string>): (r: string)
    ensures email.None? ==> r == []
    ensures email.Some? ==> r == ToLower(Trim(email.value))
  {
    match email
    case None => []
    case Some(e) => ToLower(Trim(e))
  }

  /** An optional string body field, trimmed when present. */
  function TrimmedName(name: Option<string>): Option<string>
  {
    match name
    case None => None
    case Some(n) => Some(Trim(n))
  }

  function UserIndex(users: seq<User>, id: nat): (r: Option<nat>)
    ensures r.Some? ==> r.value < |users| && users[r.value].id == id
    ensures r.Some? ==> forall j :: 0 <= j < r.value ==> users[j].id != id
    ensures r.None? ==> forall i :: 0 <= i < |users| ==> users[i].id != id
  {
    FindIndex(users, (u: User) => u.id == id)
  }

  function UserByEmail(users: seq<User>, email: string): (r: Option<nat>)
    ensures r.Some? ==> r.value < |users| && users[r.value].email == email
    ensures r.Some? ==> forall j :: 0 <= j < r.value ==> users[j].email != email
    ensures r.None? ==> forall i :: 0 <= i < |users| ==> users[i].email != email
  {
    FindIndex(users, (u: User) => u.email == email)
  }

  /** `SELECT id FROM users WHERE email = ? AND id != ?` finds a row. */
  predicate EmailTakenByOther(users: seq<User>, email: string, id: nat)
  {
    exists i :: 0 <= i < |users| && users[i].email == email && users[i].id != id
  }

  /** The token a request presents: an `Authorization` header that starts with
      the exact prefix "Bearer " wins and gives the trimmed rest, even when that
      is empty; otherwise a non-empty `sc_session` cookie; otherwise none. */
  function TokenFromRequest(cred: Credential): (r: Option<string>)
    ensures r == Some([]) <==>
      cred.authorization.Some? && StartsWith(cred.authorization.value, BearerPrefix)
      && IsBlank(cred.authorization.value[|BearerPrefix|..])
  {
    if cred.authorization.Some? && StartsWith(cred.authorization.value, BearerPrefix)
    then Some(Trim(cred.authorization.value[|BearerPrefix|..]))
    else if cred.cookie.Some? && cred.cookie.value != [] then cred.cookie
    else None
  }

  /** `issueSession`: one new row holding the hash of the token, never the
      token, and expiring seven days after `now`. */
  function IssueSession(db: Database, c: Crypto, userId: nat, token: string, now: int): (r: Database)
    ensures r.sessions == db.sessions + [Session(db.nextSessionId, userId, c.hashToken(token), now, now + SessionLifetimeMs)]
    ensures r == db.(sessions := r.sessions, nextSessionId := db.nextSessionId + 1)
  {
    db.(sessions := db.sessions + [Session(db.nextSessionId, userId, c.hashToken(token), now, now + SessionLifetimeMs)],
        nextSessionId := db.nextSessionId + 1)
  }

  /** `hasActiveSession`: the user has a session row, expired or not. */
  predicate HasSession(sessions: seq<Session>, userId: nat)
  {
    exists i :: 0 <= i < |sessions| && sessions[i].userId == userId
  }

  /** `DELETE FROM sessions WHERE id = ?`. */
  function DeleteSessionById(sessions: seq<Session>, id: nat): (r: seq<Session>)
    ensures forall i :: 0 <= i < |r| ==> r[i].id != id && r[i] in sessions
    ensures forall i :: 0 <= i < |sessions| && sessions[i].id != id ==> sessions[i] in r
  {
    FilterMembers(sessions, (s: Session) => s.id != id);
    Filter(sessions, (s: Session) => s.id != id)
  }

  /** `DELETE FROM sessions WHERE user_id = ?`. */
  function DeleteUserSessions(sessions: seq<Session>, userId: nat): (r: seq<Session>)
    ensures forall i :: 0 <= i < |r| ==> r[i].userId != userId && r[i] in sessions
    ensures forall i :: 0 <= i < |sessions| && sessions[i].userId != userId ==> sessions[i] in r
  {
    FilterMembers(sessions, (s: Session) => s.userId != userId);
    Filter(sessions, (s: Session) => s.userId != userId)
  }

  /** `DELETE FROM sessions WHERE token_hash = ?`. */
  function DeleteSessionsByHash(sessions: seq<Session>, hash: string): (r: seq<Session>)
    ensures forall i :: 0 <= i < |r| ==> r[i].tokenHash != hash && r[i] in sessions
    ensures forall i :: 0 <= i < |sessions| && sessions[i].tokenHash != hash ==> sessions[i] in r
  {
    FilterMembers(sessions, (s: Session) => s.tokenHash != hash);
    Filter(sessions, (s: Session) => s.tokenHash != hash)
  }

  /** `clearUserSessions`: every session row of the user goes. */
  function ClearUserSessions(db: Database, userId: nat): (r: Database)
    ensures !HasSession(r.sessions, userId)
    ensures forall i :: 0 <= i < |db.sessions| && db.sessions[i].userId != userId ==> db.sessions[i] in r.sessions
    ensures r == db.(sessions := r.sessions)
  {
    db.(sessions := DeleteUserSessions(db.sessions, userId))
  }

  /** The first session row with this token hash whose user exists (the join
      of `getUserFromRequest`). */
  function SessionByHash(db: Database, hash: string): (r: Option<nat>)
    ensures r.Some? ==> r.value < |db.sessions| && db.sessions[r.value].tokenHash == hash
                        && UserIndex(db.users, db.sessions[r.value].userId).Some?
    ensures r.Some? ==> forall j :: 0 <= j < r.value ==>
      !(db.sessions[j].tokenHash == hash && UserIndex(db.users, db.sessions[j].userId).Some?)
    ensures r.None? ==>
      forall i :: 0 <= i < |db.sessions| && db.sessions[i].tokenHash == hash ==> UserIndex(db.users, db.sessions[i].userId).None?
  {
    FindIndex(db.sessions, (s: Session) => s.tokenHash == hash && UserIndex(db.users, s.userId).Some?)
  }

  /** `getUserFromRequest`: the user of the presented session. A session whose
      expiry lies strictly before `now` is deleted on the spot and the request
      is anonymous; nothing else ever changes. */
  function Authenticate(db: Database, c: Crypto, cred: Credential, now: int): (r: (Database, Option<AuthUser>))
    ensures r.0 == db.(sessions := r.0.sessions)
    ensures forall i :: 0 <= i < |r.0.sessions| ==> r.0.sessions[i] in db.sessions
    ensures r.1.Some? ==> r.0 == db && IsUser(db, r.1.value)
    ensures (TokenFromRequest(cred).None? || TokenFromRequest(cred) == Some([])
             || SessionByHash(db, c.hashToken(TokenFromRequest(cred).value)).None?) ==> r == (db, None)
  {
    match TokenFromRequest(cred)
    case None => (db, None)
    case Some(t) =>
      if t == [] then (db, None)
      else match SessionByHash(db, c.hashToken(t))
        case None => (db, None)
        case Some(i) =>
          var s := db.sessions[i];
          if s.expiresAt < now then
            (db.(sessions := DeleteSessionById(db.sessions, s.id)), None)
          else
            (db, Some(ToAuthUser(db.users[UserIndex(db.users, s.userId).value])))
  }

  /** POST /api/auth/signup. */
  function Signup(db: Database, c: Crypto, name: Option<string>, email: Option<string>,
                  password: Option<string>, now: int, token: string): (r: (Database, Response))
    ensures r.1.status != 200 ==> r.0 == db
    ensures r.1.status == 200 <==>
      NormalizeEmail(email) != [] && password.GetOr([]) != [] && UserByEmail(db.users, NormalizeEmail(email)).None?
  {
    var e := NormalizeEmail(email);
    var p := password.GetOr([]);
    if e == [] || p == [] then (db, Response(400, Failure("email_and_password_required")))
    else if UserByEmail(db.users, e).Some? then (db, Response(409, Failure("email_in_use")))
    else
      var uid := db.nextUserId;
      var n := TrimmedName(name);
      var db1 := db.(users := db.users + [User(uid, n, e, c.hashPassword(p), now)], nextUserId := uid + 1);
      var db2 := LinkDefaultRole(db1, uid);
      (IssueSession(db2, c, uid, token, now), Response(200, SignedIn(AuthUser(uid, e, n), token)))
  }

  /** `INSERT OR IGNORE INTO user_roles` of the "Administrador" role, if that
      role exists. */
  function LinkDefaultRole(db: Database, userId: nat): (r: Database)
    ensures r == db.(userRoles := r.userRoles)
    ensures db.userRoles <= r.userRoles
    ensures r.userRoles - db.userRoles <= set ro | ro in db.roles && ro.name == DefaultRoleName :: UserRole(userId, ro.id)
  {
    match FindIndex(db.roles, (ro: Role) => ro.name == DefaultRoleName)
    case None => db
    case Some(i) => db.(userRoles := db.userRoles + {UserRole(userId, db.roles[i].id)})
  }

  /** The `single_session` preference; no preference row means off. */
  predicate SingleSessionOn(db: Database, userId: nat)
  {
    userId in db.singleSession && db.singleSession[userId]
  }

  /** The password matches the stored hash of the user with this email
      (`bcrypt.compareSync`, with the hash as a parameter). */
  predicate PasswordMatches(db: Database, c: Crypto, email: string, password: string)
  {
    UserByEmail(db.users, email).Some? && c.hashPassword(password) == db.users[UserByEmail(db.users, email).value].passwordHash
  }

  /** POST /api/auth/login. */
  function Login(db: Database, c: Crypto, email: Option<string>, password: Option<string>,
                 now: int, token: string): (r: (Database, Response))
    ensures r.1.status != 200 && r.1.status != 409 ==> r.0 == db
    ensures NormalizeEmail(email) == [] || password.GetOr([]) == [] ==>
      r == (db, Response(400, Failure("email_and_password_required")))
    ensures NormalizeEmail(email) != [] && password.GetOr([]) != []
            && !PasswordMatches(db, c, NormalizeEmail(email), password.GetOr([])) ==>
      r == (db, Response(401, Failure("invalid_credentials")))
    ensures r.1.status == 200 || r.1.status == 409 ==> PasswordMatches(db, c, NormalizeEmail(email), password.GetOr([]))
  {
    var e := NormalizeEmail(email);
    var p := password.GetOr([]);
    if e == [] || p == [] then (db, Response(400, Failure("email_and_password_required")))
    else match UserByEmail(db.users, e)
      case None => (db, Response(401, Failure("invalid_credentials")))
      case Some(i) =>
        var u := db.users[i];
        if c.hashPassword(p) != u.passwordHash then (db, Response(401, Failure("invalid_credentials")))
        else if SingleSessionOn(db, u.id) && HasSession(db.sessions, u.id) then
          (ClearUserSessions(db, u.id), Response(409, Failure("session_conflict")))
        else (IssueSession(db, c, u.id, token, now), Response(200, SignedIn(ToAuthUser(u), token)))
  }

  /** POST /api/auth/logout: the rows of the presented token go; the answer is
      always ok. */
  function Logout(db: Database, c: Crypto, cred: Credential): (r: (Database, Response))
    ensures r.1 == Response(200, Ok)
    ensures r.0 == db.(sessions := r.0.sessions)
  {
    match TokenFromRequest(cred)
    case Some(t) =>
      if t == [] then (db, Response(200, Ok))
      else (db.(sessions := DeleteSessionsByHash(db.sessions, c.hashToken(t))), Response(200, Ok))
    case None => (db, Response(200, Ok))
  }

  /** GET /api/auth/me. */
  function Me(db: Database, c: Crypto, cred: Credential, now: int): (r: (Database, Response))
    ensures r.1.status == 200 || r.1 == Unauthorized
    ensures r.0 == Authenticate(db, c, cred, now).0
    ensures r.1.status == 200 <==> Authenticate(db, c, cred, now).1.Some?
    ensures r.1.status == 200 ==> r.1.body == Profile(Authenticate(db, c, cred, now).1.value)
  {
    var (db1, who) := Authenticate(db, c, cred, now);
    if who.None? then (db1, Unauthorized) else (db1, Response(200, Profile(who.value)))
  }

  /** The `UPDATE users SET name = ?, email = ? WHERE id = ?` of the profile
      handlers. */
  function SetNameAndEmail(users: seq<User>, id: nat, name: Option<string>, email: string): (r: seq<User>)
    ensures |r| == |users|
    ensures forall i :: 0 <= i < |users| && users[i].id == id ==> r[i] == users[i].(name := name, email := email)
    ensures forall i :: 0 <= i < |users| && users[i].id != id ==> r[i] == users[i]
  {
    Map(users, (u: User) => if u.id == id then u.(name := name, email := email) else u)
  }

  /** `me` is the reported form of a row of `db.users`. */
  predicate IsUser(db: Database, me: AuthUser)
  {
    UserIndex(db.users, me.id).Some? && me == ToAuthUser(db.users[UserIndex(db.users, me.id).value])
  }

  /** The `COALESCE(?, email)` of PATCH /api/auth/me: the normalised field,
      or the current address when the field normalises to "". */
  function KeptEmail(email: Option<string>, current: string): (r: string)
    ensures NormalizeEmail(email) == [] ==> r == current
    ensures NormalizeEmail(email) != [] ==> r == NormalizeEmail(email)
  {
    var e := NormalizeEmail(email);
    if e != [] then e else current
  }

  /** PATCH /api/auth/me. */
  function PatchMe(db: Database, c: Crypto, cred: Credential, now: int,
                   name: Option<string>, email: Option<string>): (r: (Database, Response))
    ensures r.1.status != 200 ==> r.0 == Authenticate(db, c, cred, now).0
    ensures Authenticate(db, c, cred, now).1.None? ==> r == (Authenticate(db, c, cred, now).0, Unauthorized)
    ensures r.1.status == 200 ==>
      var me := Authenticate(db, c, cred, now).1;
      me.Some? && r.0 == db.(users := SetNameAndEmail(db.users, me.value.id, TrimmedName(name), KeptEmail(email, me.value.email)))
  {
    var (db1, who) := Authenticate(db, c, cred, now);
    if who.None? then (db1, Unauthorized) else UpdateMe(db1, who.value, name, email)
  }

  /** The body of PATCH /api/auth/me for the signed-in user `me`: the name is
      replaced by the trimmed field (cleared when it is not a string), the
      email only when the field normalises to a non-empty address that no
      other user has. */
  function UpdateMe(db: Database, me: AuthUser, name: Option<string>, email: Option<string>): (r: (Database, Response))
    ensures r.1.status == 200 || r.1.status == 409
    ensures r.1.status == 409 <==> NormalizeEmail(email) != [] && EmailTakenByOther(db.users, NormalizeEmail(email), me.id)
    ensures r.1.status == 409 ==> r.0 == db
    ensures r.0 == db.(users := r.0.users)
    ensures r.1.status == 200 ==>
      r.0.users == SetNameAndEmail(db.users, me.id, TrimmedName(name), KeptEmail(email, me.email))
      && r.1.body == Profile(AuthUser(me.id, KeptEmail(email, me.email), TrimmedName(name)))
  {
    var e := NormalizeEmail(email);
    if e != [] && EmailTakenByOther(db.users, e, me.id) then (db, Response(409, Failure("email_in_use")))
    else
      var newEmail := KeptEmail(email, me.email);
      var n := TrimmedName(name);
      (db.(users := SetNameAndEmail(db.users, me.id, n, newEmail)), Response(200, Profile(AuthUser(me.id, newEmail, n))))
  }

  /** PUT /api/profile, restricted to the `users` row and the
      `single_session` preference. */
  function PutProfile(db: Database, c: Crypto, cred: Credential, now: int,
                      name: Option<string>, email: Option<string>, singleSession: bool): (r: (Database, Response))
    ensures r.1.status != 200 ==> r.0 == Authenticate(db, c, cred, now).0
    ensures Authenticate(db, c, cred, now).1.None? ==> r == (Authenticate(db, c, cred, now).0, Unauthorized)
    ensures r.1.status == 200 ==>
      var me := Authenticate(db, c, cred, now).1;
      me.Some? && r.0 == db.(users := SetNameAndEmail(db.users, me.value.id, TrimmedName(name), NormalizeEmail(email)),
                             singleSession := db.singleSession[me.value.id := singleSession])
  {
    var (db1, who) := Authenticate(db, c, cred, now);
    if who.None? then (db1, Unauthorized) else UpdateProfile(db1, who.value, name, email, singleSession)
  }

  /** The body of PUT /api/profile for the signed-in user `me`: the email is
      required and must not belong to another user. */
  function UpdateProfile(db: Database, me: AuthUser, name: Option<string>, email: Option<string>,
                         singleSession: bool): (r: (Database, Response))
    ensures r.1.status != 200 ==> r.0 == db
    ensures r.1.status == 200 <==> NormalizeEmail(email) != [] && !EmailTakenByOther(db.users, NormalizeEmail(email), me.id)
    ensures r.0 == db.(users := r.0.users, singleSession := r.0.singleSession)
    ensures NormalizeEmail(email) == [] ==> r.1 == Response(400, Failure("email_required"))
    ensures r.1.status == 200 ==>
      r.0.users == SetNameAndEmail(db.users, me.id, TrimmedName(name), NormalizeEmail(email))
      && r.0.singleSession == db.singleSession[me.id := singleSession]
      && r.1.body == Profile(AuthUser(me.id, NormalizeEmail(email), TrimmedName(name)))
  {
    var e := NormalizeEmail(email);
    if e == [] then (db, Response(400, Failure("email_required")))
    else if EmailTakenByOther(db.users, e, me.id) then (db, Response(409, Failure("email_in_use")))
    else
      var n := TrimmedName(name);
      (db.(users := SetNameAndEmail(db.users, me.id, n, e), singleSession := db.singleSession[me.id := singleSession]),
       Response(200, Profile(AuthUser(me.id, e, n))))
  }

  /** POST /api/auth/forgot-password. */
  function ForgotPassword(db: Database, c: Crypto, email: Option<string>, now: int, token: string): (r: (Database, Response))
    ensures r.1.status == 200
    ensures r.1.body.ResetIssued? <==> UserByEmail(db.users, NormalizeEmail(email)).Some?
    ensures !r.1.body.ResetIssued? ==> r.0 == db && r.1.body == Ok
  {
    match UserByEmail(db.users, NormalizeEmail(email))
    case None => (db, Response(200, Ok))
    case Some(i) =>
      var ticket := Reset(db.nextResetId, db.users[i].id, c.hashToken(token), now + ResetLifetimeMs, None);
      (db.(resets := db.resets + [ticket], nextResetId := db.nextResetId + 1), Response(200, ResetIssued(token)))
  }

  function ResetByHash(resets: seq<Reset>, hash: string): (r: Option<nat>)
    ensures r.Some? ==> r.value < |resets| && resets[r.value].tokenHash == hash
    ensures r.Some? ==> forall j :: 0 <= j < r.value ==> resets[j].tokenHash != hash
    ensures r.None? ==> forall i :: 0 <= i < |resets| ==> resets[i].tokenHash != hash
  {
    FindIndex(resets, (x: Reset) => x.tokenHash == hash)
  }

  /** A ticket can be redeemed when it was never used and has not expired. */
  predicate Redeemable(t: Reset, now: int)
  {
    t.usedAt.None? && !(t.expiresAt < now)
  }

  function SetPasswordHash(users: seq<User>, id: nat, hash: string): (r: seq<User>)
    ensures |r| == |users|
    ensures forall i :: 0 <= i < |users| && users[i].id == id ==> r[i] == users[i].(passwordHash := hash)
    ensures forall i :: 0 <= i < |users| && users[i].id != id ==> r[i] == users[i]
  {
    Map(users, (u: User) => if u.id == id then u.(passwordHash := hash) else u)
  }

  function MarkUsed(resets: seq<Reset>, id: nat, now: int): (r: seq<Reset>)
    ensures |r| == |resets|
    ensures forall i :: 0 <= i < |resets| && resets[i].id == id ==> r[i] == resets[i].(usedAt := Some(now))
    ensures forall i :: 0 <= i < |resets| && resets[i].id != id ==> r[i] == resets[i]
  {
    Map(resets, (x: Reset) => if x.id == id then x.(usedAt := Some(now)) else x)
  }

  /** POST /api/auth/reset-password. */
  function ResetPassword(db: Database, c: Crypto, token: Option<string>, password: Option<string>,
                         now: int): (r: (Database, Response))
    ensures r.1.status == 200 || r.1.status == 400
    ensures r.1.status == 400 ==> r.0 == db
  {
    var t := if token.Some? then Trim(token.value) else [];
    var p := password.GetOr([]);
    if t == [] || p == [] then (db, Response(400, Failure("token_and_password_required")))
    else match ResetByHash(db.resets, c.hashToken(t))
      case None => (db, Response(400, Failure("invalid_token")))
      case Some(i) =>
        var ticket := db.resets[i];
        if !Redeemable(ticket, now) then (db, Response(400, Failure("invalid_token")))
        else
          (db.(users := SetPasswordHash(db.users, ticket.userId, c.hashPassword(p)),
               resets := MarkUsed(db.resets, ticket.id, now),
               sessions := DeleteUserSessions(db.sessions, ticket.userId)),
           Response(200, Ok))
  }

  /** DELETE /api/access/roles/:id. */
  function DeleteRole(db: Database, c: Crypto, cred: Credential, now: int, idParam: string): (r: (Database, Response))
    ensures r.1.status != 200 ==> r.0 == Authenticate(db, c, cred, now).0
  {
    var (db1, who) := Authenticate(db, c, cred, now);
    if who.None? then (db1, Unauthorized) else RemoveRole(db1, idParam)
  }

  /** The body of DELETE /api/access/roles/:id. The path parameter goes
      through `Number`; NaN and 0 are rejected, any other number deletes the
      links to that role and the role. */
  function RemoveRole(db: Database, idParam: string): (r: (Database, Response))
    ensures r.1.status == 200 || r.1 == Response(400, Failure("invalid_request"))
    ensures r.1.status == 200 <==> ParseNumber(idParam).Some? && ParseNumber(idParam).value != 0.0
    ensures r.1.status != 200 ==> r.0 == db
    ensures r.0 == db.(roles := r.0.roles, userRoles := r.0.userRoles)
  {
    match ParseNumber(idParam)
    case None => (db, Response(400, Failure("invalid_request")))
    case Some(v) =>
      if v == 0.0 then (db, Response(400, Failure("invalid_request")))
      else
        (db.(userRoles := (set l | l in db.userRoles && l.roleId as real != v),
             roles := Filter(db.roles, (ro: Role) => ro.id as real != v)),
         Response(200, Ok))
  }

  /** The document a PUT stores: `body.data ?? body`, then `?? {}`. */
  function DocumentPayload(body: Json): (r: Json)
    ensures !r.JNull?
    ensures Member(body, "data").Some? && !Member(body, "data").value.JNull? ==> r == Member(body, "data").value
  {
    var data := Coalesce(Member(body, "data"), body);
    if data.JNull? then JObject([]) else data
  }

  /** The board a PUT stores: the payload when its `columns` member is truthy,
      else the payload wrapped as `{ columns: payload }`. */
  function BoardPayload(body: Json): (r: Json)
    ensures Member(r, "columns").Some?
  {
    var payload := Coalesce(Member(body, "data"), body);
    var columns := Member(payload, "columns");
    if columns.Some? && Truthy(columns.value) then payload
    else
      assert LastField([("columns", payload)], "columns") == Some(payload);
      JObject([("columns", payload)])
  }

  /** PUT /api/pipeline/data and PUT /api/finance/data. */
  function PutDocument(db: Database, c: Crypto, cred: Credential, now: int, kind: DocKind, body: Json): (r: (Database, Response))
    ensures r.1.status == 200 || r.1 == Unauthorized
  {
    var (db1, who) := Authenticate(db, c, cred, now);
    if who.None? then (db1, Unauthorized) else (StoreDocument(db1, UserDoc(who.value.id, kind), body), Response(200, Ok))
  }

  /** The upsert of a PUT: only the document under `key` changes. */
  function StoreDocument(db: Database, key: DocKey, body: Json): (r: Database)
    ensures key in r.documents
    ensures r == db.(documents := r.documents)
    ensures forall k :: k != key ==> (k in r.documents <==> k in db.documents)
    ensures forall k :: k != key && k in db.documents ==> r.documents[k] == db.documents[k]
  {
    var stored := if key.Board? then BoardPayload(body) else DocumentPayload(body);
    db.(documents := db.documents[key := stored])
  }

  /** The row a GET reads: the stored document, or null when there is none. */
  function ReadDocument(db: Database, key: DocKey): (r: Option<Json>)
    ensures r.Some? <==> key in db.documents
  {
    if key in db.documents then Some(db.documents[key]) else None
  }

  /** GET /api/pipeline/data and GET /api/finance/data. */
  function GetDocument(db: Database, c: Crypto, cred: Credential, now: int, kind: DocKind): (r: (Database, Response))
    ensures r.0 == Authenticate(db, c, cred, now).0
    ensures r.1.status == 200 || r.1 == Unauthorized
  {
    var (db1, who) := Authenticate(db, c, cred, now);
    if who.None? then (db1, Unauthorized)
    else (db1, Response(200, Data(ReadDocument(db1, UserDoc(who.value.id, kind)))))
  }

  /** PUT /api/pipeline/board. */
  function PutBoard(db: Database, c: Crypto, cred: Credential, now: int, body: Json): (r: (Database, Response))
    ensures r.1.status == 200 || r.1 == Unauthorized
  {
    var (db1, who) := Authenticate(db, c, cred, now);
    if who.None? then (db1, Unauthorized) else (StoreDocument(db1, Board, body), Response(200, Ok))
  }

  /** GET /api/pipeline/board. */
  function GetBoard(db: Database, c: Crypto, cred: Credential, now: int): (r: (Database, Response))
    ensures r.0 == Authenticate(db, c, cred, now).0
    ensures r.1.status == 200 || r.1 == Unauthorized
  {
    var (db1, who) := Authenticate(db, c, cred, now);
    if who.None? then (db1, Unauthorized) else (db1, Response(200, Data(ReadDocument(db1, Board))))
  }

  /** A list entry as the profile keeps it: trimmed and not empty. */
  predicate Clean(x: string)
  {
    x != [] && Trim(x) == x
  }

  lemma TrimmedIsClean(x: string)
    requires Trim(x) != []
    ensures Clean(Trim(x))
  {
    TrimIdempotent(x);
  }

  predicate IsStringItem(j: Json)
  {
    j.JString?
  }

  /** `item.trim()` on an item the first filter let through. */
  function TrimmedText(j: Json): string
  {
    if j.JString? then Trim(j.s) else []
  }

  /** `Boolean(x)` on a string. */
  predicate NonEmpty(x: string)
  {
    x != []
  }

  /** The chain of the source, step by step: keep the strings, trim each, keep
      the non-empty ones. */
  function StringChain(items: seq<Json>): seq<string>
  {
    Filter(Map(Filter(items, IsStringItem), TrimmedText), NonEmpty)
  }

  /** `normalizeStringList`: the string items of an array, trimmed, without
      the empty ones; anything but an array gives []. */
  function NormalizeStringList(v: Json): (r: seq<string>)
    ensures forall x :: x in r ==> Clean(x)
    ensures !v.JArray? ==> r == []
    ensures v.JArray? ==> r == StringChain(v.items)
  {
    if v.JArray? then StringItems(v.items) else []
  }

  /** The chain in one pass over the items. */
  function StringItems(items: seq<Json>): (r: seq<string>)
    ensures forall x :: x in r ==> Clean(x)
    ensures |r| <= |items|
    ensures r == StringChain(items)
  {
    if items == [] then []
    else
      var rest := StringItems(items[1..]);
      StringChainCons(items);
      match items[0]
      case JString(x) =>
        var t := Trim(x);
        if t == [] then rest
        else
          TrimmedIsClean(x);
          [t] + rest
      case _ => rest
  }

  /** Every string item that is not blank reaches the result, trimmed. */
  lemma {:induction false} StringItemsKeepsEvery(items: seq<Json>)
    ensures forall i :: 0 <= i < |items| && items[i].JString? && Trim(items[i].s) != [] ==> Trim(items[i].s) in StringItems(items)
  {
    if items != [] {
      StringItemsKeepsEvery(items[1..]);
      forall i | 0 <= i < |items| && items[i].JString? && Trim(items[i].s) != []
        ensures Trim(items[i].s) in StringItems(items)
      {
        if i > 0 {
          assert items[i] == items[1..][i - 1];
        }
      }
    }
  }

  /** The chain on a non-empty list: the first item's contribution, then the
      chain on the rest. */
  lemma StringChainCons(items: seq<Json>)
    requires items != []
    ensures StringChain(items) ==
      (if IsStringItem(items[0]) && TrimmedText(items[0]) != [] then [TrimmedText(items[0])] else [])
      + StringChain(items[1..])
  {
    var h, tail := items[0], items[1..];
    var strings := Filter(tail, IsStringItem);
    var texts := Map(strings, TrimmedText);
    if IsStringItem(h) {
      assert Filter(items, IsStringItem) == [h] + strings;
      var m := Map([h] + strings, TrimmedText);
      assert m == [TrimmedText(h)] + texts;
      assert m[0] == TrimmedText(h) && m[1..] == texts;
    } else {
      assert Filter(items, IsStringItem) == strings;
    }
  }

  /** `parseStringList`: an absent or empty column, text that is not JSON
      (`parse` gives None) and JSON that is not an array all give []. */
  function ParseStringList(value: Option<string>, parse: string -> Option<Json>): (r: seq<string>)
    ensures forall x :: x in r ==> Clean(x)
    ensures value.None? || value.value == [] ==> r == []
    ensures value.Some? && value.value != [] && (parse(value.value).None? || !parse(value.value).value.JArray?) ==> r == []
    ensures value.Some? && value.value != [] && parse(value.value).Some? && parse(value.value).value.JArray? ==>
      r == StringChain(parse(value.value).value.items)
  {
    if value.None? || value.value == [] then []
    else match parse(value.value)
      case None => []
      case Some(j) => NormalizeStringList(j)
  }
}
