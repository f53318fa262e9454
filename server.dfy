/** The server process: the tables are fields, and each request handler
    updates them statement by statement in the order of its SQL statements.
    Every handler is proved to leave the tables as the matching function of
    module `Auth` says, and to keep the table constraints. */
module AuthServer {
  import opened Maybe
  import opened Seqs
  import opened JsonData
  import opened Auth
  import Text
  import Numbers
  import AuthProperties

  class Server {
    var users: seq<User>
    var sessions: seq<Session>
    var resets: seq<Reset>
    var roles: seq<Role>
    var userRoles: set<UserRole>
    var singleSession: map<nat, bool>
    var documents: map<DocKey, Json>
    var nextUserId: nat
    var nextSessionId: nat
    var nextResetId: nat
    const crypto: Crypto

    /** The tables as one value. */
    function Snapshot(): Database
      reads this
    {
      Database(users, sessions, resets, roles, userRoles, singleSession, documents, nextUserId, nextSessionId, nextResetId)
    }

    predicate Valid()
      reads this
    {
      Auth.Valid(Snapshot())
    }

    /** Start-up on an empty database file: the tables are created and the
        four roles seeded. */
    constructor (c: Crypto)
      ensures Snapshot() == Initial() && crypto == c
      ensures Valid()
    {
      users, sessions, resets := [], [], [];
      roles := SeedRoles;
      userRoles := {};
      singleSession, documents := map[], map[];
      nextUserId, nextSessionId, nextResetId := 1, 1, 1;
      crypto := c;
    }

    /** `issueSession`. */
    method IssueSession(userId: nat, token: string, now: int)
      modifies this
      ensures Snapshot() == Auth.IssueSession(old(Snapshot()), crypto, userId, token, now)
    {
      sessions := sessions + [Session(nextSessionId, userId, crypto.hashToken(token), now, now + SessionLifetimeMs)];
      nextSessionId := nextSessionId + 1;
    }

    /** `getUserFromRequest`: the session lookup, deleting an expired row. */
    method CurrentUser(cred: Credential, now: int) returns (who: Option<AuthUser>)
      modifies this
      ensures (Snapshot(), who) == Authenticate(old(Snapshot()), crypto, cred, now)
    {
      var token := TokenFromRequest(cred);
      if token.None? || token.value == [] {
        return None;
      }
      var hash := crypto.hashToken(token.value);
      var us := users;
      var i := FirstWhere(sessions, (s: Session) => s.tokenHash == hash && UserIndex(us, s.userId).Some?);
      if i.None? {
        return None;
      }
      var s := sessions[i.value];
      if s.expiresAt < now {
        var id := s.id;
        sessions := KeepWhere(sessions, (s: Session) => s.id != id);
        return None;
      }
      var k := FirstWhere(users, (u: User) => u.id == s.userId);
      who := Some(ToAuthUser(users[k.value]));
    }

    /** `clearUserSessions`: `DELETE FROM sessions WHERE user_id = ?`. */
    method ClearUserSessions(userId: nat)
      modifies this
      ensures Snapshot() == Auth.ClearUserSessions(old(Snapshot()), userId)
    {
      sessions := KeepWhere(sessions, (s: Session) => s.userId != userId);
    }

    /** `hasActiveSession`: some session row of the user, expired or not. */
    method HasActiveSession(userId: nat) returns (b: bool)
      ensures b == HasSession(sessions, userId)
    {
      var i := FirstWhere(sessions, (s: Session) => s.userId == userId);
      b := i.Some?;
    }

    /** `SELECT id FROM users WHERE email = ?`. */
    method FindUserByEmail(email: string) returns (i: Option<nat>)
      ensures i == UserByEmail(users, email)
    {
      i := FirstWhere(users, (u: User) => u.email == email);
    }

    /** `SELECT id FROM users WHERE email = ? AND id != ?`. */
    method EmailTaken(email: string, id: nat) returns (b: bool)
      ensures b == EmailTakenByOther(users, email, id)
    {
      var i := FirstWhere(users, (u: User) => u.email == email && u.id != id);
      b := i.Some?;
    }

    /** POST /api/auth/signup. */
    method Signup(name: Option<string>, email: Option<string>, password: Option<string>, now: int, token: string)
      returns (res: Response)
      requires Valid()
      modifies this
      ensures (Snapshot(), res) == Auth.Signup(old(Snapshot()), crypto, name, email, password, now, token)
      ensures Valid()
    {
      ghost var db0 := Snapshot();
      var e := NormalizeEmail(email);
      var p := password.GetOr([]);
      if e == [] || p == [] {
        return Response(400, Failure("email_and_password_required"));
      }
      var existing := FindUserByEmail(e);
      if existing.Some? {
        return Response(409, Failure("email_in_use"));
      }
      var n := TrimmedName(name);
      var userId := nextUserId;
      InsertUser(n, e, crypto.hashPassword(p), now);
      LinkDefaultRole(userId);
      IssueSession(userId, token, now);
      res := Response(200, SignedIn(AuthUser(userId, e, n), token));
      AuthProperties.SignupSteps(db0, crypto, name, email, password, now, token);
      AuthProperties.SignupValid(db0, crypto, name, email, password, now, token);
    }

    /** POST /api/auth/login. */
    method Login(email: Option<string>, password: Option<string>, now: int, token: string) returns (res: Response)
      requires Valid()
      modifies this
      ensures (Snapshot(), res) == Auth.Login(old(Snapshot()), crypto, email, password, now, token)
      ensures Valid()
    {
      ghost var db0 := Snapshot();
      var e := NormalizeEmail(email);
      var p := password.GetOr([]);
      if e == [] || p == [] {
        return Response(400, Failure("email_and_password_required"));
      }
      var found := FindUserByEmail(e);
      if found.None? || crypto.hashPassword(p) != users[found.value].passwordHash {
        return Response(401, Failure("invalid_credentials"));
      }
      var u := users[found.value];
      var active := HasActiveSession(u.id);
      if SingleSessionOn(Snapshot(), u.id) && active {
        ClearUserSessions(u.id);
        AuthProperties.LoginValid(db0, crypto, email, password, now, token);
        return Response(409, Failure("session_conflict"));
      }
      IssueSession(u.id, token, now);
      res := Response(200, SignedIn(ToAuthUser(u), token));
      AuthProperties.LoginValid(db0, crypto, email, password, now, token);
    }

    /** POST /api/auth/logout. */
    method Logout(cred: Credential) returns (res: Response)
      requires Valid()
      modifies this
      ensures (Snapshot(), res) == Auth.Logout(old(Snapshot()), crypto, cred)
      ensures Valid()
    {
      AuthProperties.LogoutValid(Snapshot(), crypto, cred);
      var token := TokenFromRequest(cred);
      if token.Some? && token.value != [] {
        var hash := crypto.hashToken(token.value);
        sessions := KeepWhere(sessions, (s: Session) => s.tokenHash != hash);
      }
      res := Response(200, Ok);
    }

    /** GET /api/auth/me. */
    method Me(cred: Credential, now: int) returns (res: Response)
      requires Valid()
      modifies this
      ensures (Snapshot(), res) == Auth.Me(old(Snapshot()), crypto, cred, now)
      ensures Valid()
    {
      AuthProperties.AuthenticateValid(Snapshot(), crypto, cred, now);
      var who := CurrentUser(cred, now);
      if who.None? {
        return Unauthorized;
      }
      res := Response(200, Profile(who.value));
    }

    /** PATCH /api/auth/me. */
    method PatchMe(cred: Credential, now: int, name: Option<string>, email: Option<string>) returns (res: Response)
      requires Valid()
      modifies this
      ensures (Snapshot(), res) == Auth.PatchMe(old(Snapshot()), crypto, cred, now, name, email)
      ensures Valid()
    {
      ghost var db0 := Snapshot();
      var who := CurrentUser(cred, now);
      AuthProperties.AuthenticateValid(db0, crypto, cred, now);
      if who.None? {
        return Unauthorized;
      }
      var me := who.value;
      AuthProperties.UpdateMeValid(Snapshot(), me, name, email);
      var n := TrimmedName(name);
      var e := NormalizeEmail(email);
      if e != [] {
        var taken := EmailTaken(e, me.id);
        if taken {
          return Response(409, Failure("email_in_use"));
        }
      }
      var newEmail := if e != [] then e else me.email;
      SetNameAndEmailOf(me.id, n, newEmail);
      res := Response(200, Profile(AuthUser(me.id, newEmail, n)));
    }

    /** PUT /api/profile: the `users` row and the `single_session`
        preference. */
    method PutProfile(cred: Credential, now: int, name: Option<string>, email: Option<string>, single: bool)
      returns (res: Response)
      requires Valid()
      modifies this
      ensures (Snapshot(), res) == Auth.PutProfile(old(Snapshot()), crypto, cred, now, name, email, single)
      ensures Valid()
    {
      ghost var db0 := Snapshot();
      var who := CurrentUser(cred, now);
      AuthProperties.AuthenticateValid(db0, crypto, cred, now);
      if who.None? {
        return Unauthorized;
      }
      var me := who.value;
      AuthProperties.UpdateProfileValid(Snapshot(), me, name, email, single);
      var n := TrimmedName(name);
      var e := NormalizeEmail(email);
      if e == [] {
        return Response(400, Failure("email_required"));
      }
      var taken := EmailTaken(e, me.id);
      if taken {
        return Response(409, Failure("email_in_use"));
      }
      SetNameAndEmailOf(me.id, n, e);
      SetSingleSession(me.id, single);
      res := Response(200, Profile(AuthUser(me.id, e, n)));
    }

    /** POST /api/auth/forgot-password. */
    method ForgotPassword(email: Option<string>, now: int, token: string) returns (res: Response)
      requires Valid()
      modifies this
      ensures (Snapshot(), res) == Auth.ForgotPassword(old(Snapshot()), crypto, email, now, token)
      ensures Valid()
    {
      ghost var db0 := Snapshot();
      var found := FindUserByEmail(NormalizeEmail(email));
      if found.None? {
        return Response(200, Ok);
      }
      InsertTicket(users[found.value].id, token, now);
      res := Response(200, ResetIssued(token));
      AuthProperties.ForgotValid(db0, crypto, email, now, token);
    }

    /** POST /api/auth/reset-password. */
    method ResetPassword(token: Option<string>, password: Option<string>, now: int) returns (res: Response)
      requires Valid()
      modifies this
      ensures (Snapshot(), res) == Auth.ResetPassword(old(Snapshot()), crypto, token, password, now)
      ensures Valid()
    {
      ghost var db0 := Snapshot();
      var t := if token.Some? then Text.Trim(token.value) else [];
      var p := password.GetOr([]);
      if t == [] || p == [] {
        return Response(400, Failure("token_and_password_required"));
      }
      var hash := crypto.hashToken(t);
      var found := FirstWhere(resets, (x: Reset) => x.tokenHash == hash);
      if found.None? || !Redeemable(resets[found.value], now) {
        return Response(400, Failure("invalid_token"));
      }
      var ticket := resets[found.value];
      SetPassword(ticket.userId, crypto.hashPassword(p));
      MarkTicketUsed(ticket.id, now);
      ClearUserSessions(ticket.userId);
      res := Response(200, Ok);
      AuthProperties.ResetValid(db0, crypto, token, password, now);
    }

    /** `INSERT INTO users (name, email, password_hash, created_at)`. */
    method InsertUser(name: Option<string>, email: string, passwordHash: string, now: int)
      modifies this
      ensures Snapshot() == old(Snapshot()).(users := old(users) + [User(old(nextUserId), name, email, passwordHash, now)],
                                             nextUserId := old(nextUserId) + 1)
    {
      users := users + [User(nextUserId, name, email, passwordHash, now)];
      nextUserId := nextUserId + 1;
    }

    /** `INSERT INTO password_resets (user_id, token_hash, expires_at)`: the
        ticket stores the hash of the token and expires in thirty minutes. */
    method InsertTicket(userId: nat, token: string, now: int)
      modifies this
      ensures Snapshot() == old(Snapshot()).(resets := old(resets) + [Reset(old(nextResetId), userId, crypto.hashToken(token), now + ResetLifetimeMs, None)],
                                             nextResetId := old(nextResetId) + 1)
    {
      resets := resets + [Reset(nextResetId, userId, crypto.hashToken(token), now + ResetLifetimeMs, None)];
      nextResetId := nextResetId + 1;
    }

    /** The `single_session` column of the `user_preferences` upsert. */
    method SetSingleSession(userId: nat, single: bool)
      modifies this
      ensures Snapshot() == old(Snapshot()).(singleSession := old(singleSession)[userId := single])
    {
      singleSession := singleSession[userId := single];
    }

    /** The `INSERT ... ON CONFLICT DO UPDATE` of a stored document. */
    method Store(key: DocKey, body: Json)
      modifies this
      ensures Snapshot() == StoreDocument(old(Snapshot()), key, body)
    {
      documents := documents[key := if key.Board? then BoardPayload(body) else DocumentPayload(body)];
    }

    /** The default-role lookup and `INSERT OR IGNORE INTO user_roles` of
        the signup. */
    method LinkDefaultRole(userId: nat)
      modifies this
      ensures Snapshot() == Auth.LinkDefaultRole(old(Snapshot()), userId)
    {
      var defaultRole := FirstWhere(roles, (ro: Role) => ro.name == DefaultRoleName);
      if defaultRole.Some? {
        userRoles := userRoles + {UserRole(userId, roles[defaultRole.value].id)};
      }
    }

    /** `UPDATE users SET name = ?, email = ? WHERE id = ?`. */
    method SetNameAndEmailOf(id: nat, name: Option<string>, email: string)
      modifies this
      ensures Snapshot() == old(Snapshot()).(users := SetNameAndEmail(old(users), id, name, email))
    {
      users := MapEach(users, (u: User) => if u.id == id then u.(name := name, email := email) else u);
    }

    /** `DELETE FROM user_roles WHERE role_id = ?` and then
        `DELETE FROM roles WHERE id = ?`, for the id as `Number` read it. */
    method DeleteRoleRows(v: real)
      modifies this
      ensures Snapshot() == old(Snapshot()).(userRoles := (set l | l in old(userRoles) && l.roleId as real != v),
                                             roles := Filter(old(roles), (ro: Role) => ro.id as real != v))
    {
      userRoles := set l | l in userRoles && l.roleId as real != v;
      roles := KeepWhere(roles, (ro: Role) => ro.id as real != v);
    }

    /** `UPDATE users SET password_hash = ? WHERE id = ?`. */
    method SetPassword(userId: nat, hash: string)
      modifies this
      ensures Snapshot() == old(Snapshot()).(users := SetPasswordHash(old(users), userId, hash))
    {
      users := MapEach(users, (u: User) => if u.id == userId then u.(passwordHash := hash) else u);
    }

    /** `UPDATE password_resets SET used_at = ? WHERE id = ?`. */
    method MarkTicketUsed(id: nat, now: int)
      modifies this
      ensures Snapshot() == old(Snapshot()).(resets := MarkUsed(old(resets), id, now))
    {
      resets := MapEach(resets, (x: Reset) => if x.id == id then x.(usedAt := Some(now)) else x);
    }

    /** DELETE /api/access/roles/:id. */
    method DeleteRole(cred: Credential, now: int, idParam: string) returns (res: Response)
      requires Valid()
      modifies this
      ensures (Snapshot(), res) == Auth.DeleteRole(old(Snapshot()), crypto, cred, now, idParam)
      ensures Valid()
    {
      ghost var db0 := Snapshot();
      var who := CurrentUser(cred, now);
      AuthProperties.AuthenticateValid(db0, crypto, cred, now);
      if who.None? {
        return Unauthorized;
      }
      AuthProperties.RemoveRoleValid(Snapshot(), idParam);
      var id := Numbers.ParseNumber(idParam);
      if id.None? || id.value == 0.0 {
        return Response(400, Failure("invalid_request"));
      }
      DeleteRoleRows(id.value);
      res := Response(200, Ok);
    }

    /** PUT /api/pipeline/data and PUT /api/finance/data. */
    method PutDocument(cred: Credential, now: int, kind: DocKind, body: Json) returns (res: Response)
      requires Valid()
      modifies this
      ensures (Snapshot(), res) == Auth.PutDocument(old(Snapshot()), crypto, cred, now, kind, body)
      ensures Valid()
    {
      ghost var db0 := Snapshot();
      var who := CurrentUser(cred, now);
      AuthProperties.AuthenticateValid(db0, crypto, cred, now);
      if who.None? {
        return Unauthorized;
      }
      AuthProperties.StoreDocumentValid(Snapshot(), UserDoc(who.value.id, kind), body);
      Store(UserDoc(who.value.id, kind), body);
      res := Response(200, Ok);
    }

    /** GET /api/pipeline/data and GET /api/finance/data. */
    method GetDocument(cred: Credential, now: int, kind: DocKind) returns (res: Response)
      requires Valid()
      modifies this
      ensures (Snapshot(), res) == Auth.GetDocument(old(Snapshot()), crypto, cred, now, kind)
      ensures Valid()
    {
      AuthProperties.AuthenticateValid(Snapshot(), crypto, cred, now);
      var who := CurrentUser(cred, now);
      if who.None? {
        return Unauthorized;
      }
      var key := UserDoc(who.value.id, kind);
      res := Response(200, Data(if key in documents then Some(documents[key]) else None));
    }

    /** PUT /api/pipeline/board. */
    method PutBoard(cred: Credential, now: int, body: Json) returns (res: Response)
      requires Valid()
      modifies this
      ensures (Snapshot(), res) == Auth.PutBoard(old(Snapshot()), crypto, cred, now, body)
      ensures Valid()
    {
      ghost var db0 := Snapshot();
      var who := CurrentUser(cred, now);
      AuthProperties.AuthenticateValid(db0, crypto, cred, now);
      if who.None? {
        return Unauthorized;
      }
      AuthProperties.StoreDocumentValid(Snapshot(), Board, body);
      Store(Board, body);
      res := Response(200, Ok);
    }

    /** GET /api/pipeline/board. */
    method GetBoard(cred: Credential, now: int) returns (res: Response)
      requires Valid()
      modifies this
      ensures (Snapshot(), res) == Auth.GetBoard(old(Snapshot()), crypto, cred, now)
      ensures Valid()
    {
      AuthProperties.AuthenticateValid(Snapshot(), crypto, cred, now);
      var who := CurrentUser(cred, now);
      if who.None? {
        return Unauthorized;
      }
      res := Response(200, Data(if Board in documents then Some(documents[Board]) else None));
    }
  }
}
