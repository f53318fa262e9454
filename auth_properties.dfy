/** What the authentication handlers promise across requests: which token a
    request presents, how a session lives and dies, what signup, login,
    logout and the reset tickets guarantee, and that every handler keeps the
    table constraints. */
module AuthProperties {
  import opened Maybe
  import opened Text
  import opened Numbers
  import opened Seqs
  import opened JsonData
  import opened Auth

  // ---------------------------------------------------------------------------
  // The presented token

  /** A header "Bearer <t>" presents `t` (trimmed), whatever the cookie says;
      an already trimmed `t` comes back unchanged. */
  lemma BearerHeaderWins(t: string, cookie: Option<string>)
    ensures TokenFromRequest(Credential(Some(BearerPrefix + t), cookie)) == Some(Trim(t))
    ensures Trim(t) == t ==> TokenFromRequest(Credential(Some(BearerPrefix + t), cookie)) == Some(t)
  {
    assert (BearerPrefix + t)[..|BearerPrefix|] == BearerPrefix;
    assert (BearerPrefix + t)[|BearerPrefix|..] == t;
  }

  /** The scheme is matched case-sensitively: "bearer <t>" is no bearer
      credential, so the cookie (here absent) decides. */
  lemma LowerCaseSchemeIgnored(t: string, cookie: Option<string>)
    ensures TokenFromRequest(Credential(Some("bearer " + t), cookie))
         == (if cookie.Some? && cookie.value != [] then cookie else None)
  {
    assert ("bearer " + t)[0] == 'b';
  }

  /** Without a header the cookie is the token, and without either there is
      none. */
  lemma CookieWithoutHeader(cookie: Option<string>)
    ensures TokenFromRequest(Credential(None, cookie)) == (if cookie.Some? && cookie.value != [] then cookie else None)
    ensures TokenFromRequest(Credential(None, None)) == None
  {
  }

  // ---------------------------------------------------------------------------
  // Sessions

  /** No session row carries this hash. */
  predicate FreshSessionHash(db: Database, hash: string)
  {
    forall i :: 0 <= i < |db.sessions| ==> db.sessions[i].tokenHash != hash
  }

  /** A freshly issued token identifies its user for seven days (inclusive),
      and the lookup changes nothing. */
  lemma IssuedTokenAuthenticates(db: Database, c: Crypto, userId: nat, token: string, now: int, later: int)
    requires UserIndex(db.users, userId).Some?
    requires token != [] && Trim(token) == token
    requires FreshSessionHash(db, c.hashToken(token))
    requires later <= now + SessionLifetimeMs
    ensures Authenticate(IssueSession(db, c, userId, token, now), c, Credential(Some(BearerPrefix + token), None), later)
         == (IssueSession(db, c, userId, token, now), Some(ToAuthUser(db.users[UserIndex(db.users, userId).value])))
  {
    var db1 := IssueSession(db, c, userId, token, now);
    BearerHeaderWins(token, None);
    var k := SessionByHash(db1, c.hashToken(token));
    assert db1.sessions[|db.sessions|].tokenHash == c.hashToken(token);
    assert k == Some(|db.sessions|);
  }

  /** The lookup of a request whose token finds session row `i`. */
  lemma AuthenticateFound(db: Database, c: Crypto, cred: Credential, now: int, t: string, i: nat)
    requires TokenFromRequest(cred) == Some(t) && t != []
    requires SessionByHash(db, c.hashToken(t)) == Some(i)
    ensures db.sessions[i].expiresAt < now ==>
      Authenticate(db, c, cred, now) == (db.(sessions := DeleteSessionById(db.sessions, db.sessions[i].id)), None)
    ensures !(db.sessions[i].expiresAt < now) ==>
      Authenticate(db, c, cred, now) == (db, Some(ToAuthUser(db.users[UserIndex(db.users, db.sessions[i].userId).value])))
  {
  }

  /** Deleting by an id no earlier row has removes just the appended row. */
  lemma DeleteAppendedSession(sessions: seq<Session>, s: Session)
    requires forall i :: 0 <= i < |sessions| ==> sessions[i].id < s.id
    ensures DeleteSessionById(sessions + [s], s.id) == sessions
  {
    var p := (x: Session) => x.id != s.id;
    FilterAppend(sessions, [s], p);
    FilterKeepsAll(sessions, p);
    assert [s][1..] == [];
  }

  /** Once a session's seven days have passed, presenting its token deletes
      the row, so the table is as it was before the session was issued. */
  lemma ExpiredSessionDeleted(db: Database, c: Crypto, userId: nat, token: string, now: int, later: int)
    requires Valid(db)
    requires UserIndex(db.users, userId).Some?
    requires token != [] && Trim(token) == token
    requires FreshSessionHash(db, c.hashToken(token))
    requires later > now + SessionLifetimeMs
    ensures Authenticate(IssueSession(db, c, userId, token, now), c, Credential(Some(BearerPrefix + token), None), later)
         == (db.(nextSessionId := db.nextSessionId + 1), None)
  {
    var db1 := IssueSession(db, c, userId, token, now);
    var cred := Credential(Some(BearerPrefix + token), None);
    BearerHeaderWins(token, None);
    var n := |db.sessions|;
    assert db1.sessions[n].tokenHash == c.hashToken(token);
    assert SessionByHash(db1, c.hashToken(token)) == Some(n);
    AuthenticateFound(db1, c, cred, later, token, n);
    DeleteAppendedSession(db.sessions, db1.sessions[n]);
  }

  /** Looking up a request keeps the table constraints. */
  lemma AuthenticateValid(db: Database, c: Crypto, cred: Credential, now: int)
    requires Valid(db)
    ensures Valid(Authenticate(db, c, cred, now).0)
  {
  }

  // ---------------------------------------------------------------------------
  // Signup and login

  /** A successful signup adds exactly the new user, with the normalised
      email and the password's hash, links at most the default role, and
      issues one session for that user; nothing else changes. */
  lemma SignupCreatesAccount(db: Database, c: Crypto, name: Option<string>, email: Option<string>,
                             password: Option<string>, now: int, token: string)
    requires Signup(db, c, name, email, password, now, token).1.status == 200
    ensures var db1 := Signup(db, c, name, email, password, now, token).0;
      && db1.users == db.users + [User(db.nextUserId, TrimmedName(name), NormalizeEmail(email), c.hashPassword(password.value), now)]
      && db1.sessions == db.sessions + [Session(db.nextSessionId, db.nextUserId, c.hashToken(token), now, now + SessionLifetimeMs)]
      && db.userRoles <= db1.userRoles
      && (forall l :: l in db1.userRoles - db.userRoles ==> l.userId == db.nextUserId)
      && db1 == db.(users := db1.users, sessions := db1.sessions, userRoles := db1.userRoles,
                    nextUserId := db.nextUserId + 1, nextSessionId := db.nextSessionId + 1)
  {
  }

  /** Emails are compared after trimming and lower-casing: a second signup
      whose email normalises to an existing one is refused with 409 and
      changes nothing. */
  lemma SignupDuplicateEmailRefused(db: Database, c: Crypto, name: Option<string>, email: Option<string>,
                                    password: Option<string>, now: int, token: string,
                                    name2: Option<string>, email2: Option<string>,
                                    password2: Option<string>, now2: int, token2: string)
    requires Signup(db, c, name, email, password, now, token).1.status == 200
    requires NormalizeEmail(email2) == NormalizeEmail(email)
    requires password2.GetOr([]) != []
    ensures var db1 := Signup(db, c, name, email, password, now, token).0;
      Signup(db1, c, name2, email2, password2, now2, token2) == (db1, Response(409, Failure("email_in_use")))
  {
    SignupCreatesAccount(db, c, name, email, password, now, token);
    var db1 := Signup(db, c, name, email, password, now, token).0;
    assert db1.users[|db.users|].email == NormalizeEmail(email2);
  }

  /** A login with the right password that meets no single-session
      conflict issues a session for the user found by email. */
  lemma LoginAs(db: Database, c: Crypto, email: Option<string>, password: Option<string>,
                now: int, token: string, i: nat)
    requires NormalizeEmail(email) != [] && password.GetOr([]) != []
    requires UserByEmail(db.users, NormalizeEmail(email)) == Some(i)
    requires c.hashPassword(password.value) == db.users[i].passwordHash
    requires !(SingleSessionOn(db, db.users[i].id) && HasSession(db.sessions, db.users[i].id))
    ensures Login(db, c, email, password, now, token)
         == (IssueSession(db, c, db.users[i].id, token, now), Response(200, SignedIn(ToAuthUser(db.users[i]), token)))
  {
  }

  /** An appended row whose email no earlier row has is the one found by it. */
  lemma UserByEmailAppended(users: seq<User>, u: User)
    requires UserByEmail(users, u.email).None?
    ensures UserByEmail(users + [u], u.email) == Some(|users|)
  {
    var r := UserByEmail(users + [u], u.email);
    assert (users + [u])[|users|].email == u.email;
  }

  /** Whoever signed up can log in with the same email and password: the new
      account has no single-session preference, so a second session is
      issued. */
  lemma SignupThenLogin(db: Database, c: Crypto, name: Option<string>, email: Option<string>,
                        password: Option<string>, now: int, token: string, now2: int, token2: string)
    requires Valid(db)
    requires Signup(db, c, name, email, password, now, token).1.status == 200
    ensures var db1 := Signup(db, c, name, email, password, now, token).0;
      var r := Login(db1, c, email, password, now2, token2);
      && r.1 == Response(200, SignedIn(AuthUser(db.nextUserId, NormalizeEmail(email), TrimmedName(name)), token2))
      && r.0 == IssueSession(db1, c, db.nextUserId, token2, now2)
  {
    var db1 := Signup(db, c, name, email, password, now, token).0;
    var u := User(db.nextUserId, TrimmedName(name), NormalizeEmail(email), c.hashPassword(password.value), now);
    SignupCreatesAccount(db, c, name, email, password, now, token);
    UserByEmailAppended(db.users, u);
    assert db1.users[|db.users|] == u;
    NoPreferenceForNewUser(db);
    LoginAs(db1, c, email, password, now2, token2, |db.users|);
  }

  /** After a signup, a login to the new account with a password whose hash
      differs from the one given at signup is refused and changes nothing. */
  lemma SignupThenWrongPassword(db: Database, c: Crypto, name: Option<string>, email: Option<string>,
                                password: Option<string>, now: int, token: string,
                                wrong: string, now2: int, token2: string)
    requires Valid(db)
    requires Signup(db, c, name, email, password, now, token).1.status == 200
    requires wrong != [] && c.hashPassword(wrong) != c.hashPassword(password.GetOr([]))
    ensures var db1 := Signup(db, c, name, email, password, now, token).0;
      Login(db1, c, email, Some(wrong), now2, token2) == (db1, Response(401, Failure("invalid_credentials")))
  {
    var db1 := Signup(db, c, name, email, password, now, token).0;
    var u := User(db.nextUserId, TrimmedName(name), NormalizeEmail(email), c.hashPassword(password.value), now);
    SignupCreatesAccount(db, c, name, email, password, now, token);
    UserByEmailAppended(db.users, u);
    assert db1.users[|db.users|] == u;
  }

  /** No preference row exists yet for the next user id. */
  lemma NoPreferenceForNewUser(db: Database)
    requires Valid(db)
    ensures db.nextUserId !in db.singleSession
  {
  }

  /** With the single-session preference on, a login while any session of the
      user exists signs every session of that user out, issues none, and
      answers 409; other users' sessions stay. */
  lemma LoginConflictSignsOut(db: Database, c: Crypto, email: Option<string>, password: Option<string>,
                              now: int, token: string, i: nat)
    requires Valid(db)
    requires password.GetOr([]) != []
    requires UserByEmail(db.users, NormalizeEmail(email)) == Some(i)
    requires c.hashPassword(password.value) == db.users[i].passwordHash
    requires SingleSessionOn(db, db.users[i].id) && HasSession(db.sessions, db.users[i].id)
    ensures var r := Login(db, c, email, password, now, token);
      && r.1 == Response(409, Failure("session_conflict"))
      && !HasSession(r.0.sessions, db.users[i].id)
      && IsSubsequence(r.0.sessions, db.sessions)
      && (forall j :: 0 <= j < |db.sessions| && db.sessions[j].userId != db.users[i].id ==> db.sessions[j] in r.0.sessions)
      && r.0 == db.(sessions := r.0.sessions)
  {
    FilterIsSubsequence(db.sessions, (s: Session) => s.userId != db.users[i].id);
  }

  /** After such a conflict the same credentials log in on the next try. */
  lemma LoginAfterConflictSucceeds(db: Database, c: Crypto, email: Option<string>, password: Option<string>,
                                   now: int, token: string, now2: int, token2: string)
    requires Login(db, c, email, password, now, token).1.status == 409
    ensures Login(Login(db, c, email, password, now, token).0, c, email, password, now2, token2).1.status == 200
  {
    var e := NormalizeEmail(email);
    var i := UserByEmail(db.users, e).value;
    var db1 := Login(db, c, email, password, now, token).0;
    assert db1.users == db.users;
    assert !HasSession(db1.sessions, db.users[i].id);
  }

  /** Issuing a session keeps the table constraints. */
  lemma IssueSessionValid(db: Database, c: Crypto, userId: nat, token: string, now: int)
    requires Valid(db)
    ensures Valid(IssueSession(db, c, userId, token, now))
  {
    var r := IssueSession(db, c, userId, token, now);
    assert forall i :: 0 <= i < |r.sessions| ==> r.sessions[i].id < r.nextSessionId;
  }

  /** Keeping only some of the session rows keeps the table constraints. */
  lemma FewerSessionsValid(db: Database, sessions: seq<Session>)
    requires Valid(db)
    requires forall i :: 0 <= i < |sessions| ==> sessions[i] in db.sessions
    ensures Valid(db.(sessions := sessions))
  {
    forall i | 0 <= i < |sessions|
      ensures sessions[i].id < db.nextSessionId
    {
      var j :| 0 <= j < |db.sessions| && db.sessions[j] == sessions[i];
    }
  }

  /** Appending a user under the next id with an email nobody has keeps the
      table constraints. */
  lemma AppendUserValid(db: Database, u: User)
    requires Valid(db) && u.id == db.nextUserId && u.email != []
    requires UserByEmail(db.users, u.email).None?
    ensures Valid(db.(users := db.users + [u], nextUserId := db.nextUserId + 1))
  {
    var users := db.users + [u];
    forall i, j | 0 <= i < j < |users|
      ensures users[i].id != users[j].id && users[i].email != users[j].email
    {
      if j == |db.users| {
        assert users[i] == db.users[i];
      } else {
        assert users[i] == db.users[i] && users[j] == db.users[j];
      }
    }
  }

  /** The new state after a successful signup, step by step. */
  lemma SignupSteps(db: Database, c: Crypto, name: Option<string>, email: Option<string>,
                    password: Option<string>, now: int, token: string)
    requires Signup(db, c, name, email, password, now, token).1.status == 200
    ensures var u := User(db.nextUserId, TrimmedName(name), NormalizeEmail(email), c.hashPassword(password.value), now);
      var db1 := db.(users := db.users + [u], nextUserId := db.nextUserId + 1);
      Signup(db, c, name, email, password, now, token).0
        == IssueSession(LinkDefaultRole(db1, db.nextUserId), c, db.nextUserId, token, now)
  {
  }

  lemma SignupValid(db: Database, c: Crypto, name: Option<string>, email: Option<string>,
                    password: Option<string>, now: int, token: string)
    requires Valid(db)
    ensures Valid(Signup(db, c, name, email, password, now, token).0)
  {
    if Signup(db, c, name, email, password, now, token).1.status == 200 {
      var uid := db.nextUserId;
      var u := User(uid, TrimmedName(name), NormalizeEmail(email), c.hashPassword(password.value), now);
      var db1 := db.(users := db.users + [u], nextUserId := uid + 1);
      SignupSteps(db, c, name, email, password, now, token);
      AppendUserValid(db, u);
      var db2 := LinkDefaultRole(db1, uid);
      assert db2 == db1.(userRoles := db2.userRoles);
      IssueSessionValid(db2, c, uid, token, now);
    }
  }

  lemma LoginValid(db: Database, c: Crypto, email: Option<string>, password: Option<string>, now: int, token: string)
    requires Valid(db)
    ensures Valid(Login(db, c, email, password, now, token).0)
  {
    var e := NormalizeEmail(email);
    var p := password.GetOr([]);
    if e != [] && p != [] && UserByEmail(db.users, e).Some? {
      var u := db.users[UserByEmail(db.users, e).value];
      if c.hashPassword(p) == u.passwordHash {
        if SingleSessionOn(db, u.id) && HasSession(db.sessions, u.id) {
          FewerSessionsValid(db, DeleteUserSessions(db.sessions, u.id));
        } else {
          IssueSessionValid(db, c, u.id, token, now);
        }
      }
    }
  }

  // ---------------------------------------------------------------------------
  // Logout

  /** After logout the presented token no longer identifies anyone. */
  lemma LogoutRevokes(db: Database, c: Crypto, cred: Credential, now: int)
    requires TokenFromRequest(cred).Some?
    ensures var db1 := Logout(db, c, cred).0;
      Authenticate(db1, c, cred, now) == (db1, None)
  {
    var t := TokenFromRequest(cred).value;
    if t != [] {
      var db1 := Logout(db, c, cred).0;
      assert FreshSessionHash(db1, c.hashToken(t));
    }
  }

  /** Logging out twice is logging out once. */
  lemma LogoutIdempotent(db: Database, c: Crypto, cred: Credential)
    ensures Logout(Logout(db, c, cred).0, c, cred) == Logout(db, c, cred)
  {
    var t := TokenFromRequest(cred);
    if t.Some? && t.value != [] {
      FilterIdempotent(db.sessions, (s: Session) => s.tokenHash != c.hashToken(t.value));
    }
  }

  /** Logout removes only the presented token's rows: every session of any
      other token survives. */
  lemma LogoutKeepsOtherTokens(db: Database, c: Crypto, cred: Credential, other: string)
    requires TokenHashInjective(c)
    requires TokenFromRequest(cred) != Some(other)
    ensures forall j :: 0 <= j < |db.sessions| && db.sessions[j].tokenHash == c.hashToken(other) ==>
      db.sessions[j] in Logout(db, c, cred).0.sessions
  {
  }

  lemma LogoutValid(db: Database, c: Crypto, cred: Credential)
    requires Valid(db)
    ensures Valid(Logout(db, c, cred).0)
  {
  }

  // ---------------------------------------------------------------------------
  // Profile

  /** Setting a user's name and an email no other user has keeps the
      table constraints. */
  lemma SetNameAndEmailValid(db: Database, id: nat, name: Option<string>, email: string)
    requires Valid(db) && email != [] && !EmailTakenByOther(db.users, email, id)
    ensures Valid(db.(users := SetNameAndEmail(db.users, id, name, email)))
  {
    var u := SetNameAndEmail(db.users, id, name, email);
    forall i, j | 0 <= i < j < |u|
      ensures u[i].id != u[j].id && u[i].email != u[j].email
    {
      assert u[i].id == db.users[i].id && u[j].id == db.users[j].id;
    }
  }

  /** A user's own email is taken by no other user. */
  lemma OwnEmailNotTaken(db: Database, me: AuthUser)
    requires Valid(db) && IsUser(db, me)
    ensures !EmailTakenByOther(db.users, me.email, me.id)
  {
    var k := UserIndex(db.users, me.id).value;
    forall i | 0 <= i < |db.users| && db.users[i].id != me.id
      ensures db.users[i].email != me.email
    {
      assert i != k;
    }
  }

  /** Renaming keeps the table constraints: the email either stays the
      user's own or is one no other user has. */
  lemma UpdateMeValid(db: Database, me: AuthUser, name: Option<string>, email: Option<string>)
    requires Valid(db) && IsUser(db, me)
    ensures Valid(UpdateMe(db, me, name, email).0)
  {
    var e := NormalizeEmail(email);
    if !(e != [] && EmailTakenByOther(db.users, e, me.id)) {
      if e != [] {
        SetNameAndEmailValid(db, me.id, TrimmedName(name), e);
      } else {
        OwnEmailNotTaken(db, me);
        SetNameAndEmailValid(db, me.id, TrimmedName(name), me.email);
      }
    }
  }

  /** Rewriting a user's name and email leaves that user at the same row,
      which now reads back as the new name and email. */
  lemma SetNameAndEmailReadsBack(db: Database, me: AuthUser, name: Option<string>, email: string)
    requires IsUser(db, me)
    ensures IsUser(db.(users := SetNameAndEmail(db.users, me.id, name, email)), AuthUser(me.id, email, name))
  {
    var u := SetNameAndEmail(db.users, me.id, name, email);
    var k := UserIndex(db.users, me.id).value;
    assert u[k].id == me.id;
  }

  /** PATCH /api/auth/me answers with the row as it reads after the update:
      the `SELECT` that follows the `UPDATE`. */
  lemma UpdateMeReportsRow(db: Database, me: AuthUser, name: Option<string>, email: Option<string>)
    requires IsUser(db, me)
    requires UpdateMe(db, me, name, email).1.status == 200
    ensures UpdateMe(db, me, name, email).1.body.Profile?
    ensures IsUser(UpdateMe(db, me, name, email).0, UpdateMe(db, me, name, email).1.body.user)
  {
    SetNameAndEmailReadsBack(db, me, TrimmedName(name), KeptEmail(email, me.email));
  }

  /** PUT /api/profile answers with the row as it reads after the update. */
  lemma UpdateProfileReportsRow(db: Database, me: AuthUser, name: Option<string>, email: Option<string>, single: bool)
    requires IsUser(db, me)
    requires UpdateProfile(db, me, name, email, single).1.status == 200
    ensures UpdateProfile(db, me, name, email, single).1.body.Profile?
    ensures IsUser(UpdateProfile(db, me, name, email, single).0, UpdateProfile(db, me, name, email, single).1.body.user)
  {
    SetNameAndEmailReadsBack(db, me, TrimmedName(name), NormalizeEmail(email));
  }

  lemma PatchMeValid(db: Database, c: Crypto, cred: Credential, now: int, name: Option<string>, email: Option<string>)
    requires Valid(db)
    ensures Valid(PatchMe(db, c, cred, now, name, email).0)
  {
    AuthenticateValid(db, c, cred, now);
    var (db1, who) := Authenticate(db, c, cred, now);
    if who.Some? {
      UpdateMeValid(db1, who.value, name, email);
    }
  }

  lemma UpdateProfileValid(db: Database, me: AuthUser, name: Option<string>, email: Option<string>, single: bool)
    requires Valid(db) && IsUser(db, me)
    ensures Valid(UpdateProfile(db, me, name, email, single).0)
  {
    var e := NormalizeEmail(email);
    if e != [] && !EmailTakenByOther(db.users, e, me.id) {
      var db1 := db.(users := SetNameAndEmail(db.users, me.id, TrimmedName(name), e));
      SetNameAndEmailValid(db, me.id, TrimmedName(name), e);
      UserIdBelowCounter(db, me);
      PreferenceValid(db1, me.id, single);
    }
  }

  lemma UserIdBelowCounter(db: Database, me: AuthUser)
    requires Valid(db) && IsUser(db, me)
    ensures me.id < db.nextUserId
  {
  }

  /** Recording a preference for an existing id keeps the table constraints. */
  lemma PreferenceValid(db: Database, id: nat, single: bool)
    requires Valid(db) && id < db.nextUserId
    ensures Valid(db.(singleSession := db.singleSession[id := single]))
  {
  }

  lemma PutProfileValid(db: Database, c: Crypto, cred: Credential, now: int,
                        name: Option<string>, email: Option<string>, single: bool)
    requires Valid(db)
    ensures Valid(PutProfile(db, c, cred, now, name, email, single).0)
  {
    AuthenticateValid(db, c, cred, now);
    var (db1, who) := Authenticate(db, c, cred, now);
    if who.Some? {
      UpdateProfileValid(db1, who.value, name, email, single);
    }
  }

  /** The single-session preference a profile update stores is the one the
      next login obeys. */
  lemma ProfileSetsSingleSession(db: Database, me: AuthUser, name: Option<string>, email: Option<string>, single: bool)
    requires UpdateProfile(db, me, name, email, single).1.status == 200
    ensures SingleSessionOn(UpdateProfile(db, me, name, email, single).0, me.id) == single
  {
  }

  // ---------------------------------------------------------------------------
  // Password reset

  /** A known email gets exactly one new ticket, holding the token's hash and
      expiring thirty minutes after `now`; nothing else changes. */
  lemma ForgotIssuesOneTicket(db: Database, c: Crypto, email: Option<string>, now: int, token: string, i: nat)
    requires UserByEmail(db.users, NormalizeEmail(email)) == Some(i)
    ensures ForgotPassword(db, c, email, now, token)
         == (db.(resets := db.resets + [Reset(db.nextResetId, db.users[i].id, c.hashToken(token), now + ResetLifetimeMs, None)],
                 nextResetId := db.nextResetId + 1),
             Response(200, ResetIssued(token)))
  {
  }

  /** A successful reset sets the new password hash on the ticket's user,
      marks the ticket used and signs every session of that user out. */
  lemma ResetRevokesSessions(db: Database, c: Crypto, token: Option<string>, password: Option<string>, now: int)
    requires ResetPassword(db, c, token, password, now).1.status == 200
    ensures var db1 := ResetPassword(db, c, token, password, now).0;
      var i := ResetByHash(db.resets, c.hashToken(Trim(token.value))).value;
      && Redeemable(db.resets[i], now)
      && !HasSession(db1.sessions, db.resets[i].userId)
      && db1.resets[i].usedAt == Some(now)
      && (forall j :: 0 <= j < |db1.users| && db1.users[j].id == db.resets[i].userId
            ==> db1.users[j].passwordHash == c.hashPassword(password.value))
  {
  }

  /** A reset whose trimmed token finds a redeemable ticket `i`. */
  lemma ResetWith(db: Database, c: Crypto, token: Option<string>, password: Option<string>, now: int, i: nat)
    requires token.Some? && Trim(token.value) != [] && password.GetOr([]) != []
    requires ResetByHash(db.resets, c.hashToken(Trim(token.value))) == Some(i)
    requires Redeemable(db.resets[i], now)
    ensures ResetPassword(db, c, token, password, now)
         == (db.(users := SetPasswordHash(db.users, db.resets[i].userId, c.hashPassword(password.value)),
                 resets := MarkUsed(db.resets, db.resets[i].id, now),
                 sessions := DeleteUserSessions(db.sessions, db.resets[i].userId)),
             Response(200, Ok))
  {
  }

  /** Marking a ticket used leaves every ticket's hash, so lookups by hash
      find the same row. */
  lemma MarkUsedKeepsLookup(resets: seq<Reset>, id: nat, now: int, h: string)
    ensures ResetByHash(MarkUsed(resets, id, now), h) == ResetByHash(resets, h)
  {
    var m := MarkUsed(resets, id, now);
    assert forall j :: 0 <= j < |resets| ==> m[j].tokenHash == resets[j].tokenHash;
  }

  /** A ticket works once: the same token is refused afterwards. */
  lemma ResetSingleUse(db: Database, c: Crypto, token: Option<string>, password: Option<string>, now: int,
                       password2: Option<string>, now2: int)
    requires ResetPassword(db, c, token, password, now).1.status == 200
    ensures var db1 := ResetPassword(db, c, token, password, now).0;
      ResetPassword(db1, c, token, password2, now2).1.status == 400
  {
    var h := c.hashToken(Trim(token.value));
    var i := ResetByHash(db.resets, h).value;
    ResetWith(db, c, token, password, now, i);
    var db1 := ResetPassword(db, c, token, password, now).0;
    MarkUsedKeepsLookup(db.resets, db.resets[i].id, now, h);
    assert db1.resets[i].usedAt.Some?;
  }

  /** An appended ticket whose hash no earlier ticket has is the one found
      by it. */
  lemma ResetByHashAppended(resets: seq<Reset>, t: Reset)
    requires forall j :: 0 <= j < |resets| ==> resets[j].tokenHash != t.tokenHash
    ensures ResetByHash(resets + [t], t.tokenHash) == Some(|resets|)
  {
    assert (resets + [t])[|resets|] == t;
  }

  /** Changing a password hash keeps every email, so lookups by email find
      the same row. */
  lemma SetPasswordHashKeepsLookup(users: seq<User>, id: nat, hash: string, email: string)
    ensures UserByEmail(SetPasswordHash(users, id, hash), email) == UserByEmail(users, email)
  {
    var u := SetPasswordHash(users, id, hash);
    assert forall j :: 0 <= j < |users| ==> u[j].email == users[j].email;
  }

  /** The whole recovery: a ticket issued for a known email, redeemed within
      thirty minutes with a new password, lets the user log in with that
      password, even with the single-session preference on. */
  lemma RecoveryThenLogin(db: Database, c: Crypto, email: Option<string>, now: int, token: string,
                          password: string, later: int, now3: int, token3: string)
    requires Valid(db)
    requires UserByEmail(db.users, NormalizeEmail(email)).Some?
    requires token != [] && Trim(token) == token && password != []
    requires forall j :: 0 <= j < |db.resets| ==> db.resets[j].tokenHash != c.hashToken(token)
    requires later <= now + ResetLifetimeMs
    ensures var db1 := ForgotPassword(db, c, email, now, token).0;
      var db2 := ResetPassword(db1, c, Some(token), Some(password), later);
      && db2.1.status == 200
      && Login(db2.0, c, email, Some(password), now3, token3).1.status == 200
  {
    var e := NormalizeEmail(email);
    var i := UserByEmail(db.users, e).value;
    var uid := db.users[i].id;
    var ticket := Reset(db.nextResetId, uid, c.hashToken(token), now + ResetLifetimeMs, None);
    ForgotIssuesOneTicket(db, c, email, now, token, i);
    var db1 := db.(resets := db.resets + [ticket], nextResetId := db.nextResetId + 1);
    ResetByHashAppended(db.resets, ticket);
    ResetWith(db1, c, Some(token), Some(password), later, |db.resets|);
    var db2 := db1.(users := SetPasswordHash(db1.users, uid, c.hashPassword(password)),
                    resets := MarkUsed(db1.resets, ticket.id, later),
                    sessions := DeleteUserSessions(db1.sessions, uid));
    SetPasswordHashKeepsLookup(db.users, uid, c.hashPassword(password), e);
    assert db2.users[i].passwordHash == c.hashPassword(password);
    assert !HasSession(db2.sessions, uid);
    LoginAs(db2, c, email, Some(password), now3, token3, i);
  }

  lemma ForgotValid(db: Database, c: Crypto, email: Option<string>, now: int, token: string)
    requires Valid(db)
    ensures Valid(ForgotPassword(db, c, email, now, token).0)
  {
  }

  lemma ResetValid(db: Database, c: Crypto, token: Option<string>, password: Option<string>, now: int)
    requires Valid(db)
    ensures Valid(ResetPassword(db, c, token, password, now).0)
  {
  }

  // ---------------------------------------------------------------------------
  // Roles and documents

  /** A deleted role leaves no role row and no user link with that id, and
      every other role and link stays. */
  lemma RemoveRoleRemoves(db: Database, idParam: string, id: nat)
    requires ParseNumber(idParam) == Some(id as real) && id != 0
    ensures var db1 := RemoveRole(db, idParam).0;
      && RemoveRole(db, idParam).1 == Response(200, Ok)
      && (forall j :: 0 <= j < |db1.roles| ==> db1.roles[j].id != id)
      && (forall l :: l in db1.userRoles ==> l.roleId != id)
      && (forall j :: 0 <= j < |db.roles| && db.roles[j].id != id ==> db.roles[j] in db1.roles)
      && (forall l :: l in db.userRoles && l.roleId != id ==> l in db1.userRoles)
  {
    var v := ParseNumber(idParam).value;
    FilterMembers(db.roles, (ro: Role) => ro.id as real != v);
  }

  /** Id 0 is refused. */
  lemma RemoveRoleRejectsZero(db: Database)
    ensures RemoveRole(db, "0") == (db, Response(400, Failure("invalid_request")))
  {
    ParseDigits("0");
    assert DigitsValue("0") == 0;
  }

  /** An empty or blank parameter, which `Number` reads as 0, is refused. */
  lemma RemoveRoleRejectsBlank(db: Database, idParam: string)
    requires IsBlank(idParam)
    ensures RemoveRole(db, idParam) == (db, Response(400, Failure("invalid_request")))
  {
    BlankIffAllSpace(idParam);
  }

  /** Removing a role touches no table the constraints are about. */
  lemma RemoveRoleValid(db: Database, idParam: string)
    requires Valid(db)
    ensures Valid(RemoveRole(db, idParam).0)
  {
    var r := RemoveRole(db, idParam).0;
    assert r == db.(roles := r.roles, userRoles := r.userRoles);
  }

  lemma DeleteRoleValid(db: Database, c: Crypto, cred: Credential, now: int, idParam: string)
    requires Valid(db)
    ensures Valid(DeleteRole(db, c, cred, now, idParam).0)
  {
    AuthenticateValid(db, c, cred, now);
  }

  /** Storing a document does not change who a request authenticates as. */
  lemma AuthenticateIgnoresDocuments(db: Database, docs: map<DocKey, Json>, c: Crypto, cred: Credential, now: int)
    ensures Authenticate(db.(documents := docs), c, cred, now).1 == Authenticate(db, c, cred, now).1
    ensures Authenticate(db.(documents := docs), c, cred, now).1.Some? ==>
      Authenticate(db.(documents := docs), c, cred, now).0 == db.(documents := docs)
  {
    var db1 := db.(documents := docs);
    var t := TokenFromRequest(cred);
    if t.Some? && t.value != [] {
      assert SessionByHash(db1, c.hashToken(t.value)) == SessionByHash(db, c.hashToken(t.value));
    }
  }

  /** What a user stores is what that user reads back: `body.data ?? body`,
      with null stored as `{}`. */
  lemma DocumentRoundTrip(db: Database, c: Crypto, cred: Credential, now: int, kind: DocKind, body: Json)
    requires PutDocument(db, c, cred, now, kind, body).1.status == 200
    ensures var db1 := PutDocument(db, c, cred, now, kind, body).0;
      GetDocument(db1, c, cred, now, kind) == (db1, Response(200, Data(Some(DocumentPayload(body)))))
  {
    var db1 := PutDocument(db, c, cred, now, kind, body).0;
    AuthenticateIgnoresDocuments(db, db1.documents, c, cred, now);
  }

  /** The shared board reads back as stored, always with a `columns` member. */
  lemma BoardRoundTrip(db: Database, c: Crypto, cred: Credential, now: int, body: Json)
    requires PutBoard(db, c, cred, now, body).1.status == 200
    ensures var db1 := PutBoard(db, c, cred, now, body).0;
      && GetBoard(db1, c, cred, now) == (db1, Response(200, Data(Some(BoardPayload(body)))))
      && Member(BoardPayload(body), "columns").Some?
  {
    var db1 := PutBoard(db, c, cred, now, body).0;
    AuthenticateIgnoresDocuments(db, db1.documents, c, cred, now);
  }

  /** One user's document never overwrites another user's. */
  lemma DocumentsArePerUser(db: Database, c: Crypto, cred: Credential, now: int, kind: DocKind, body: Json, other: DocKey)
    requires PutDocument(db, c, cred, now, kind, body).1.status == 200
    requires other != UserDoc(Authenticate(db, c, cred, now).1.value.id, kind)
    ensures var db1 := PutDocument(db, c, cred, now, kind, body).0;
      ReadDocument(db1, other) == ReadDocument(db, other)
  {
  }

  lemma PutDocumentValid(db: Database, c: Crypto, cred: Credential, now: int, kind: DocKind, body: Json)
    requires Valid(db)
    ensures Valid(PutDocument(db, c, cred, now, kind, body).0)
  {
    AuthenticateValid(db, c, cred, now);
  }

  lemma PutBoardValid(db: Database, c: Crypto, cred: Credential, now: int, body: Json)
    requires Valid(db)
    ensures Valid(PutBoard(db, c, cred, now, body).0)
  {
    AuthenticateValid(db, c, cred, now);
    var (db1, who) := Authenticate(db, c, cred, now);
    if who.Some? {
      StoreDocumentValid(db1, Board, body);
    }
  }

  /** Storing a document touches no table the constraints are about. */
  lemma StoreDocumentValid(db: Database, key: DocKey, body: Json)
    requires Valid(db)
    ensures Valid(StoreDocument(db, key, body))
  {
    var r := StoreDocument(db, key, body);
    assert r == db.(documents := r.documents);
  }

  // ---------------------------------------------------------------------------
  // Profile string lists

  /** A normalised list, stored as an array of strings and normalised again,
      is unchanged. */
  lemma NormalizeStringListIdempotent(v: Json)
    ensures var r := NormalizeStringList(v);
      NormalizeStringList(JArray(Strings(r))) == r
  {
    StringItemsOfClean(NormalizeStringList(v));
  }

  /** The first item of a list contributes its trimmed text when it is a
      non-blank string. */
  lemma StringItemsCons(x: string, rest: seq<Json>)
    ensures StringItems([JString(x)] + rest) == (if Trim(x) == [] then [] else [Trim(x)]) + StringItems(rest)
  {
    var items := [JString(x)] + rest;
    assert items[1..] == rest;
  }

  /** A clean first item is kept as it is. */
  lemma StringItemsCleanCons(x: string, rest: seq<Json>)
    requires Clean(x)
    ensures StringItems([JString(x)] + rest) == [x] + StringItems(rest)
  {
    StringItemsCons(x, rest);
  }

  lemma {:induction false} StringItemsOfClean(xs: seq<string>)
    requires forall x :: x in xs ==> Clean(x)
    ensures StringItems(Strings(xs)) == xs
  {
    if xs != [] {
      StringItemsOfClean(xs[1..]);
      StringItemsCleanCons(xs[0], Strings(xs[1..]));
      assert xs == [xs[0]] + xs[1..];
    }
  }
}
