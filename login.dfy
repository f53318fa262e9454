/** The sign-in page: the recent-accounts list kept in browser storage, and
    the validation and fallback branches of its login, signup and password
    recovery handlers. The server's replies are parameters. */
module LoginPage {
  import opened Maybe
  import opened Seqs

  /** The user object of a server reply. */
  datatype UserInfo = UserInfo(name: Option<string>, email: Option<string>)

  /** One entry of the `sc_accounts` list. */
  datatype Account = Account(name: string, email: string, lastUsed: int, token: string)

  /** The `sc_user` entry. */
  datatype StoredUser = StoredUser(name: string, email: string)

  /** What `sc_accounts` holds: nothing (or an empty string), a readable list,
      or text that is not JSON or not a list, on which reading fails. */
  datatype StoredAccounts = NoValue | AccountList(accounts: seq<Account>) | Unreadable

  /** A request the page sends. */
  datatype Request =
    | LoginRequest(email: string, password: string)
    | SignupRequest(name: string, email: string, password: string)
    | ForgotRequest(email: string)
    | ResetRequest(token: string, password: string)

  /** The server's answer: a success payload, or a failure with the HTTP
      status and error code when there was a response at all. */
  datatype Reply =
    | Success(user: Option<UserInfo>, token: Option<string>, resetToken: Option<string>)
    | Failure(status: Option<int>, code: Option<string>)

  datatype RecoveryStep = RequestStep | ResetStep

  /** The page's messages and navigation state. */
  datatype View = View(
    loginError: string,
    signupError: string,
    recoveryOpen: bool,
    recoveryStep: RecoveryStep,
    recoveryEmail: string,
    recoveryToken: string,
    recoveryError: string,
    recoveryNotice: string,
    location: string)

  const MaxAccounts: nat := 3
  const ProfilePath := "/profile"
  const MissingCredentials := "Informe o email e a senha."
  const InvalidCredentials := "Email ou senha inválidos."
  const SessionConflict := "Detectamos acesso em outro dispositivo. As sessões foram encerradas por segurança. Entre novamente ou redefina a senha."
  const MissingSignupFields := "Preencha nome, email e senha."
  const PasswordMismatch := "As senhas não conferem."
  const AlreadyRegistered := "Esse email já está cadastrado."
  const SignupFailed := "Não foi possível criar a conta agora."
  const MissingRecoveryEmail := "Informe o email da conta."
  const ResetCodeSent := "Use o código enviado para definir uma nova senha."
  const ResetMaybeSent := "Se o email existir, você receberá um código."
  const RecoveryFailed := "Não foi possível iniciar a recuperação."
  const MissingResetFields := "Preencha o código e a nova senha."
  const PasswordUpdated := "Senha atualizada. Você já pode entrar."
  const InvalidResetCode := "Código inválido ou expirado."

  /** `user?.email` is a non-empty string. */
  predicate HasEmail(user: Option<UserInfo>)
  {
    user.Some? && user.value.email.Some? && user.value.email.value != []
  }

  predicate DistinctEmails(xs: seq<Account>)
  {
    forall i, j :: 0 <= i < j < |xs| ==> xs[i].email != xs[j].email
  }

  /** The accounts other than the one being stored. */
  function Others(xs: seq<Account>, email: string): (r: seq<Account>)
    ensures |r| <= |xs|
    ensures forall i :: 0 <= i < |r| ==> r[i].email != email
    ensures forall i :: 0 <= i < |xs| && xs[i].email != email ==> xs[i] in r
    ensures IsSubsequence(r, xs)
  {
    FilterMembers(xs, (a: Account) => a.email != email);
    FilterIsSubsequence(xs, (a: Account) => a.email != email);
    Filter(xs, (a: Account) => a.email != email)
  }

  /** `Others` keeps every copy of an entry with another email and no copy
      of one with this email, so duplicate entries are kept as often as they
      occur. */
  lemma OthersCounts(xs: seq<Account>, email: string)
    ensures forall a :: multiset(Others(xs, email))[a] == if a.email != email then multiset(xs)[a] else 0
  {
    FilterCounts(xs, (a: Account) => a.email != email);
  }

  /** The new `sc_accounts` list: the new entry first, then the earlier
      accounts with another email, cut to three entries; a list that cannot
      be read is replaced by the new entry alone. */
  function NextAccounts(stored: StoredAccounts, next: Account): (r: seq<Account>)
    ensures 1 <= |r| <= MaxAccounts && r[0] == next
    ensures forall i :: 1 <= i < |r| ==> r[i].email != next.email
    ensures stored.AccountList? ==> IsSubsequence(r[1..], stored.accounts)
    ensures stored.AccountList? ==> r[1..] == Take(Others(stored.accounts, next.email), MaxAccounts - 1)
    ensures !stored.AccountList? ==> r == [next]
  {
    match stored
    case AccountList(xs) =>
      var others := Others(xs, next.email);
      var r := Take([next] + others, MaxAccounts);
      assert r[1..] == others[..|r| - 1];
      FilterIsSubsequence(xs, (a: Account) => a.email != next.email);
      SubsequencePrefix(others, xs, |r| - 1);
      r
    case _ => [next]
  }

  /** Storing the same account twice in a row leaves the list the second
      store alone would give: the first entry is replaced, not repeated. */
  lemma {:induction false} SameAccountTwice(stored: StoredAccounts, first: Account, second: Account)
    requires first.email == second.email
    ensures NextAccounts(AccountList(NextAccounts(stored, first)), second) == NextAccounts(stored, second)
  {
    OthersAfterNext(stored, first);
    if stored.AccountList? {
      var others := Others(stored.accounts, second.email);
      assert [second] + Take(others, MaxAccounts - 1) == Take([second] + others, MaxAccounts);
    }
  }

  /** After a store, the entries with another email than the stored one are
      the earlier ones that `NextAccounts` kept. */
  lemma OthersAfterNext(stored: StoredAccounts, next: Account)
    ensures Others(NextAccounts(stored, next), next.email)
      == if stored.AccountList? then Take(Others(stored.accounts, next.email), MaxAccounts - 1) else []
  {
    var e := next.email;
    var once := NextAccounts(stored, next);
    assert once == [once[0]] + once[1..];
    OthersCons(once[0], once[1..], e);
    OthersOfOthers(once[1..], e);
    if stored.AccountList? {
      var others := Others(stored.accounts, e);
      assert once[1..] == Take(others, MaxAccounts - 1);
      OthersKeepsPrefix(others, e, MaxAccounts - 1);
      FilterIdempotent(stored.accounts, (a: Account) => a.email != e);
    } else {
      assert once[1..] == [];
    }
  }

  lemma OthersCons(x: Account, xs: seq<Account>, email: string)
    requires x.email == email
    ensures Others([x] + xs, email) == Others(xs, email)
  {
    assert ([x] + xs)[1..] == xs;
  }

  /** Entries that already differ in email are all kept. */
  lemma OthersOfOthers(xs: seq<Account>, email: string)
    requires forall i :: 0 <= i < |xs| ==> xs[i].email != email
    ensures Others(xs, email) == xs
  {
    FilterKeepsAll(xs, (a: Account) => a.email != email);
  }

  lemma OthersKeepsPrefix(xs: seq<Account>, email: string, k: nat)
    requires forall i :: 0 <= i < |xs| ==> xs[i].email != email
    ensures Others(Take(xs, k), email) == Take(xs, k)
  {
    OthersOfOthers(Take(xs, k), email);
  }

  /** The list never holds two entries for one email when it did not before. */
  lemma NextAccountsDistinct(xs: seq<Account>, next: Account)
    requires DistinctEmails(xs)
    ensures DistinctEmails(NextAccounts(AccountList(xs), next))
  {
    var others := Others(xs, next.email);
    OthersDistinct(xs, next.email);
    var r := NextAccounts(AccountList(xs), next);
    assert r[1..] == others[..|r| - 1];
    forall i, j | 0 <= i < j < |r|
      ensures r[i].email != r[j].email
    {
      if i > 0 {
        assert r[i] == others[i - 1] && r[j] == others[j - 1];
      }
    }
  }

  lemma {:induction false} OthersDistinct(xs: seq<Account>, email: string)
    requires DistinctEmails(xs)
    ensures DistinctEmails(Others(xs, email))
  {
    if xs != [] {
      var p := (a: Account) => a.email != email;
      var rest := Others(xs[1..], email);
      OthersDistinct(xs[1..], email);
      FilterMembers(xs[1..], p);
      assert Others(xs, email) == (if p(xs[0]) then [xs[0]] else []) + rest;
      forall k | 0 <= k < |rest|
        ensures rest[k].email != xs[0].email
      {
        var m :| 0 <= m < |xs[1..]| && xs[1..][m] == rest[k];
        assert xs[m + 1] == rest[k];
      }
    }
  }

  /** The browser storage the page writes: `sc_user`, `sc_active_session`
      and `sc_accounts`. */
  datatype Storage = Storage(user: Option<StoredUser>, activeSession: Option<string>, accounts: StoredAccounts)

  /** `persistUser` on the storage: with an email, `sc_user` becomes the
      user, `sc_active_session` the token when it is non-empty, and
      `sc_accounts` the new list; without an email nothing is written. */
  function Persist(s: Storage, user: Option<UserInfo>, token: Option<string>, now: int): (r: Storage)
    ensures !HasEmail(user) ==> r == s
    ensures HasEmail(user) ==>
      var name := user.value.name.GetOr([]);
      var email := user.value.email.value;
      && r.user == Some(StoredUser(name, email))
      && r.activeSession == (if token.Some? && token.value != [] then token else s.activeSession)
      && r.accounts == AccountList(NextAccounts(s.accounts, Account(name, email, now, token.GetOr([]))))
  {
    if !HasEmail(user) then s
    else
      var name := user.value.name.GetOr([]);
      var email := user.value.email.value;
      Storage(Some(StoredUser(name, email)),
              if token.Some? && token.value != [] then token else s.activeSession,
              AccountList(NextAccounts(s.accounts, Account(name, email, now, token.GetOr([])))))
  }

  /** Signing in twice in a row as the same user leaves the storage the
      second sign-in alone would: one account entry, the later timestamp. */
  lemma PersistTwice(s: Storage, user: Option<UserInfo>, token: Option<string>, now: int, later: int)
    ensures Persist(Persist(s, user, token, now), user, token, later) == Persist(s, user, token, later)
  {
    if HasEmail(user) {
      var name := user.value.name.GetOr([]);
      var email := user.value.email.value;
      SameAccountTwice(s.accounts, Account(name, email, now, token.GetOr([])), Account(name, email, later, token.GetOr([])));
    }
  }

  /** The login page: browser storage, the page's view state, the requests
      it has sent and the `auth-change` events it has raised. */
  class Page {
    var storedUser: Option<StoredUser>
    var activeSession: Option<string>
    var accounts: StoredAccounts
    var view: View
    var sent: seq<Request>
    var authChanges: nat

    function Stored(): Storage
      reads this
    {
      Storage(storedUser, activeSession, accounts)
    }

    /** `persistUser`: with an email, writes `sc_user`, writes
        `sc_active_session` only for a non-empty token, and stores the new
        accounts list; without an email writes nothing. */
    method PersistUser(user: Option<UserInfo>, token: Option<string>, now: int)
      modifies this
      ensures Stored() == Persist(old(Stored()), user, token, now)
      ensures view == old(view) && sent == old(sent) && authChanges == old(authChanges)
    {
      if !HasEmail(user) {
        return;
      }
      var name := user.value.name.GetOr([]);
      var email := user.value.email.value;
      storedUser := Some(StoredUser(name, email));
      if token.Some? && token.value != [] {
        activeSession := token;
      }
      var next := Account(name, email, now, token.GetOr([]));
      accounts := AccountList(NextAccounts(accounts, next));
    }

    /** A successful sign-in: the user is stored, `auth-change` is raised and
        the page moves to the profile. */
    method SignedIn(reply: Reply, now: int)
      requires reply.Success?
      modifies this
      ensures Stored() == Persist(old(Stored()), reply.user, reply.token, now)
      ensures authChanges == old(authChanges) + 1 && sent == old(sent)
      ensures view == old(view).(location := ProfilePath)
    {
      PersistUser(reply.user, reply.token, now);
      authChanges := authChanges + 1;
      view := view.(location := ProfilePath);
    }

    /** `handleLogin`: empty fields are refused without a request; a
        `session_conflict` failure and any other failure have their own
        messages. */
    method HandleLogin(email: string, password: string, reply: Reply, now: int)
      modifies this
      ensures email == [] || password == [] ==>
        sent == old(sent) && view == old(view).(loginError := MissingCredentials)
        && Stored() == old(Stored()) && authChanges == old(authChanges)
      ensures email != [] && password != [] ==> sent == old(sent) + [LoginRequest(email, password)]
      ensures email != [] && password != [] && reply.Success? ==>
        view == old(view).(loginError := [], location := ProfilePath) && authChanges == old(authChanges) + 1
        && Stored() == Persist(old(Stored()), reply.user, reply.token, now)
      ensures email != [] && password != [] && reply.Failure? ==>
        view == old(view).(loginError := if reply.code == Some("session_conflict") then SessionConflict else InvalidCredentials)
        && Stored() == old(Stored()) && authChanges == old(authChanges)
    {
      view := view.(loginError := []);
      if email == [] || password == [] {
        view := view.(loginError := MissingCredentials);
        return;
      }
      sent := sent + [LoginRequest(email, password)];
      if reply.Success? {
        SignedIn(reply, now);
      } else if reply.code == Some("session_conflict") {
        view := view.(loginError := SessionConflict);
      } else {
        view := view.(loginError := InvalidCredentials);
      }
    }

    /** `handleSignup`: missing fields or a mismatched confirmation are
        refused without a request; a 409 answer retries as a login with the
        same credentials. */
    method HandleSignup(name: string, email: string, password: string, confirm: string,
                        signupReply: Reply, loginReply: Reply, now: int)
      modifies this
      ensures name == [] || email == [] || password == [] || confirm == [] ==>
        sent == old(sent) && view == old(view).(signupError := MissingSignupFields)
        && Stored() == old(Stored()) && authChanges == old(authChanges)
      ensures name != [] && email != [] && password != [] && confirm != [] && password != confirm ==>
        sent == old(sent) && view == old(view).(signupError := PasswordMismatch)
        && Stored() == old(Stored()) && authChanges == old(authChanges)
      ensures name != [] && email != [] && password != [] && confirm == password ==>
        && |sent| >= |old(sent)| + 1
        && sent[..|old(sent)| + 1] == old(sent) + [SignupRequest(name, email, password)]
      ensures name != [] && email != [] && password != [] && confirm == password && signupReply.Success? ==>
        sent == old(sent) + [SignupRequest(name, email, password)]
        && view == old(view).(signupError := [], location := ProfilePath)
        && Stored() == Persist(old(Stored()), signupReply.user, signupReply.token, now)
        && authChanges == old(authChanges) + 1
      ensures name != [] && email != [] && password != [] && confirm == password
              && signupReply.Failure? && signupReply.status == Some(409) ==>
        && sent == old(sent) + [SignupRequest(name, email, password), LoginRequest(email, password)]
        && (loginReply.Success? ==>
              && view == old(view).(signupError := [], location := ProfilePath)
              && Stored() == Persist(old(Stored()), loginReply.user, loginReply.token, now)
              && authChanges == old(authChanges) + 1)
        && (loginReply.Failure? ==>
              && view == old(view).(signupError :=
                   if loginReply.code == Some("session_conflict") then SessionConflict else AlreadyRegistered)
              && Stored() == old(Stored()) && authChanges == old(authChanges))
      ensures name != [] && email != [] && password != [] && confirm == password
              && signupReply.Failure? && signupReply.status != Some(409) ==>
        sent == old(sent) + [SignupRequest(name, email, password)]
        && view == old(view).(signupError := SignupFailed)
        && Stored() == old(Stored()) && authChanges == old(authChanges)
    {
      view := view.(signupError := []);
      if name == [] || email == [] || password == [] || confirm == [] {
        view := view.(signupError := MissingSignupFields);
        return;
      }
      if password != confirm {
        view := view.(signupError := PasswordMismatch);
        return;
      }
      sent := sent + [SignupRequest(name, email, password)];
      if signupReply.Success? {
        SignedIn(signupReply, now);
        return;
      }
      if signupReply.status == Some(409) {
        sent := sent + [LoginRequest(email, password)];
        if loginReply.Success? {
          SignedIn(loginReply, now);
          return;
        }
        if loginReply.code == Some("session_conflict") {
          view := view.(signupError := SessionConflict);
          return;
        }
        view := view.(signupError := AlreadyRegistered);
        return;
      }
      view := view.(signupError := SignupFailed);
    }

    /** `handleRecoveryOpen`: the dialog opens on the request step with the
        login email filled in and every other field cleared. */
    method HandleRecoveryOpen(loginEmail: string)
      modifies this
      ensures view == old(view).(recoveryOpen := true, recoveryStep := RequestStep, recoveryEmail := loginEmail,
                                 recoveryToken := [], recoveryError := [], recoveryNotice := [])
      ensures sent == old(sent) && Stored() == old(Stored()) && authChanges == old(authChanges)
    {
      view := view.(recoveryOpen := true, recoveryStep := RequestStep, recoveryEmail := loginEmail,
                    recoveryToken := [], recoveryError := [], recoveryNotice := []);
    }

    /** `handleRecoveryClose`. */
    method HandleRecoveryClose()
      modifies this
      ensures view == old(view).(recoveryOpen := false, recoveryError := [], recoveryNotice := [])
      ensures sent == old(sent) && Stored() == old(Stored()) && authChanges == old(authChanges)
    {
      view := view.(recoveryOpen := false, recoveryError := [], recoveryNotice := []);
    }

    /** `handleRecoveryRequest`: a reset code in the reply moves the dialog to
        the reset step with the code filled in; a reply without one gives a
        neutral notice. */
    method HandleRecoveryRequest(email: string, reply: Reply)
      modifies this
      ensures email == [] ==>
        sent == old(sent) && view == old(view).(recoveryError := MissingRecoveryEmail, recoveryNotice := [])
      ensures email != [] ==> sent == old(sent) + [ForgotRequest(email)]
      ensures email != [] && reply.Success? && reply.resetToken.Some? && reply.resetToken.value != [] ==>
        view == old(view).(recoveryError := [], recoveryToken := reply.resetToken.value,
                           recoveryNotice := ResetCodeSent, recoveryStep := ResetStep)
      ensures email != [] && reply.Success? && !(reply.resetToken.Some? && reply.resetToken.value != []) ==>
        view == old(view).(recoveryError := [], recoveryNotice := ResetMaybeSent)
      ensures email != [] && reply.Failure? ==>
        view == old(view).(recoveryError := RecoveryFailed, recoveryNotice := [])
      ensures Stored() == old(Stored()) && authChanges == old(authChanges)
    {
      view := view.(recoveryError := [], recoveryNotice := []);
      if email == [] {
        view := view.(recoveryError := MissingRecoveryEmail);
        return;
      }
      sent := sent + [ForgotRequest(email)];
      if reply.Failure? {
        view := view.(recoveryError := RecoveryFailed);
      } else if reply.resetToken.Some? && reply.resetToken.value != [] {
        view := view.(recoveryToken := reply.resetToken.value, recoveryNotice := ResetCodeSent,
                      recoveryStep := ResetStep);
      } else {
        view := view.(recoveryNotice := ResetMaybeSent);
      }
    }

    /** `handleRecoveryReset`: missing fields or a mismatched confirmation are
        refused without a request; success closes the dialog. */
    method HandleRecoveryReset(token: string, password: string, confirm: string, reply: Reply)
      modifies this
      ensures token == [] || password == [] || confirm == [] ==>
        sent == old(sent) && view == old(view).(recoveryError := MissingResetFields, recoveryNotice := [])
      ensures token != [] && password != [] && confirm != [] && password != confirm ==>
        sent == old(sent) && view == old(view).(recoveryError := PasswordMismatch, recoveryNotice := [])
      ensures token != [] && password != [] && confirm == password ==>
        sent == old(sent) + [ResetRequest(token, password)]
      ensures token != [] && password != [] && confirm == password && reply.Success? ==>
        view == old(view).(recoveryError := [], recoveryNotice := PasswordUpdated,
                           recoveryStep := RequestStep, recoveryOpen := false)
      ensures token != [] && password != [] && confirm == password && reply.Failure? ==>
        view == old(view).(recoveryError := InvalidResetCode, recoveryNotice := [])
      ensures Stored() == old(Stored()) && authChanges == old(authChanges)
    {
      view := view.(recoveryError := [], recoveryNotice := []);
      if token == [] || password == [] || confirm == [] {
        view := view.(recoveryError := MissingResetFields);
        return;
      }
      if password != confirm {
        view := view.(recoveryError := PasswordMismatch);
        return;
      }
      sent := sent + [ResetRequest(token, password)];
      if reply.Success? {
        view := view.(recoveryNotice := PasswordUpdated, recoveryStep := RequestStep, recoveryOpen := false);
      } else {
        view := view.(recoveryError := InvalidResetCode);
      }
    }
  }
}
