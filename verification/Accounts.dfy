/** Accounts, login sessions, activation tokens and integration credentials. */
module Accounts {
  import opened Sequences

  // Logins, tokens, password hashes and integrations are compared for equality only.
  type Label = int

  // An account is known by its position in creation order.
  datatype Account = Account(login: Label, admin: bool, active: bool, hash: Option<Label>, removed: bool)

  // A login session, with the role and password hash it was issued under.
  datatype Session = Session(user: nat, admin: bool, hash: Label)

  datatype Credential = Credential(user: nat, integration: Label, version: nat, active: bool)

  datatype World = World(
    accounts: seq<Account>,
    sessions: map<Label, Session>,
    tokens: map<Label, nat>,
    credentials: seq<Credential>)

  const EMPTY := World([], map[], map[], [])

  datatype Change = Role(admin: bool) | Activity(active: bool) | Recovery(token: Label) | Removal | Revocation

  datatype Op =
    | Create(valid: bool, login: Label, admin: bool, bootstrap: bool, token: Label)
    | Activate(valid: bool, token: Label, hash: Label)
    // A login commits against what it read before verifying the password.
    | Login(user: nat, admin: bool, hash: Label, previous: Option<Label>, token: Label)
    | Manage(user: nat, change: Change)
    | ChangePassword(user: nat, verified: Label, hash: Label)
    | Logout(token: Label)
    | SaveCredential(user: nat, integration: Label)
    | RemoveCredential(user: nat, integration: Label)

  // ---- Shared pieces of the transactions --------------------------------------------------

  function Revoked(sessions: map<Label, Session>, user: nat): map<Label, Session> {
    map t | t in sessions && sessions[t].user != user :: sessions[t]
  }

  function Dropped(tokens: map<Label, nat>, user: nat): map<Label, nat> {
    map t | t in tokens && tokens[t] != user :: tokens[t]
  }

  function Issued(tokens: map<Label, nat>, user: nat, token: Label): map<Label, nat> {
    Dropped(tokens, user)[token := user]
  }

  // Revoke a user's credentials, all of them or one integration's.
  function Unpinned(credentials: seq<Credential>, user: nat, integration: Option<Label>): (r: seq<Credential>)
    ensures |r| == |credentials|
    ensures forall i | 0 <= i < |r| ::
              var c := credentials[i];
              r[i] == if c.user == user && (integration == None || integration == Some(c.integration))
                      then c.(active := false) else c
  {
    seq(|credentials|, i requires 0 <= i < |credentials| =>
      var c := credentials[i];
      if c.user == user && (integration == None || integration == Some(c.integration)) then c.(active := false) else c)
  }

  predicate LoginTaken(accounts: seq<Account>, login: Label) {
    exists i | 0 <= i < |accounts| :: accounts[i].login == login
  }

  predicate OtherAdmin(accounts: seq<Account>, user: nat) {
    exists i | 0 <= i < |accounts| :: i != user && accounts[i].admin && accounts[i].active
  }

  // Accounts that may hold credentials and run reviews.
  predicate Eligible(a: Account) { a.active && !a.admin && a.hash.Some? }

  function Newest(credentials: seq<Credential>, user: nat, integration: Label): nat {
    if credentials == [] then 0
    else
      var c, rest := credentials[0], Newest(credentials[1..], user, integration);
      if c.user == user && c.integration == integration && c.version > rest then c.version else rest
  }

  // ---- The transactions ------------------------------------------------------------------------

  function Created(w: World, login: Label, admin: bool, token: Label): World {
    w.(accounts := w.accounts + [Account(login, admin, true, None, false)],
       tokens := Issued(w.tokens, |w.accounts|, token))
  }

  function Activated(w: World, token: Label, hash: Label): World
    requires token in w.tokens && w.tokens[token] < |w.accounts|
  {
    var user := w.tokens[token];
    w.(accounts := w.accounts[user := w.accounts[user].(hash := Some(hash))],
       sessions := Revoked(w.sessions, user), tokens := w.tokens - {token})
  }

  function LoggedIn(w: World, user: nat, admin: bool, hash: Label, previous: Option<Label>, token: Label): World {
    var kept := if previous.Some? then w.sessions - {previous.value} else w.sessions;
    w.(sessions := kept[token := Session(user, admin, hash)])
  }

  // The change removes an active admin.
  predicate Demotes(a: Account, change: Change) {
    a.admin && a.active
    && (change.Removal? || (change.Role? && !change.admin) || (change.Activity? && !change.active))
  }

  function Changed(a: Account, change: Change): Account {
    match change
    case Role(admin) => a.(admin := admin)
    case Activity(active) => a.(active := active)
    case Recovery(_) => a.(hash := None)
    case Removal => a.(active := false, hash := None, removed := true)
    case Revocation => a
  }

  function Managed(w: World, user: nat, change: Change): World
    requires user < |w.accounts|
  {
    w.(accounts := w.accounts[user := Changed(w.accounts[user], change)],
       sessions := Revoked(w.sessions, user),
       tokens := if change.Recovery? then Issued(w.tokens, user, change.token) else Dropped(w.tokens, user),
       credentials :=
         if change.Recovery? || change.Removal? then Unpinned(w.credentials, user, None) else w.credentials)
  }

  // A refused operation changes nothing.
  predicate Permitted(w: World, op: Op) {
    match op
    case Create(valid, login, _, bootstrap, token) =>
      valid && (bootstrap ==> w.accounts == []) && !LoginTaken(w.accounts, login) && token !in w.tokens
    case Activate(valid, token, _) =>
      valid && token in w.tokens && w.tokens[token] < |w.accounts| && w.accounts[w.tokens[token]].active
    case Login(user, admin, hash, _, token) =>
      user < |w.accounts| && w.accounts[user].active && w.accounts[user].hash == Some(hash)
      && w.accounts[user].admin == admin && token !in w.sessions
    case Manage(user, change) =>
      user < |w.accounts| && !w.accounts[user].removed
      && (Demotes(w.accounts[user], change) ==> OtherAdmin(w.accounts, user))
      && (change.Recovery? ==> change.token !in w.tokens)
    case ChangePassword(user, verified, _) =>
      user < |w.accounts| && w.accounts[user].active && w.accounts[user].hash == Some(verified)
    case Logout(_) => true
    case SaveCredential(user, _) => user < |w.accounts| && Eligible(w.accounts[user])
    case RemoveCredential(user, _) => user < |w.accounts| && Eligible(w.accounts[user])
  }

  function Next(w: World, op: Op): World {
    if !Permitted(w, op) then w
    else
      match op
      case Create(_, login, admin, _, token) => Created(w, login, admin, token)
      case Activate(_, token, hash) => Activated(w, token, hash)
      case Login(user, admin, hash, previous, token) => LoggedIn(w, user, admin, hash, previous, token)
      case Manage(user, change) => Managed(w, user, change)
      case ChangePassword(user, _, hash) =>
        w.(accounts := w.accounts[user := w.accounts[user].(hash := Some(hash))], sessions := Revoked(w.sessions, user))
      case Logout(token) => w.(sessions := w.sessions - {token})
      case SaveCredential(user, integration) =>
        w.(credentials := w.credentials
           + [Credential(user, integration, Newest(w.credentials, user, integration) + 1, true)])
      case RemoveCredential(user, integration) =>
        w.(credentials := Unpinned(w.credentials, user, Some(integration)))
  }

  function Run(w: World, ops: seq<Op>): World
    decreases ops
  {
    if ops == [] then w else Run(Next(w, ops[0]), ops[1..])
  }

  // ---- What every run keeps ----------------------------------------------------------------------

  predicate Governed(accounts: seq<Account>) {
    exists i | 0 <= i < |accounts| :: accounts[i].admin && accounts[i].active
  }

  // A session's account is active and is still what it was when the session was issued.
  predicate Backed(s: Session, accounts: seq<Account>) {
    s.user < |accounts| && accounts[s.user].active && accounts[s.user].admin == s.admin
    && accounts[s.user].hash == Some(s.hash)
  }

  predicate Gone(a: Account) { a.removed ==> !a.active && a.hash == None }

  ghost predicate SessionsBacked(w: World) { forall t <- w.sessions :: Backed(w.sessions[t], w.accounts) }

  ghost predicate TokensOwned(w: World) {
    (forall t <- w.tokens :: w.tokens[t] < |w.accounts| && !w.accounts[w.tokens[t]].removed)
    && forall t, u | t in w.tokens && u in w.tokens && w.tokens[t] == w.tokens[u] :: t == u
  }

  ghost predicate CredentialsHeld(w: World) {
    forall i | 0 <= i < |w.credentials| && w.credentials[i].active ::
      w.credentials[i].user < |w.accounts| && !w.accounts[w.credentials[i].user].removed
  }

  ghost predicate LoginsUnique(accounts: seq<Account>) {
    forall i, j | 0 <= i < j < |accounts| :: accounts[i].login != accounts[j].login
  }

  ghost predicate Sound(w: World) {
    SessionsBacked(w) && TokensOwned(w) && CredentialsHeld(w) && LoginsUnique(w.accounts)
    && forall i | 0 <= i < |w.accounts| :: Gone(w.accounts[i])
  }

  // Accounts are never deleted or renamed, and a removed one stays as it is.
  ghost predicate Kept(before: seq<Account>, after: seq<Account>) {
    |before| <= |after|
    && forall i | 0 <= i < |before| ::
         after[i].login == before[i].login && (before[i].removed ==> after[i] == before[i])
  }

  lemma UpdatedStaysSound(w: World, user: nat, a: Account, tokens: map<Label, nat>, credentials: seq<Credential>)
    requires Sound(w) && user < |w.accounts| && !w.accounts[user].removed
    requires a.login == w.accounts[user].login && Gone(a)
    requires (forall t <- tokens :: (t in w.tokens && tokens[t] == w.tokens[t]) || tokens[t] == user)
    requires forall t, u | t in tokens && u in tokens && tokens[t] == tokens[u] :: t == u
    requires a.removed ==> forall t <- tokens :: tokens[t] != user
    requires |credentials| == |w.credentials|
    requires forall i | 0 <= i < |credentials| :: credentials[i].user == w.credentials[i].user
               && (credentials[i].active ==> w.credentials[i].active && (a.removed ==> credentials[i].user != user))
    ensures var after := World(w.accounts[user := a], Revoked(w.sessions, user), tokens, credentials);
            Sound(after) && Kept(w.accounts, after.accounts)
  {
  }

  lemma CreatedStaysSound(w: World, login: Label, admin: bool, token: Label)
    requires Sound(w) && !LoginTaken(w.accounts, login) && token !in w.tokens
    ensures Sound(Created(w, login, admin, token)) && Kept(w.accounts, Created(w, login, admin, token).accounts)
  {
  }

  lemma LoggedInStaysSound(w: World, user: nat, admin: bool, hash: Label, previous: Option<Label>, token: Label)
    requires Sound(w) && Permitted(w, Login(user, admin, hash, previous, token))
    ensures Sound(LoggedIn(w, user, admin, hash, previous, token))
  {
  }

  lemma ManagedStaysSound(w: World, user: nat, change: Change)
    requires Sound(w) && Permitted(w, Manage(user, change))
    ensures Sound(Managed(w, user, change)) && Kept(w.accounts, Managed(w, user, change).accounts)
  {
    var after := Managed(w, user, change);
    UpdatedStaysSound(w, user, Changed(w.accounts[user], change), after.tokens, after.credentials);
  }

  lemma SavedStaysSound(w: World, user: nat, integration: Label)
    requires Sound(w) && Permitted(w, SaveCredential(user, integration))
    ensures Sound(Next(w, SaveCredential(user, integration)))
  {
  }

  lemma NextStaysSound(w: World, op: Op)
    requires Sound(w)
    ensures Sound(Next(w, op)) && Kept(w.accounts, Next(w, op).accounts)
  {
    if Permitted(w, op) {
      match op
      case Create(_, login, admin, _, token) => CreatedStaysSound(w, login, admin, token);
      case Activate(_, token, hash) =>
        var user := w.tokens[token];
        UpdatedStaysSound(w, user, w.accounts[user].(hash := Some(hash)), w.tokens - {token}, w.credentials);
      case Login(user, admin, hash, previous, token) => LoggedInStaysSound(w, user, admin, hash, previous, token);
      case Manage(user, change) => ManagedStaysSound(w, user, change);
      case ChangePassword(user, _, hash) =>
        UpdatedStaysSound(w, user, w.accounts[user].(hash := Some(hash)), w.tokens, w.credentials);
      case Logout(_) =>
      case SaveCredential(user, integration) => SavedStaysSound(w, user, integration);
      case RemoveCredential(_, _) =>
    }
  }

  lemma NextStaysGoverned(w: World, op: Op)
    requires Governed(w.accounts)
    ensures Governed(Next(w, op).accounts)
  {
    var i :| 0 <= i < |w.accounts| && w.accounts[i].admin && w.accounts[i].active;
    var after := Next(w, op).accounts;
    if op.Manage? && Permitted(w, op) && op.user == i && Demotes(w.accounts[i], op.change) {
      var j :| 0 <= j < |w.accounts| && j != i && w.accounts[j].admin && w.accounts[j].active;
      assert after[j] == w.accounts[j];
    } else {
      assert after[i].admin && after[i].active;
    }
  }

  /** In every reachable state: each login session belongs to an active account that still has
      the role and password hash the session was issued under; an account has at most one
      activation token; and a removed account stays removed, inactive, with no password,
      session, activation token or active credential. */
  lemma {:induction false} RunsStaySound(w: World, ops: seq<Op>)
    requires Sound(w)
    ensures Sound(Run(w, ops)) && Kept(w.accounts, Run(w, ops).accounts)
    decreases ops
  {
    if ops != [] {
      var next := Next(w, ops[0]);
      NextStaysSound(w, ops[0]);
      RunsStaySound(next, ops[1..]);
      assert Kept(w.accounts, next.accounts);
    }
  }

  /** Once some admin is active, in every later state some admin is active. */
  lemma {:induction false} RunsStayGoverned(w: World, ops: seq<Op>)
    requires Governed(w.accounts)
    ensures Governed(Run(w, ops).accounts)
    decreases ops
  {
    if ops != [] {
      NextStaysGoverned(w, ops[0]);
      RunsStayGoverned(Next(w, ops[0]), ops[1..]);
    }
  }

  /** Bootstrap succeeds on an empty table alone, and leaves one active admin. */
  lemma BootstrapGoverns(w: World, login: Label, token: Label)
    requires token !in w.tokens
    ensures var after := Next(w, Create(true, login, true, true, token));
            if w.accounts == [] then Governed(after.accounts) && |after.accounts| == 1 else after == w
  {
    if w.accounts == [] {
      var first := Next(w, Create(true, login, true, true, token)).accounts[0];
      assert first.admin && first.active;
    }
  }

  /** What a removed account leaves behind, spelled out for every later state. */
  lemma RemovalIsComplete(w: World, ops: seq<Op>, user: nat)
    requires Sound(w) && user < |w.accounts| && w.accounts[user].removed
    ensures var after := Run(w, ops);
            user < |after.accounts| && after.accounts[user] == w.accounts[user]
            && !after.accounts[user].active && after.accounts[user].hash == None
            && (forall t <- after.sessions :: after.sessions[t].user != user)
            && (forall t <- after.tokens :: after.tokens[t] != user)
            && (forall i | 0 <= i < |after.credentials| && after.credentials[i].user == user ::
                  !after.credentials[i].active)
  {
    RunsStaySound(w, ops);
    var after := Run(w, ops);
    assert Gone(after.accounts[user]);
    forall t | t in after.sessions ensures after.sessions[t].user != user {
      assert Backed(after.sessions[t], after.accounts);
    }
  }
}
