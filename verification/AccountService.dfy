/** The account service as an object whose transactions update tables in place. */
module AccountService {
  import opened Sequences
  import opened Accounts

  // What a login reads before it verifies the password, outside any transaction.
  datatype Snapshot = Snapshot(user: nat, admin: bool, hash: Label)

  class Service {
    var accounts: seq<Account>
    var sessions: map<Label, Session>
    var tokens: map<Label, nat>
    var credentials: seq<Credential>

    ghost function State(): World
      reads this
    {
      World(accounts, sessions, tokens, credentials)
    }

    constructor ()
      ensures State() == EMPTY
    {
      accounts, sessions, tokens, credentials := [], map[], map[], [];
    }

    method Issue(user: nat, token: Label)
      modifies this`tokens
      ensures tokens == Issued(old(tokens), user, token)
    {
      tokens := Dropped(tokens, user);
      tokens := tokens[token := user];
    }

    method Create(valid: bool, login: Label, admin: bool, bootstrap: bool, token: Label) returns (ok: bool)
      modifies this
      ensures State() == Next(old(State()), Op.Create(valid, login, admin, bootstrap, token))
      ensures ok <==> Permitted(old(State()), Op.Create(valid, login, admin, bootstrap, token))
    {
      if !valid || (bootstrap && accounts != []) || token in tokens {
        return false;
      }
      for i := 0 to |accounts|
        invariant forall j | 0 <= j < i :: accounts[j].login != login
      {
        if accounts[i].login == login {
          return false;
        }
      }
      Issue(|accounts|, token);
      accounts := accounts + [Account(login, admin, true, None, false)];
      return true;
    }

    method Activate(valid: bool, token: Label, hash: Label) returns (ok: bool)
      modifies this
      ensures State() == Next(old(State()), Op.Activate(valid, token, hash))
      ensures ok <==> Permitted(old(State()), Op.Activate(valid, token, hash))
    {
      if !valid || token !in tokens || tokens[token] >= |accounts| || !accounts[tokens[token]].active {
        return false;
      }
      var user := tokens[token];
      accounts := accounts[user := accounts[user].(hash := Some(hash))];
      sessions := Revoked(sessions, user);
      tokens := tokens - {token};
      return true;
    }

    // The account a login names; creation keeps logins distinct.
    ghost predicate Names(login: Label, user: nat)
      reads this
    {
      user < |accounts| && accounts[user].login == login && forall j | 0 <= j < user :: accounts[j].login != login
    }

    // First half of a login: `verified` says the given password matches a stored hash.
    method Begin(login: Label, verified: Label -> bool) returns (s: Option<Snapshot>)
      ensures s.Some? <==> exists user | 0 <= user < |accounts| ::
                Names(login, user) && accounts[user].active && accounts[user].hash.Some?
                  && verified(accounts[user].hash.value)
      ensures s.Some? ==>
                Names(login, s.value.user)
                && accounts[s.value.user].hash == Some(s.value.hash) && accounts[s.value.user].admin == s.value.admin
    {
      for i := 0 to |accounts|
        invariant forall j | 0 <= j < i :: accounts[j].login != login
      {
        var a := accounts[i];
        if a.login == login {
          assert Names(login, i);
          if a.active && a.hash.Some? && verified(a.hash.value) {
            return Some(Snapshot(i, a.admin, a.hash.value));
          }
          return None;
        }
      }
      return None;
    }

    // Second half, in a later transaction: refused if the account changed in between.
    method Commit(s: Snapshot, previous: Option<Label>, token: Label) returns (ok: bool)
      modifies this`sessions
      ensures State() == Next(old(State()), Op.Login(s.user, s.admin, s.hash, previous, token))
      ensures ok <==> Permitted(old(State()), Op.Login(s.user, s.admin, s.hash, previous, token))
    {
      if s.user >= |accounts| || token in sessions {
        return false;
      }
      var current := accounts[s.user];
      if !current.active || current.hash != Some(s.hash) || current.admin != s.admin {
        return false;
      }
      if previous.Some? {
        sessions := sessions - {previous.value};
      }
      sessions := sessions[token := Session(s.user, s.admin, s.hash)];
      return true;
    }

    method HasOtherAdmin(user: nat) returns (found: bool)
      ensures found == OtherAdmin(accounts, user)
    {
      for i := 0 to |accounts|
        invariant forall j | 0 <= j < i :: !(j != user && accounts[j].admin && accounts[j].active)
      {
        if i != user && accounts[i].admin && accounts[i].active {
          return true;
        }
      }
      return false;
    }

    method Manage(user: nat, change: Change) returns (ok: bool)
      modifies this
      ensures State() == Next(old(State()), Op.Manage(user, change))
      ensures ok <==> Permitted(old(State()), Op.Manage(user, change))
    {
      if user >= |accounts| || accounts[user].removed || (change.Recovery? && change.token in tokens) {
        return false;
      }
      var account := accounts[user];
      var removing := change.Removal? || (change.Role? && !change.admin) || (change.Activity? && !change.active);
      if account.admin && account.active && removing {
        var others := HasOtherAdmin(user);
        if !others {
          return false;
        }
      }
      match change {
        case Role(admin) => account := account.(admin := admin);
        case Activity(active) => account := account.(active := active);
        case Recovery(_) =>
          credentials := Unpinned(credentials, user, None);
          account := account.(hash := None);
        case Removal =>
          credentials := Unpinned(credentials, user, None);
          account := account.(active := false, hash := None, removed := true);
        case Revocation =>
      }
      accounts := accounts[user := account];
      sessions := Revoked(sessions, user);
      if change.Recovery? {
        Issue(user, change.token);
      } else {
        tokens := Dropped(tokens, user);
      }
      return true;
    }

    method ChangePassword(user: nat, verified: Label, hash: Label) returns (ok: bool)
      modifies this
      ensures State() == Next(old(State()), Op.ChangePassword(user, verified, hash))
      ensures ok <==> Permitted(old(State()), Op.ChangePassword(user, verified, hash))
    {
      if user >= |accounts| || !accounts[user].active || accounts[user].hash != Some(verified) {
        return false;
      }
      accounts := accounts[user := accounts[user].(hash := Some(hash))];
      sessions := Revoked(sessions, user);
      return true;
    }

    method Logout(token: Label)
      modifies this`sessions
      ensures State() == Next(old(State()), Op.Logout(token))
    {
      sessions := sessions - {token};
    }
  }
}
