// internal/service/auth_user.go: registration, login and refresh-token rotation. Hashing and token
// generation are outside the model: hash stands for HashToken, verify for the password check, and
// what the generators return is an input of each call.
module Accounts {
  import opened Wrappers
  import opened Tables
  import opened Store
  import Text

  const MIN_PASSWORD_LENGTH := 8

  // lifetime is the configured life of a refresh token.
  datatype Config = Config(hash: string -> string, verify: (string, string) -> bool, lifetime: int)

  // What the access-token and refresh-token generators return; None when they fail.
  datatype Supply = Supply(access: Option<string>, refresh: Option<string>)

  datatype Call = UserCreate | NamespaceCreate | UserByMail | UserById | TokenCreate | TokenGet | TokenDelete

  datatype Reason = InvalidInput | Unauthorized | Conflict | Internal

  datatype Outcome = Granted(userId: int, access: string, refresh: string) | Refused(reason: Reason)

  datatype Step = Step(db: Db, seqs: Sequences, outcome: Outcome)

  // ----- What each call does to the tables -----

  ghost function Issue(db: Db, seqs: Sequences, c: Config, userId: int, now: int, supply: Supply,
                       faults: set<Call>): Step {
    if supply.access.None? || supply.refresh.None? || TokenCreate in faults then Step(db, seqs, Refused(Internal))
    else
      match InsertToken(db, seqs, Token(userId, c.hash(supply.refresh.value), now + c.lifetime))
      case Err(_) => Step(db, seqs, Refused(Internal))
      case Ok(r) => Step(r.db, r.seqs, Granted(userId, supply.access.value, supply.refresh.value))
  }

  // A failing namespace insert does not stop the registration.
  ghost function Registered(db: Db, seqs: Sequences, email: string, userId: int, faults: set<Call>): (Db, Sequences) {
    if NamespaceCreate in faults then (db, seqs)
    else
      match InsertNamespace(db, seqs, Text.LocalPart(email), "user", userId)
      case Err(_) => (db, seqs)
      case Ok(r) => (r.db, r.seqs)
  }

  ghost function Register(db: Db, seqs: Sequences, c: Config, email: string, password: string, hashed: Option<string>,
                          now: int, supply: Supply, faults: set<Call>): Step {
    if |password| < MIN_PASSWORD_LENGTH then Step(db, seqs, Refused(InvalidInput))
    else if hashed.None? then Step(db, seqs, Refused(Internal))
    else if UserCreate in faults then Step(db, seqs, Refused(Conflict))
    else
      match InsertUser(db, seqs, User(email, hashed.value))
      case Err(_) => Step(db, seqs, Refused(Conflict))
      case Ok(r) =>
        var (db', seqs') := Registered(r.db, r.seqs, email, r.id, faults);
        Issue(db', seqs', c, r.id, now, supply, faults)
  }

  ghost function Login(db: Db, seqs: Sequences, c: Config, email: string, password: string, now: int, supply: Supply,
                       faults: set<Call>): Step {
    if UserByMail in faults then Step(db, seqs, Refused(Internal))
    else
      match UserByEmail(db, email)
      case Err(e) => Step(db, seqs, Refused(if e == NotFound then Unauthorized else Internal))
      case Ok(id) =>
        if !c.verify(db.users[id].passwordHash, password) then Step(db, seqs, Refused(Unauthorized))
        else Issue(db, seqs, c, id, now, supply, faults)
  }

  ghost function Without(db: Db, id: int, faults: set<Call>): Db {
    if TokenDelete in faults then db else db.(tokens := db.tokens - {id})
  }

  ghost function Refresh(db: Db, seqs: Sequences, c: Config, raw: string, now: int, supply: Supply,
                         faults: set<Call>): Step {
    if raw == "" then Step(db, seqs, Refused(InvalidInput))
    else if TokenGet in faults then Step(db, seqs, Refused(Internal))
    else
      match TokenByHash(db, c.hash(raw))
      case Err(e) => Step(db, seqs, Refused(if e == NotFound then Unauthorized else Internal))
      case Ok(id) =>
        var row := db.tokens[id];
        var rest := Without(db, id, faults);
        if now > row.expiresAt then Step(rest, seqs, Refused(Unauthorized))
        else if UserById in faults || row.userId !in db.users then Step(rest, seqs, Refused(Internal))
        else Issue(rest, seqs, c, row.userId, now, supply, faults)
  }

  // ----- What each call promises -----

  // Both tokens can be generated, and the store takes the new one.
  ghost predicate Issuable(db: Db, c: Config, userId: int, supply: Supply, faults: set<Call>) {
    && supply.access.Some? && supply.refresh.Some? && TokenCreate !in faults && userId in db.users
    && c.hash(supply.refresh.value) != ""
    && forall i | i in db.tokens :: db.tokens[i].hash != c.hash(supply.refresh.value)
  }

  // One row more, that of the token that is handed out; or nothing changes.
  lemma Issues(db: Db, seqs: Sequences, c: Config, userId: int, now: int, supply: Supply, faults: set<Call>)
    ensures var r := Issue(db, seqs, c, userId, now, supply, faults);
      if Issuable(db, c, userId, supply, faults) then
        var row := Token(userId, c.hash(supply.refresh.value), now + c.lifetime);
        && r.outcome == Granted(userId, supply.access.value, supply.refresh.value)
        && r.db == db.(tokens := db.tokens[seqs.token + 1 := row]) && r.seqs == seqs.(token := seqs.token + 1)
      else r == Step(db, seqs, Refused(Internal))
  {
    hide InsertToken;
    if supply.refresh.Some? {
      TokenAccepted(db, seqs, Token(userId, c.hash(supply.refresh.value), now + c.lifetime));
    }
  }

  // A login is granted exactly for a known address with the right password, and then for that user; a wrong
  // password and an unknown address are refused in the same way. Only a granted one changes a table.
  lemma Logins(db: Db, seqs: Sequences, c: Config, email: string, password: string, now: int, supply: Supply,
               faults: set<Call>)
    requires Sound(db)
    ensures var r := Login(db, seqs, c, email, password, now, supply, faults);
      && (forall id | id in db.users && db.users[id].email == email ::
            if UserByMail in faults then r == Step(db, seqs, Refused(Internal))
            else if c.verify(db.users[id].passwordHash, password) then r == Issue(db, seqs, c, id, now, supply, faults)
            else r == Step(db, seqs, Refused(Unauthorized)))
      && ((forall id | id in db.users :: db.users[id].email != email) ==>
            r == Step(db, seqs, Refused(if UserByMail in faults then Internal else Unauthorized)))
  {
    hide Issue, Only, RefsHold, Named;
    forall id | id in db.users && db.users[id].email == email ensures UserByEmail(db, email) == Ok(id) {
      OnlyFinds(UserKeys(db.users), id);
    }
    if forall id | id in db.users :: db.users[id].email != email {
      assert UserByEmail(db, email) == Err(NotFound);
    }
  }

  // A registration with a long enough password and a new address creates the user, whatever fails later, and
  // the namespace named by the address's local part if that name is free; then it issues tokens. Any other
  // changes nothing.
  lemma Registers(db: Db, seqs: Sequences, c: Config, email: string, password: string, hashed: Option<string>,
                  now: int, supply: Supply, faults: set<Call>)
    requires Sound(db) && Bounded(db, seqs)
    ensures var r, name := Register(db, seqs, c, email, password, hashed, now, supply, faults), Text.LocalPart(email);
      if |password| < 8 then r == Step(db, seqs, Refused(InvalidInput))
      else if hashed.None? then r == Step(db, seqs, Refused(Internal))
      else if UserCreate in faults || email == "" || hashed.value == ""
              || exists i :: i in db.users && db.users[i].email == email
      then r == Step(db, seqs, Refused(Conflict))
      else
        var id := seqs.user + 1;
        var db1, seqs1 := db.(users := db.users[id := User(email, hashed.value)]), seqs.(user := id);
        if NamespaceCreate in faults || name == "" || exists i :: i in db.namespaces && db.namespaces[i].name == name
        then r == Issue(db1, seqs1, c, id, now, supply, faults)
        else
          var row := Namespace(name, "user", Some(id));
          var db2 := db1.(namespaces := db.namespaces[seqs.namespace + 1 := row]);
          r == Issue(db2, seqs1.(namespace := seqs.namespace + 1), c, id, now, supply, faults)
  {
    hide Issue, InsertUser, InsertNamespace, Sound;
    if hashed.Some? {
      var id := seqs.user + 1;
      var db1, seqs1 := db.(users := db.users[id := User(email, hashed.value)]), seqs.(user := id);
      UserAccepted(db, seqs, User(email, hashed.value));
      NamespaceAccepted(db1, seqs1, Text.LocalPart(email), "user", id);
    }
  }

  // A refresh removes the token it is given, if it exists and the delete does not fail, whatever comes after:
  // also when the token has expired and when its owner cannot be looked up.
  lemma Refreshes(db: Db, seqs: Sequences, c: Config, raw: string, now: int, supply: Supply, faults: set<Call>)
    requires Sound(db)
    ensures var r := Refresh(db, seqs, c, raw, now, supply, faults);
      if raw == "" then r == Step(db, seqs, Refused(InvalidInput))
      else if TokenGet in faults then r == Step(db, seqs, Refused(Internal))
      else
        && ((forall i | i in db.tokens :: db.tokens[i].hash != c.hash(raw)) ==>
              r == Step(db, seqs, Refused(Unauthorized)))
        && forall id | id in db.tokens && db.tokens[id].hash == c.hash(raw) ::
             var left := if TokenDelete in faults then db else db.(tokens := db.tokens - {id});
             var userId := db.tokens[id].userId;
             if db.tokens[id].expiresAt < now then r == Step(left, seqs, Refused(Unauthorized))
             else if UserById in faults then r == Step(left, seqs, Refused(Internal))
             else r == Issue(left, seqs, c, userId, now, supply, faults)
  {
    hide Issue, Only, Named;
    forall id | id in db.tokens && db.tokens[id].hash == c.hash(raw) ensures TokenByHash(db, c.hash(raw)) == Ok(id) {
      OnlyFinds(TokenKeys(db.tokens), id);
    }
    if forall i | i in db.tokens :: db.tokens[i].hash != c.hash(raw) {
      assert TokenByHash(db, c.hash(raw)) == Err(NotFound);
    }
  }

  class UserService {
    const store: Adapter
    const config: Config

    constructor (store: Adapter, config: Config)
      ensures this.store == store && this.config == config
    {
      this.store := store;
      this.config := config;
    }

    method IssueTokens(userId: int, now: int, supply: Supply, faults: set<Call>) returns (r: Outcome)
      modifies store
      ensures Step(store.db, store.seqs, r) ==
        Issue(old(store.db), old(store.seqs), config, userId, now, supply, faults)
    {
      if supply.access.None? { return Refused(Internal); }
      if supply.refresh.None? { return Refused(Internal); }
      var refreshHash := config.hash(supply.refresh.value);
      var created := store.RefreshTokenCreate(userId, refreshHash, now + config.lifetime, TokenCreate in faults);
      if created.Err? { return Refused(Internal); }
      return Granted(userId, supply.access.value, supply.refresh.value);
    }

    method RegisterUser(email: string, password: string, hashed: Option<string>, now: int, supply: Supply,
                        faults: set<Call>)
      returns (r: Outcome)
      modifies store
      ensures Step(store.db, store.seqs, r) ==
        Register(old(store.db), old(store.seqs), config, email, password, hashed, now, supply, faults)
    {
      if |password| < MIN_PASSWORD_LENGTH { return Refused(InvalidInput); }
      if hashed.None? { return Refused(Internal); }
      var user := store.UserCreate(email, hashed.value, UserCreate in faults);
      if user.Err? { return Refused(Conflict); }
      var _ := store.NamespaceCreate(Text.LocalPart(email), "user", user.value, NamespaceCreate in faults);
      r := IssueTokens(user.value, now, supply, faults);
    }

    method LoginUser(email: string, password: string, now: int, supply: Supply, faults: set<Call>) returns (r: Outcome)
      modifies store
      ensures Step(store.db, store.seqs, r) ==
        Login(old(store.db), old(store.seqs), config, email, password, now, supply, faults)
      ensures var user := UserByEmail(old(store.db), email);
        UserByMail !in faults && user.Ok? ==>
          if config.verify(old(store.db).users[user.value].passwordHash, password)
          then r.Granted? <==> Issuable(old(store.db), config, user.value, supply, faults)
          else r == Refused(Unauthorized)
      // A grant is for a row with this address, and for the right password alone.
      ensures r.Granted? ==>
        && r.userId in old(store.db).users && old(store.db).users[r.userId].email == email
        && config.verify(old(store.db).users[r.userId].passwordHash, password)
      ensures r.Refused? ==> store.db == old(store.db) && store.seqs == old(store.seqs)
    {
      var user := store.UserGetByEmail(email, UserByMail in faults);
      if user.Err? { return Refused(if user.error == NotFound then Unauthorized else Internal); }
      Issues(store.db, store.seqs, config, user.value, now, supply, faults);
      if !config.verify(store.db.users[user.value].passwordHash, password) { return Refused(Unauthorized); }
      r := IssueTokens(user.value, now, supply, faults);
    }

    method RefreshToken(raw: string, now: int, supply: Supply, faults: set<Call>) returns (r: Outcome)
      modifies store
      ensures Step(store.db, store.seqs, r) == Refresh(old(store.db), old(store.seqs), config, raw, now, supply, faults)
    {
      if raw == "" { return Refused(InvalidInput); }
      var found := store.RefreshTokenGetByHash(config.hash(raw), TokenGet in faults);
      if found.Err? { return Refused(if found.error == NotFound then Unauthorized else Internal); }
      var row := store.db.tokens[found.value];
      if now > row.expiresAt {
        var _ := store.RefreshTokenDeleteByID(found.value, TokenDelete in faults);
        return Refused(Unauthorized);
      }
      // A failing delete is only logged.
      var _ := store.RefreshTokenDeleteByID(found.value, TokenDelete in faults);
      var user := store.UserGetByID(row.userId, UserById in faults);
      if user.Err? { return Refused(Internal); }
      r := IssueTokens(row.userId, now, supply, faults);
    }
  }
}
