// The account calls of Accounts, seen from the server machine: each of them is a series of the machine's
// single-statement events, so what holds of every run of the machine holds with any such calls in it.
module AccountRuns {
  import opened Wrappers
  import opened Tables
  import opened Server
  import opened Runs
  import Accounts
  import Sessions
  import Text

  ghost predicate AccountEvent(e: Event) {
    e.CreateUser? || e.ClaimNamespace? || e.CreateToken? || e.RemoveToken? || e.PurgeTokens?
  }

  // These account events turn the tables and sequences of s into db and seqs, and change nothing else.
  ghost predicate Reaches(s: State, es: seq<Event>, db: Db, seqs: Sequences) {
    (forall i | 0 <= i < |es| :: AccountEvent(es[i])) && Run(s, es) == s.(db := db, seqs := seqs)
  }

  lemma NoEvent(s: State)
    ensures Reaches(s, [], s.db, s.seqs)
  {
  }

  lemma OneMore(s: State, es: seq<Event>, db: Db, seqs: Sequences, e: Event)
    requires Reaches(s, es, db, seqs) && AccountEvent(e)
    ensures var s' := Next(s.(db := db, seqs := seqs), e); Reaches(s, es + [e], s'.db, s'.seqs)
  {
    hide Only, InsertUser, InsertNamespace, InsertToken, DeleteExpired, NsBusy;
    assert (es + [e])[..|es|] == es;
  }

  lemma IssueRun(s: State, es: seq<Event>, c: Accounts.Config, db: Db, seqs: Sequences, userId: int, now: int,
                 supply: Accounts.Supply, faults: set<Accounts.Call>)
    returns (es': seq<Event>)
    requires Reaches(s, es, db, seqs)
    ensures var r := Accounts.Issue(db, seqs, c, userId, now, supply, faults); Reaches(s, es', r.db, r.seqs)
  {
    hide Reaches, InsertToken;
    es' := es;
    if supply.access.Some? && supply.refresh.Some? && Accounts.TokenCreate !in faults {
      var e := CreateToken(Token(userId, c.hash(supply.refresh.value), now + c.lifetime));
      OneMore(s, es, db, seqs, e);
      es' := es + [e];
    }
  }

  lemma RegisterRun(s: State, c: Accounts.Config, email: string, password: string, hashed: Option<string>, now: int,
                    supply: Accounts.Supply, faults: set<Accounts.Call>)
    returns (es: seq<Event>)
    requires Sound(s.db) && Bounded(s.db, s.seqs) && !NsBusy(s.txs, Text.LocalPart(email))
    ensures var r := Accounts.Register(s.db, s.seqs, c, email, password, hashed, now, supply, faults);
      Reaches(s, es, r.db, r.seqs)
  {
    hide Reaches, InsertUser, InsertNamespace, NsBusy, Sound, Bounded, Accounts.Issue;
    es := [];
    NoEvent(s);
    if |password| < 8 || hashed.None? || Accounts.UserCreate in faults { return; }
    var row := User(email, hashed.value);
    var u := InsertUser(s.db, s.seqs, row);
    if u.Err? { return; }
    UserAccepted(s.db, s.seqs, row);
    OneMore(s, es, s.db, s.seqs, CreateUser(row));
    es := es + [CreateUser(row)];
    var r := Accounts.Registered(u.value.db, u.value.seqs, email, u.value.id, faults);
    if Accounts.NamespaceCreate !in faults {
      OneMore(s, es, u.value.db, u.value.seqs, ClaimNamespace(u.value.id));
      es := es + [ClaimNamespace(u.value.id)];
    }
    es := IssueRun(s, es, c, r.0, r.1, u.value.id, now, supply, faults);
  }

  lemma LoginRun(s: State, c: Accounts.Config, email: string, password: string, now: int, supply: Accounts.Supply,
                 faults: set<Accounts.Call>)
    returns (es: seq<Event>)
    ensures var r := Accounts.Login(s.db, s.seqs, c, email, password, now, supply, faults);
      Reaches(s, es, r.db, r.seqs)
  {
    hide Reaches, Only, Accounts.Issue;
    NoEvent(s);
    var u := UserByEmail(s.db, email);
    if Accounts.UserByMail in faults || u.Err? || !c.verify(s.db.users[u.value].passwordHash, password) {
      return [];
    }
    es := IssueRun(s, [], c, s.db, s.seqs, u.value, now, supply, faults);
  }

  lemma RefreshRun(s: State, c: Accounts.Config, raw: string, now: int, supply: Accounts.Supply,
                   faults: set<Accounts.Call>)
    returns (es: seq<Event>)
    ensures var r := Accounts.Refresh(s.db, s.seqs, c, raw, now, supply, faults); Reaches(s, es, r.db, r.seqs)
  {
    hide Reaches, Only, Accounts.Issue;
    NoEvent(s);
    var t := TokenByHash(s.db, c.hash(raw));
    if raw == "" || Accounts.TokenGet in faults || t.Err? { return []; }
    es := [];
    var row, left := s.db.tokens[t.value], Accounts.Without(s.db, t.value, faults);
    if Accounts.TokenDelete !in faults {
      OneMore(s, es, s.db, s.seqs, RemoveToken(t.value));
      es := es + [RemoveToken(t.value)];
    }
    if now > row.expiresAt || Accounts.UserById in faults || row.userId !in s.db.users { return; }
    es := IssueRun(s, es, c, left, s.seqs, row.userId, now, supply, faults);
  }

  // Every account call, whatever fails in it, is a series of events of the machine; a registration as long as
  // no open publish holds the name of its namespace.
  lemma CallIsRun(s: State, c: Accounts.Config, w: Sessions.World, e: Sessions.Event) returns (es: seq<Event>)
    requires Sound(s.db) && Bounded(s.db, s.seqs) && w.db == s.db && w.seqs == s.seqs
    requires e.Register? ==> !NsBusy(s.txs, Text.LocalPart(e.email))
    ensures var r := Sessions.Answer(c, w, e); Reaches(s, es, r.db, r.seqs)
  {
    hide Reaches, Sound, Bounded, NsBusy, Accounts.Register, Accounts.Login, Accounts.Refresh, DeleteExpired;
    NoEvent(s);
    match e
    case Register(email, password, hashed, supply, faults) =>
      es := RegisterRun(s, c, email, password, hashed, w.now, supply, faults);
    case Login(email, password, supply, faults) => es := LoginRun(s, c, email, password, w.now, supply, faults);
    case Refresh(raw, supply, faults) => es := RefreshRun(s, c, raw, w.now, supply, faults);
    case Purge =>
      OneMore(s, [], s.db, s.seqs, PurgeTokens(w.now));
      es := [] + [PurgeTokens(w.now)];
    case Tick(_) => es := [];
  }

  lemma {:induction false} Then(s: State, a: seq<Event>, b: seq<Event>)
    ensures Run(s, a + b) == Run(Run(s, a), b)
    decreases |b|
  {
    hide Next;
    if b == [] {
      assert a + b == a;
    } else {
      assert (a + b)[..|a + b| - 1] == a + b[..|b| - 1];
      Then(s, a, b[..|b| - 1]);
    }
  }

  // A whole run of account calls is a run of the machine.
  lemma {:induction false} SessionIsRun(c: Accounts.Config, w: Sessions.World, es: seq<Sessions.Event>)
    returns (fs: seq<Event>)
    requires Sessions.Books(c, w) && Sessions.Valid(c, w, es)
    ensures var w' := Sessions.Run(c, w, es); Reaches(Start(w.db, w.seqs), fs, w'.db, w'.seqs)
    decreases |es|
  {
    hide Sessions.Answer, Sessions.Fresh, Sessions.Record, Sound, Bounded, Next;
    var s := Start(w.db, w.seqs);
    if es == [] {
      NoEvent(s);
      fs := [];
    } else {
      var before := es[..|es| - 1];
      var mid := Sessions.Run(c, w, before);
      Sessions.RunBooks(c, w, before);
      var a := SessionIsRun(c, w, before);
      var b := CallIsRun(Start(mid.db, mid.seqs), c, mid, es[|es| - 1]);
      Then(s, a, b);
      fs := a + b;
    }
  }
}
