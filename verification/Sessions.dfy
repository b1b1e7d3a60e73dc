// Runs of registrations, logins, refreshes and purges under a clock that never goes back. A history
// remembers every refresh token issued and what became of it.
module Sessions {
  import opened Wrappers
  import opened Tables
  import Accounts
  import Text

  // parent is the token that was exchanged for this one.
  datatype Issued = Issued(raw: string, userId: int, expiresAt: int, parent: Option<int>)

  // exchanged: a refresh succeeded with it. spent: such a refresh also removed it. lost: a refresh removed
  // it and then failed. expired: removed after its expiry, by a refresh or a purge.
  datatype History = History(issued: map<int, Issued>, exchanged: set<int>, spent: set<int>,
                             lost: set<int>, expired: set<int>)

  datatype World = World(db: Db, seqs: Sequences, now: int, h: History)

  datatype Event =
    | Register(email: string, password: string, hashed: Option<string>,
               supply: Accounts.Supply, faults: set<Accounts.Call>)
    | Login(email: string, password: string, supply: Accounts.Supply, faults: set<Accounts.Call>)
    | Refresh(raw: string, supply: Accounts.Supply, faults: set<Accounts.Call>)
    | Purge
    | Tick(d: nat)

  ghost function Answer(c: Accounts.Config, w: World, e: Event): Accounts.Step {
    match e
    case Register(email, password, hashed, supply, faults) =>
      Accounts.Register(w.db, w.seqs, c, email, password, hashed, w.now, supply, faults)
    case Login(email, password, supply, faults) =>
      Accounts.Login(w.db, w.seqs, c, email, password, w.now, supply, faults)
    case Refresh(raw, supply, faults) => Accounts.Refresh(w.db, w.seqs, c, raw, w.now, supply, faults)
    case Purge => Accounts.Step(DeleteExpired(w.db, w.now), w.seqs, Accounts.Refused(Accounts.Internal))
    case Tick(_) => Accounts.Step(w.db, w.seqs, Accounts.Refused(Accounts.Internal))
  }

  ghost function Record(c: Accounts.Config, w: World, e: Event): History {
    var step := Answer(c, w, e);
    var gone := set i | i in w.db.tokens && i !in step.db.tokens;
    var granted := step.outcome.Granted?;
    var source := if e.Refresh? && granted then Some(TokenByHash(w.db, c.hash(e.raw))) else None;
    var parent := if source.Some? && source.value.Ok? then Some(source.value.value) else None;
    var issued :=
      if granted then
        w.h.issued[step.seqs.token := Issued(step.outcome.refresh, step.outcome.userId, w.now + c.lifetime, parent)]
      else w.h.issued;
    var late := set i | i in gone && w.db.tokens[i].expiresAt < w.now;
    History(issued,
            w.h.exchanged + (if parent.Some? then {parent.value} else {}),
            w.h.spent + (if parent.Some? && parent.value in gone then {parent.value} else {}),
            w.h.lost + (if granted then {} else set i | i in gone && i !in late),
            w.h.expired + late)
  }

  ghost function Next(c: Accounts.Config, w: World, e: Event): World {
    var step := Answer(c, w, e);
    World(step.db, step.seqs, if e.Tick? then w.now + e.d else w.now, Record(c, w, e))
  }

  ghost function Run(c: Accounts.Config, w: World, es: seq<Event>): World
    decreases |es|
  {
    if es == [] then w else Next(c, Run(c, w, es[..|es| - 1]), es[|es| - 1])
  }

  // ----- Assumptions on the environment -----

  function Hashes(c: Accounts.Config, issued: map<int, Issued>): map<int, string> {
    map i | i in issued :: c.hash(issued[i].raw)
  }

  // A generated token is new, and hashing keeps it apart from the issued ones.
  ghost predicate Fresh(c: Accounts.Config, w: World, e: Event) {
    (e.Register? || e.Login? || e.Refresh?) && e.supply.refresh.Some? ==>
      forall i | i in w.h.issued :: Hashes(c, w.h.issued)[i] != c.hash(e.supply.refresh.value)
  }

  ghost predicate Valid(c: Accounts.Config, w: World, es: seq<Event>)
    decreases |es|
  {
    es == [] || (Valid(c, w, es[..|es| - 1]) && Fresh(c, Run(c, w, es[..|es| - 1]), es[|es| - 1]))
  }

  // ----- What every run keeps -----

  ghost predicate Books(c: Accounts.Config, w: World) {
    && Sound(w.db) && Bounded(w.db, w.seqs)
    && (forall i | i in w.h.issued :: 1 <= i <= w.seqs.token)
    && Injective(Hashes(c, w.h.issued))
    && (forall i | i in w.db.tokens :: i in w.h.issued
          && w.db.tokens[i] == Token(w.h.issued[i].userId, c.hash(w.h.issued[i].raw), w.h.issued[i].expiresAt))
    && (forall i | i in w.h.issued && w.h.issued[i].parent.Some? :: Descends(w.h, i))
  }

  ghost predicate Descends(h: History, i: int)
    requires i in h.issued && h.issued[i].parent.Some?
  {
    var p := h.issued[i].parent.value;
    p in h.issued && p < i && p in h.exchanged && h.issued[p].userId == h.issued[i].userId
  }

  // The live rows are the tokens issued less those spent, lost and expired, and no token is two of these.
  ghost predicate Balanced(w: World) {
    var h := w.h;
    && (forall i | i in h.exchanged :: i in h.issued)
    && (forall i | i in h.spent :: i in h.exchanged && i !in h.lost && i !in h.expired)
    && (forall i | i in h.lost :: i in h.issued && i !in h.expired)
    && (forall i | i in h.expired :: i in h.issued)
    && (forall i :: i in w.db.tokens <==> i in h.issued && i !in h.spent && i !in h.lost && i !in h.expired)
  }

  // ----- Steps keep the books -----

  // A step that issues nothing and only removes tokens.
  lemma BooksShrink(c: Accounts.Config, w: World, w': World)
    requires Books(c, w) && Sound(w'.db) && Bounded(w'.db, w'.seqs)
    requires w'.h.issued == w.h.issued && w.h.exchanged <= w'.h.exchanged && w.seqs.token <= w'.seqs.token
    requires forall i | i in w'.db.tokens :: i in w.db.tokens && w'.db.tokens[i] == w.db.tokens[i]
    ensures Books(c, w')
  {
    hide Sound, Bounded, Injective;
    forall i | i in w'.h.issued && w'.h.issued[i].parent.Some? ensures Descends(w'.h, i) { assert Descends(w.h, i); }
  }

  // A step that issues one token and may remove others.
  lemma BooksGrant(c: Accounts.Config, w: World, w': World, x: Issued)
    requires Books(c, w) && Sound(w'.db) && Bounded(w'.db, w'.seqs)
    requires w'.seqs.token == w.seqs.token + 1 && w'.h.issued == w.h.issued[w'.seqs.token := x]
    requires w.h.exchanged <= w'.h.exchanged
    requires forall i | i in w.h.issued :: Hashes(c, w.h.issued)[i] != c.hash(x.raw)
    requires forall i | i in w'.db.tokens ::
      if i == w'.seqs.token then w'.db.tokens[i] == Token(x.userId, c.hash(x.raw), x.expiresAt)
      else i in w.db.tokens && w'.db.tokens[i] == w.db.tokens[i]
    requires x.parent.Some? ==>
      x.parent.value in w.h.issued && x.parent.value in w'.h.exchanged && w.h.issued[x.parent.value].userId == x.userId
    ensures Books(c, w')
  {
    hide Sound, Bounded, Only;
    var id := w'.seqs.token;
    assert Hashes(c, w'.h.issued) == Hashes(c, w.h.issued)[id := c.hash(x.raw)];
    assert Only(Hashes(c, w.h.issued), c.hash(x.raw)) == Err(NotFound);
    KeyAdded(Hashes(c, w.h.issued), id, c.hash(x.raw));
    hide Injective;
    forall i | i in w'.h.issued && w'.h.issued[i].parent.Some? ensures Descends(w'.h, i) {
      if i != id { assert Descends(w.h, i); }
    }
  }

  // What issuing does: one new row under the next id, or nothing.
  lemma IssueFacts(db: Db, seqs: Sequences, c: Accounts.Config, userId: int, now: int,
                   supply: Accounts.Supply, faults: set<Accounts.Call>)
    requires Sound(db) && Bounded(db, seqs)
    ensures var r := Accounts.Issue(db, seqs, c, userId, now, supply, faults);
      && Sound(r.db) && Bounded(r.db, r.seqs)
      && (r.outcome.Refused? ==> r == Accounts.Step(db, seqs, Accounts.Refused(Accounts.Internal)))
      && (r.outcome.Granted? ==>
            && supply.access.Some? && supply.refresh.Some?
            && r.outcome == Accounts.Granted(userId, supply.access.value, supply.refresh.value)
            && r.seqs == seqs.(token := seqs.token + 1) && seqs.token + 1 !in db.tokens && userId in db.users
            && var row := Token(userId, c.hash(supply.refresh.value), now + c.lifetime);
               r.db == db.(tokens := db.tokens[seqs.token + 1 := row]))
  {
    hide KeysUnique, RefsHold, Named, Only;
    if supply.refresh.Some? {
      TokenInserted(db, seqs, Token(userId, c.hash(supply.refresh.value), now + c.lifetime));
    }
  }

  lemma RegisteredFacts(db: Db, seqs: Sequences, email: string, userId: int, faults: set<Accounts.Call>)
    requires Sound(db) && Bounded(db, seqs)
    ensures var r := Accounts.Registered(db, seqs, email, userId, faults);
      && Sound(r.0) && Bounded(r.0, r.1)
      && r.0 == db.(namespaces := r.0.namespaces) && r.1 == seqs.(namespace := r.1.namespace)
  {
    hide KeysUnique, RefsHold, Named, Only;
    NamespaceInserted(db, seqs, Text.LocalPart(email), "user", userId);
  }

  // Every call either removes some tokens, or removes some and adds the one it answers.
  ghost predicate Shape(c: Accounts.Config, w: World, e: Event) {
    var r := Answer(c, w, e);
    && Sound(r.db) && Bounded(r.db, r.seqs)
    && (if r.outcome.Granted?
        then
          && (e.Register? || e.Login? || e.Refresh?) && e.supply.refresh == Some(r.outcome.refresh)
          && r.seqs.token == w.seqs.token + 1 && r.seqs.token in r.db.tokens && r.seqs.token !in w.db.tokens
          && r.db.tokens[r.seqs.token] == Token(r.outcome.userId, c.hash(r.outcome.refresh), w.now + c.lifetime)
          && (forall i | i in r.db.tokens && i != r.seqs.token :: i in w.db.tokens && r.db.tokens[i] == w.db.tokens[i])
        else
          && r.seqs.token == w.seqs.token
          && forall i | i in r.db.tokens :: i in w.db.tokens && r.db.tokens[i] == w.db.tokens[i])
  }

  lemma ShapeRegister(c: Accounts.Config, w: World, e: Event)
    requires Sound(w.db) && Bounded(w.db, w.seqs) && e.Register?
    ensures Shape(c, w, e)
  {
    hide Sound, Accounts.Issue, Accounts.Registered, Only;
    if e.hashed.Some? {
      var row := User(e.email, e.hashed.value);
      UserInserted(w.db, w.seqs, row);
      var u := InsertUser(w.db, w.seqs, row);
      if u.Ok? {
        RegisteredFacts(u.value.db, u.value.seqs, e.email, u.value.id, e.faults);
        var (db, seqs) := Accounts.Registered(u.value.db, u.value.seqs, e.email, u.value.id, e.faults);
        IssueFacts(db, seqs, c, u.value.id, w.now, e.supply, e.faults);
      }
    }
  }

  lemma ShapeLogin(c: Accounts.Config, w: World, e: Event)
    requires Sound(w.db) && Bounded(w.db, w.seqs) && e.Login?
    ensures Shape(c, w, e)
  {
    hide Sound, Accounts.Issue, Only;
    var u := UserByEmail(w.db, e.email);
    if u.Ok? { IssueFacts(w.db, w.seqs, c, u.value, w.now, e.supply, e.faults); }
  }

  lemma WithoutFacts(db: Db, seqs: Sequences, id: int, faults: set<Accounts.Call>)
    requires Sound(db) && Bounded(db, seqs) && id in db.tokens
    ensures var rest := Accounts.Without(db, id, faults);
      && Sound(rest) && Bounded(rest, seqs) && rest.users == db.users && id <= seqs.token
      && (id in rest.tokens <==> Accounts.TokenDelete in faults)
      && (forall i | i in rest.tokens :: i in db.tokens && rest.tokens[i] == db.tokens[i])
      && (forall i | i in db.tokens && i != id :: i in rest.tokens)
  {
    hide Sound, Extends;
    TokensRemoved(db, Accounts.Without(db, id, faults).tokens);
  }

  lemma ShapeRefresh(c: Accounts.Config, w: World, e: Event)
    requires Sound(w.db) && Bounded(w.db, w.seqs) && e.Refresh?
    ensures Shape(c, w, e)
  {
    hide Sound, Bounded, Only, Accounts.Issue, Accounts.Without;
    var id := TokenByHash(w.db, c.hash(e.raw));
    if id.Ok? {
      var rest := Accounts.Without(w.db, id.value, e.faults);
      WithoutFacts(w.db, w.seqs, id.value, e.faults);
      IssueFacts(rest, w.seqs, c, w.db.tokens[id.value].userId, w.now, e.supply, e.faults);
    }
  }

  lemma ShapeHolds(c: Accounts.Config, w: World, e: Event)
    requires Sound(w.db) && Bounded(w.db, w.seqs)
    ensures Shape(c, w, e)
  {
    match e
    case Register(_, _, _, _, _) => ShapeRegister(c, w, e);
    case Login(_, _, _, _) => ShapeLogin(c, w, e);
    case Refresh(_, _, _) => ShapeRefresh(c, w, e);
    case Purge => TokensRemoved(w.db, DeleteExpired(w.db, w.now).tokens);
    case Tick(_) =>
  }

  // A successful refresh answers for the owner of the token it was given.
  lemma RefreshGranted(c: Accounts.Config, w: World, e: Event)
    requires Sound(w.db) && Bounded(w.db, w.seqs) && e.Refresh? && Answer(c, w, e).outcome.Granted?
    ensures var id := TokenByHash(w.db, c.hash(e.raw));
      && id.Ok? && w.now <= w.db.tokens[id.value].expiresAt
      && Answer(c, w, e).outcome.userId == w.db.tokens[id.value].userId
    ensures var id := TokenByHash(w.db, c.hash(e.raw)).value;
      id in Answer(c, w, e).db.tokens <==> Accounts.TokenDelete in e.faults
  {
    hide Sound, Bounded, Only, Accounts.Issue, Accounts.Without;
    var id := TokenByHash(w.db, c.hash(e.raw)).value;
    var rest := Accounts.Without(w.db, id, e.faults);
    WithoutFacts(w.db, w.seqs, id, e.faults);
    IssueFacts(rest, w.seqs, c, w.db.tokens[id].userId, w.now, e.supply, e.faults);
  }

  lemma OthersKept(c: Accounts.Config, w: World, e: Event)
    requires Sound(w.db) && Bounded(w.db, w.seqs) && Answer(c, w, e).outcome.Granted?
    ensures forall i | i in w.db.tokens && i !in Answer(c, w, e).db.tokens ::
      e.Refresh? && TokenByHash(w.db, c.hash(e.raw)) == Ok(i)
  {
    hide Sound, Only, Accounts.Issue, Accounts.Registered;
    match e
    case Register(_, _, _, _, _) =>
      var row := User(e.email, e.hashed.value);
      UserInserted(w.db, w.seqs, row);
      var u := InsertUser(w.db, w.seqs, row);
      RegisteredFacts(u.value.db, u.value.seqs, e.email, u.value.id, e.faults);
      var (db, seqs) := Accounts.Registered(u.value.db, u.value.seqs, e.email, u.value.id, e.faults);
      IssueFacts(db, seqs, c, u.value.id, w.now, e.supply, e.faults);
    case Login(_, _, _, _) =>
      IssueFacts(w.db, w.seqs, c, UserByEmail(w.db, e.email).value, w.now, e.supply, e.faults);
    case Refresh(_, _, _) =>
      var id := TokenByHash(w.db, c.hash(e.raw)).value;
      var rest := Accounts.Without(w.db, id, e.faults);
      WithoutFacts(w.db, w.seqs, id, e.faults);
      IssueFacts(rest, w.seqs, c, w.db.tokens[id].userId, w.now, e.supply, e.faults);
  }

  lemma BooksNext(c: Accounts.Config, w: World, e: Event)
    requires Books(c, w) && Fresh(c, w, e)
    ensures Books(c, Next(c, w, e))
  {
    hide Sound, Bounded, Injective, Answer, Hashes;
    ShapeHolds(c, w, e);
    var w' := Next(c, w, e);
    if Answer(c, w, e).outcome.Granted? {
      if e.Refresh? { RefreshGranted(c, w, e); }
      BooksGrant(c, w, w', w'.h.issued[w'.seqs.token]);
    } else {
      BooksShrink(c, w, w');
    }
  }

  // The books balance: first a step that only removes tokens,
  lemma BalanceShrink(w: World, w': World)
    requires Balanced(w) && w'.h.issued == w.h.issued
    requires forall i :: (i in w'.h.exchanged <==> i in w.h.exchanged) && (i in w'.h.spent <==> i in w.h.spent)
    requires forall i | i in w'.db.tokens :: i in w.db.tokens
    requires forall i :: i in w'.h.lost || i in w'.h.expired <==>
      i in w.h.lost || i in w.h.expired || (i in w.db.tokens && i !in w'.db.tokens)
    requires forall i :: i in w'.h.lost && i in w'.h.expired ==> i in w.h.lost && i in w.h.expired
    ensures Balanced(w')
  {
  }

  // then one that issues a token, for nothing or in exchange for a live one, which may stay behind.
  lemma BalanceGrant(w: World, w': World, id: int, x: Issued)
    requires Balanced(w) && id !in w.h.issued && w'.h.issued == w.h.issued[id := x]
    requires forall i :: (i in w'.h.lost <==> i in w.h.lost) && (i in w'.h.expired <==> i in w.h.expired)
    requires x.parent.Some? ==> x.parent.value in w.db.tokens && x.parent.value != id
    requires forall i :: i in w'.h.exchanged <==> i in w.h.exchanged || x.parent == Some(i)
    requires forall i :: i in w'.h.spent <==> i in w.h.spent || (x.parent == Some(i) && i !in w'.db.tokens)
    requires forall i | i in w'.db.tokens :: i == id || i in w.db.tokens
    requires forall i | i == id || (i in w.db.tokens && x.parent != Some(i)) :: i in w'.db.tokens
    ensures Balanced(w')
  {
    if x.parent.Some? {
      var p := x.parent.value;
      assert p in w.h.issued && p !in w.h.spent;
    }
  }

  lemma BalanceRefused(c: Accounts.Config, w: World, e: Event)
    requires Balanced(w) && Shape(c, w, e) && Answer(c, w, e).outcome.Refused?
    ensures Balanced(Next(c, w, e))
  {
    hide Sound, Bounded, Answer;
    BalanceShrink(w, Next(c, w, e));
  }

  // What a granted call records.
  lemma GrantRecorded(c: Accounts.Config, w: World, e: Event)
    requires Books(c, w) && Shape(c, w, e) && Answer(c, w, e).outcome.Granted?
    ensures e.Refresh? ==> TokenByHash(w.db, c.hash(e.raw)).Ok?
    ensures var w' := Next(c, w, e); var id := w'.seqs.token;
      && id !in w.h.issued && id in w'.h.issued && w'.h.issued == w.h.issued[id := w'.h.issued[id]]
      && w'.h.issued[id].parent == if e.Refresh? then Some(TokenByHash(w.db, c.hash(e.raw)).value) else None
  {
    hide Sound, Bounded, Injective, Answer, Hashes, TokenByHash;
    if e.Refresh? { RefreshGranted(c, w, e); }
  }

  lemma BalanceGranted(c: Accounts.Config, w: World, e: Event)
    requires Books(c, w) && Balanced(w) && Shape(c, w, e) && Answer(c, w, e).outcome.Granted?
    ensures Balanced(Next(c, w, e))
  {
    hide Sound, Bounded, Injective, Answer, Hashes, TokenByHash, Balanced;
    var step, w' := Answer(c, w, e), Next(c, w, e);
    GrantRecorded(c, w, e);
    OthersKept(c, w, e);
    if e.Refresh? { RefreshGranted(c, w, e); }
    BalanceGrant(w, w', step.seqs.token, w'.h.issued[step.seqs.token]);
  }

  lemma BalanceNext(c: Accounts.Config, w: World, e: Event)
    requires Books(c, w) && Balanced(w)
    ensures Balanced(Next(c, w, e))
  {
    hide Balanced, Shape, Answer, Injective, Sound, Next;
    ShapeHolds(c, w, e);
    if Answer(c, w, e).outcome.Granted? { BalanceGranted(c, w, e); } else { BalanceRefused(c, w, e); }
  }

  // ----- Tokens whose own deletes succeed -----

  // Of the tokens with these hashes, each exchanged one is spent and has one successor.
  ghost predicate Clean(c: Accounts.Config, h: History, hashes: iset<string>) {
    && (forall i | i in h.exchanged && i in h.issued && Hashes(c, h.issued)[i] in hashes :: i in h.spent)
    && (forall i, j | i in h.issued && j in h.issued && Follows(c, h, i, hashes)
                      && h.issued[i].parent == h.issued[j].parent :: i == j)
  }

  // Issued in exchange for a token with one of these hashes.
  ghost predicate Follows(c: Accounts.Config, h: History, i: int, hashes: iset<string>)
    requires i in h.issued
  {
    && h.issued[i].parent.Some? && h.issued[i].parent.value in h.issued
    && Hashes(c, h.issued)[h.issued[i].parent.value] in hashes
  }

  lemma CleanGrant(c: Accounts.Config, w: World, w': World, id: int, x: Issued, hashes: iset<string>)
    requires Books(c, w) && Balanced(w) && Clean(c, w.h, hashes)
    requires id !in w.h.issued && w'.h.issued == w.h.issued[id := x]
    requires x.parent.Some? ==> x.parent.value in w.db.tokens
    requires forall i :: i in w'.h.exchanged <==> i in w.h.exchanged || x.parent == Some(i)
    requires forall i | i in w.h.spent :: i in w'.h.spent
    requires x.parent.Some? ==> x.parent.value in w.h.issued
    requires x.parent.Some? && c.hash(w.h.issued[x.parent.value].raw) in hashes ==> x.parent.value in w'.h.spent
    ensures Clean(c, w'.h, hashes)
  {
    hide Sound, Bounded, Injective;
    var h, h' := w.h, w'.h;
    forall i | i in h'.exchanged && i in h'.issued && Hashes(c, h'.issued)[i] in hashes ensures i in h'.spent {
      if x.parent != Some(i) { assert i in h.issued && Hashes(c, h.issued)[i] in hashes; }
    }
    // A live token that was exchanged before is none of these.
    forall k | k in h.issued && h.issued[k].parent.Some? && h.issued[k].parent == x.parent
      ensures Hashes(c, h.issued)[x.parent.value] !in hashes
    {
      assert Descends(h, k);
      var p := x.parent.value;
      assert p in w.db.tokens && p !in h.spent;
    }
    forall i, j | i in h'.issued && j in h'.issued && Follows(c, h', i, hashes)
                  && h'.issued[i].parent == h'.issued[j].parent
      ensures i == j
    {
      if i != id && j != id {
        assert Descends(h, i);
        assert Follows(c, h, i, hashes);
      }
    }
  }

  lemma CleanShrink(c: Accounts.Config, h: History, h': History, hashes: iset<string>)
    requires Clean(c, h, hashes) && h'.issued == h.issued
    requires forall i :: (i in h'.exchanged <==> i in h.exchanged) && (i in h'.spent <==> i in h.spent)
    ensures Clean(c, h', hashes)
  {
    hide Hashes;
    forall i, j | i in h'.issued && j in h'.issued && Follows(c, h', i, hashes)
                  && h'.issued[i].parent == h'.issued[j].parent
      ensures i == j
    {
      assert Follows(c, h, i, hashes);
    }
  }

  lemma CleanNext(c: Accounts.Config, w: World, e: Event, hashes: iset<string>)
    requires Books(c, w) && Balanced(w) && Clean(c, w.h, hashes)
    requires e.Refresh? && Answer(c, w, e).outcome.Granted? && c.hash(e.raw) in hashes ==>
      Accounts.TokenDelete !in e.faults
    ensures Clean(c, Next(c, w, e).h, hashes)
  {
    hide Sound, Bounded, Injective, Answer, Hashes, TokenByHash, Balanced, Clean;
    ShapeHolds(c, w, e);
    var w' := Next(c, w, e);
    if Answer(c, w, e).outcome.Granted? {
      GrantRecorded(c, w, e);
      if e.Refresh? { RefreshGranted(c, w, e); }
      CleanGrant(c, w, w', w'.seqs.token, w'.h.issued[w'.seqs.token], hashes);
    } else {
      CleanShrink(c, w.h, w'.h, hashes);
    }
  }

  // ----- Runs -----

  const NO_HISTORY := History(map[], {}, {}, {}, {})

  // A server that has issued no refresh token yet.
  ghost function Start(db: Db, seqs: Sequences, now: int): World { World(db.(tokens := map[]), seqs, now, NO_HISTORY) }

  lemma StartBooks(c: Accounts.Config, db: Db, seqs: Sequences, now: int)
    requires Sound(db) && Bounded(db, seqs)
    ensures Books(c, Start(db, seqs, now)) && Balanced(Start(db, seqs, now))
  {
    hide KeysUnique, RefsHold, Named;
    TokensRemoved(db, map[]);
  }

  lemma {:induction false} RunBooks(c: Accounts.Config, w: World, es: seq<Event>)
    requires Books(c, w) && Valid(c, w, es)
    ensures Books(c, Run(c, w, es))
    decreases |es|
  {
    hide Books, Fresh, Next;
    if es != [] {
      RunBooks(c, w, es[..|es| - 1]);
      BooksNext(c, Run(c, w, es[..|es| - 1]), es[|es| - 1]);
    }
  }

  lemma {:induction false} RunBalance(c: Accounts.Config, w: World, es: seq<Event>)
    requires Books(c, w) && Balanced(w) && Valid(c, w, es)
    ensures Balanced(Run(c, w, es))
    decreases |es|
  {
    hide Books, Balanced, Fresh, Next;
    if es != [] {
      RunBooks(c, w, es[..|es| - 1]);
      RunBalance(c, w, es[..|es| - 1]);
      BalanceNext(c, Run(c, w, es[..|es| - 1]), es[|es| - 1]);
    }
  }

  ghost function Outcome(c: Accounts.Config, w: World, es: seq<Event>, i: nat): Accounts.Outcome
    requires i < |es|
  {
    Answer(c, Run(c, w, es[..i]), es[i]).outcome
  }

  // Whenever one of these tokens was exchanged, its delete succeeded.
  ghost predicate DeletedWhenExchanged(c: Accounts.Config, w: World, es: seq<Event>, hashes: iset<string>) {
    forall k | 0 <= k < |es| && es[k].Refresh? && c.hash(es[k].raw) in hashes && Outcome(c, w, es, k).Granted? ::
      Accounts.TokenDelete !in es[k].faults
  }

  lemma {:induction false} RunClean(c: Accounts.Config, w: World, es: seq<Event>, hashes: iset<string>)
    requires Books(c, w) && Balanced(w) && Clean(c, w.h, hashes)
    requires Valid(c, w, es) && DeletedWhenExchanged(c, w, es, hashes)
    ensures Clean(c, Run(c, w, es).h, hashes)
    decreases |es|
  {
    hide Books, Balanced, Fresh, Next, Clean, Answer;
    if es != [] {
      var before := es[..|es| - 1];
      forall k | 0 <= k < |before| && before[k].Refresh? && c.hash(before[k].raw) in hashes
                 && Outcome(c, w, before, k).Granted?
        ensures Accounts.TokenDelete !in before[k].faults
      {
        assert before[..k] == es[..k];
        assert Outcome(c, w, es, k).Granted?;
      }
      RunBooks(c, w, before);
      RunBalance(c, w, before);
      RunClean(c, w, before, hashes);
      assert Outcome(c, w, es, |before|) == Answer(c, Run(c, w, before), es[|before|]).outcome;
      CleanNext(c, Run(c, w, before), es[|es| - 1], hashes);
    }
  }

  lemma StartClean(c: Accounts.Config, db: Db, seqs: Sequences, now: int, hashes: iset<string>)
    ensures Clean(c, Start(db, seqs, now).h, hashes)
  {
  }

  // In every run, whatever fails, the live token rows are the ones issued less those spent, those lost to
  // a refresh that failed afterwards, and those removed as expired.
  lemma LiveIsIssuedLessSpent(c: Accounts.Config, db: Db, seqs: Sequences, now: int, es: seq<Event>)
    requires Sound(db) && Bounded(db, seqs) && Valid(c, Start(db, seqs, now), es)
    ensures var w := Run(c, Start(db, seqs, now), es); var h := w.h;
      && (forall i :: i in w.db.tokens <==> i in h.issued && i !in h.spent && i !in h.lost && i !in h.expired)
      && (forall i | i in h.spent :: i in h.exchanged && i !in h.lost && i !in h.expired)
      && (forall i | i in h.exchanged :: i in h.issued)
      && (forall i | i in h.lost :: i in h.issued && i !in h.expired)
      && (forall i | i in h.expired :: i in h.issued)
  {
    hide Sound, Bounded, Valid, Run, Books;
    StartBooks(c, db, seqs, now);
    RunBalance(c, Start(db, seqs, now), es);
  }

  // A token that was exchanged is spent, if its own deletes succeeded.
  lemma ExchangedIsSpent(c: Accounts.Config, db: Db, seqs: Sequences, now: int, es: seq<Event>, i: int)
    requires Sound(db) && Bounded(db, seqs) && Valid(c, Start(db, seqs, now), es)
    requires var h := Run(c, Start(db, seqs, now), es).h;
      && i in h.exchanged && i in h.issued
      && DeletedWhenExchanged(c, Start(db, seqs, now), es, iset{Hashes(c, h.issued)[i]})
    ensures i in Run(c, Start(db, seqs, now), es).h.spent
  {
    hide Sound, Bounded, Valid, Run, DeletedWhenExchanged, Books;
    var own := iset{Hashes(c, Run(c, Start(db, seqs, now), es).h.issued)[i]};
    StartBooks(c, db, seqs, now);
    StartClean(c, db, seqs, now, own);
    RunClean(c, Start(db, seqs, now), es, own);
  }

  // ----- A token is exchanged at most once -----

  ghost predicate Spent(c: Accounts.Config, w: World, hash: string) {
    exists i :: i in w.h.spent && i in w.h.issued && Hashes(c, w.h.issued)[i] == hash
  }

  lemma SpentStays(c: Accounts.Config, w: World, e: Event, hash: string)
    requires Books(c, w) && Spent(c, w, hash)
    ensures Spent(c, Next(c, w, e), hash)
  {
    hide Sound, Bounded, Injective, Answer, TokenByHash;
    ShapeHolds(c, w, e);
    var i :| i in w.h.spent && i in w.h.issued && Hashes(c, w.h.issued)[i] == hash;
    var h' := Next(c, w, e).h;
    assert i in h'.spent && i in h'.issued && Hashes(c, h'.issued)[i] == hash;
  }

  lemma ExchangeSpends(c: Accounts.Config, w: World, e: Event)
    requires Books(c, w) && e.Refresh? && Answer(c, w, e).outcome.Granted? && Accounts.TokenDelete !in e.faults
    ensures Spent(c, Next(c, w, e), c.hash(e.raw))
  {
    hide Sound, Bounded, Injective, Answer;
    ShapeHolds(c, w, e);
    RefreshGranted(c, w, e);
    var i := TokenByHash(w.db, c.hash(e.raw)).value;
    var h' := Next(c, w, e).h;
    assert i in h'.spent && i in h'.issued && Hashes(c, h'.issued)[i] == c.hash(e.raw);
  }

  lemma SpentIsGone(c: Accounts.Config, w: World, hash: string)
    requires Books(c, w) && Balanced(w) && Spent(c, w, hash)
    ensures TokenByHash(w.db, hash) == Err(NotFound)
  {
    hide Sound, Bounded;
    var i :| i in w.h.spent && i in w.h.issued && Hashes(c, w.h.issued)[i] == hash;
    forall j | j in w.db.tokens ensures TokenKeys(w.db.tokens)[j] != hash {
      assert Hashes(c, w.h.issued)[j] == TokenKeys(w.db.tokens)[j];
    }
  }

  lemma {:induction false} ValidPrefix(c: Accounts.Config, w: World, es: seq<Event>, i: nat)
    requires i <= |es| && Valid(c, w, es)
    ensures Valid(c, w, es[..i])
    decreases |es|
  {
    hide Fresh, Run;
    if i == |es| {
      assert es[..i] == es;
    } else {
      ValidPrefix(c, w, es[..|es| - 1], i);
      assert es[..|es| - 1][..i] == es[..i];
    }
  }

  lemma {:induction false} SpentForGood(c: Accounts.Config, w: World, es: seq<Event>, i: nat)
    requires Books(c, w) && Valid(c, w, es) && i < |es|
    requires es[i].Refresh? && Outcome(c, w, es, i).Granted? && Accounts.TokenDelete !in es[i].faults
    ensures Spent(c, Run(c, w, es), c.hash(es[i].raw))
    decreases |es|
  {
    hide Books, Fresh, Next, Answer, Spent;
    var before := es[..|es| - 1];
    RunBooks(c, w, before);
    if i == |es| - 1 {
      ExchangeSpends(c, Run(c, w, before), es[i]);
    } else {
      assert before[..i] == es[..i];
      SpentForGood(c, w, before, i);
      SpentStays(c, Run(c, w, before), es[|es| - 1], c.hash(es[i].raw));
    }
  }

  // A refresh token that was exchanged and deleted is refused ever after, whatever else failed.
  lemma NeverTwice(c: Accounts.Config, db: Db, seqs: Sequences, now: int, es: seq<Event>, i: nat, j: nat)
    requires Sound(db) && Bounded(db, seqs)
    requires Valid(c, Start(db, seqs, now), es)
    requires i < j < |es| && es[i].Refresh? && es[j].Refresh? && c.hash(es[i].raw) == c.hash(es[j].raw)
    requires Outcome(c, Start(db, seqs, now), es, i).Granted? && Accounts.TokenDelete !in es[i].faults
    ensures Outcome(c, Start(db, seqs, now), es, j) ==
      Accounts.Refused(if es[j].raw == "" then Accounts.InvalidInput
                       else if Accounts.TokenGet in es[j].faults then Accounts.Internal else Accounts.Unauthorized)
  {
    hide Sound, Bounded, Books, Balanced, Spent, Valid, Fresh, Run, TokenByHash;
    var w, before := Start(db, seqs, now), es[..j];
    StartBooks(c, db, seqs, now);
    ValidPrefix(c, w, es, j);
    RunBooks(c, w, before);
    RunBalance(c, w, before);
    assert before[..i] == es[..i];
    SpentForGood(c, w, before, i);
    SpentIsGone(c, Run(c, w, before), c.hash(es[j].raw));
  }

  lemma LiveIsFound(c: Accounts.Config, w: World, i: int)
    requires Books(c, w) && i in w.h.issued
    ensures var hash := c.hash(w.h.issued[i].raw);
      TokenByHash(w.db, hash) == if i in w.db.tokens then Ok(i) else Err(NotFound)
  {
    hide RefsHold, Named, Bounded, Only;
    var hash := c.hash(w.h.issued[i].raw);
    if i in w.db.tokens {
      OnlyFinds(TokenKeys(w.db.tokens), i);
    } else {
      forall j | j in w.db.tokens ensures TokenKeys(w.db.tokens)[j] != hash {
        assert Hashes(c, w.h.issued)[j] == TokenKeys(w.db.tokens)[j];
        assert Hashes(c, w.h.issued)[i] == hash;
      }
    }
  }

  // Nothing in the code makes up for a failing delete: presented again at once, with nothing else
  // failing, a token just exchanged is accepted if and only if its delete failed.
  lemma ReusedIffDeleteFailed(c: Accounts.Config, w: World, e: Event, again: Event)
    requires Books(c, w) && Fresh(c, w, e) && e.Refresh? && Answer(c, w, e).outcome.Granted?
    requires again.Refresh? && again.raw == e.raw && again.faults == {} && Fresh(c, Next(c, w, e), again)
    requires again.supply.access.Some? && again.supply.refresh.Some? && c.hash(again.supply.refresh.value) != ""
    ensures Answer(c, Next(c, w, e), again).outcome.Granted? <==> Accounts.TokenDelete in e.faults
  {
    hide Sound, Bounded, Injective, Only, Hashes;
    var w' := Next(c, w, e);
    BooksNext(c, w, e);
    RefreshGranted(c, w, e);
    ShapeHolds(c, w, e);
    var i := TokenByHash(w.db, c.hash(e.raw)).value;
    LiveIsFound(c, w', i);
    if Accounts.TokenDelete in e.faults {
      FreshIsNew(c, w', again);
      StillNew(w'.db, i, again.faults, c.hash(again.supply.refresh.value));
      OwnersExist(w'.db, i);
    }
  }

  lemma OwnersExist(db: Db, i: int)
    requires Sound(db) && i in db.tokens
    ensures db.tokens[i].userId in db.users
  {
  }

  // ----- A run in which a delete fails -----

  const PLAIN := Accounts.Config((raw: string) => raw, (hash: string, password: string) => hash == password, 10)
  const LONE_USER := EMPTY.(users := map[1 := User("a@x", "pw")])
  const LONE_SEQS := Sequences(0, 0, 0, 1, 0)

  function Made(raw: string): Accounts.Supply { Accounts.Supply(Some("k"), Some(raw)) }

  const LOGIN := Login("a@x", "pw", Made("t1"), {})
  const KEPT := Refresh("t1", Made("t2"), {Accounts.TokenDelete})
  const AGAIN := Refresh("t1", Made("t3"), {})

  lemma LoneStart()
    ensures Sound(LONE_USER) && Bounded(LONE_USER, LONE_SEQS) && UserByEmail(LONE_USER, "a@x") == Ok(1)
    ensures Start(LONE_USER, LONE_SEQS, 0).db == LONE_USER
  {
    OnlyFinds(UserKeys(LONE_USER.users), 1);
  }

  lemma LoneLogin(w: World)
    requires w == Start(LONE_USER, LONE_SEQS, 0)
    ensures var w' := Next(PLAIN, w, LOGIN);
      && w'.h.issued == map[1 := Issued("t1", 1, 10, None)] && w'.now == 0
      && w'.db == LONE_USER.(tokens := map[1 := Token(1, "t1", 10)]) && w'.seqs == LONE_SEQS.(token := 1)
  {
    hide Only, Sound;
    LoneStart();
    assert TokenByHash(w.db, "t1") == Err(NotFound);
  }

  lemma LoneRefresh(w: World)
    requires w.db == LONE_USER.(tokens := map[1 := Token(1, "t1", 10)]) && w.now == 0 && Books(PLAIN, w)
    requires w.h.issued == map[1 := Issued("t1", 1, 10, None)] && w.seqs.token == 1
    ensures Answer(PLAIN, w, KEPT).outcome.Granted?
    ensures Next(PLAIN, w, KEPT).h.issued.Values == {Issued("t1", 1, 10, None), Issued("t2", 1, 10, Some(1))}
  {
    hide Only, Sound, Injective;
    LiveIsFound(PLAIN, w, 1);
    assert TokenByHash(w.db, "t2") == Err(NotFound);
    var issued := Next(PLAIN, w, KEPT).h.issued;
    assert issued == map[1 := Issued("t1", 1, 10, None), 2 := Issued("t2", 1, 10, Some(1))];
    assert issued[1] in issued.Values && issued[2] in issued.Values;
  }

  lemma RunStep(c: Accounts.Config, w: World, es: seq<Event>, e: Event)
    ensures Run(c, w, es + [e]) == Next(c, Run(c, w, es), e)
    ensures Valid(c, w, es + [e]) <==> Valid(c, w, es) && Fresh(c, Run(c, w, es), e)
  {
    hide Next, Fresh;
    assert (es + [e])[..|es|] == es;
  }

  // Without succeeding deletes single use fails: one token is exchanged twice.
  lemma ExchangedTwice()
    ensures var w, es := Start(LONE_USER, LONE_SEQS, 0), [LOGIN, KEPT, AGAIN];
      && Sound(LONE_USER) && Bounded(LONE_USER, LONE_SEQS) && Valid(PLAIN, w, es)
      && es[1].raw == es[2].raw && Outcome(PLAIN, w, es, 1).Granted? && Outcome(PLAIN, w, es, 2).Granted?
  {
    hide Sound, Bounded, Books, Next, Answer, Valid, Run;
    var w, es := Start(LONE_USER, LONE_SEQS, 0), [LOGIN, KEPT, AGAIN];
    LoneStart();
    StartBooks(PLAIN, LONE_USER, LONE_SEQS, 0);
    var w1 := Next(PLAIN, w, LOGIN);
    var w2 := Next(PLAIN, w1, KEPT);
    LoneLogin(w);
    BooksNext(PLAIN, w, LOGIN);
    LoneRefresh(w1);
    forall i | i in w2.h.issued ensures Hashes(PLAIN, w2.h.issued)[i] != "t3" {
      assert w2.h.issued[i] in w2.h.issued.Values;
    }
    ReusedIffDeleteFailed(PLAIN, w1, KEPT, AGAIN);
    ThreeSteps(w);
  }

  lemma ThreeSteps(w: World)
    requires w.h == NO_HISTORY
    ensures var es, w1 := [LOGIN, KEPT, AGAIN], Next(PLAIN, w, LOGIN);
      && es[..1] == [LOGIN] && Run(PLAIN, w, es[..1]) == w1
      && es[..2] == [LOGIN, KEPT] && Run(PLAIN, w, es[..2]) == Next(PLAIN, w1, KEPT)
      && (Valid(PLAIN, w, es) <==> Fresh(PLAIN, w1, KEPT) && Fresh(PLAIN, Next(PLAIN, w1, KEPT), AGAIN))
  {
    hide Next;
    RunStep(PLAIN, w, [], LOGIN);
    assert [] + [LOGIN] == [LOGIN];
    RunStep(PLAIN, w, [LOGIN], KEPT);
    assert [LOGIN] + [KEPT] == [LOGIN, KEPT];
    RunStep(PLAIN, w, [LOGIN, KEPT], AGAIN);
    assert [LOGIN, KEPT] + [AGAIN] == [LOGIN, KEPT, AGAIN];
  }

  // ----- Rotation chains -----

  ghost predicate Linked(h: History) {
    forall i | i in h.issued :: i >= 1 && (h.issued[i].parent.Some? ==> Descends(h, i))
  }

  ghost predicate Rotated(h: History, i: int) {
    i in h.issued && h.issued[i].parent.Some? && 0 <= h.issued[i].parent.value < i
  }

  // The token a login or a registration issued, from which this one descends.
  ghost function Root(h: History, i: int): int
    decreases i
  {
    if Rotated(h, i) then Root(h, h.issued[i].parent.value) else i
  }

  ghost function Exchanges(h: History, i: int): nat
    decreases i
  {
    if Rotated(h, i) then 1 + Exchanges(h, h.issued[i].parent.value) else 0
  }

  lemma BooksLinked(c: Accounts.Config, w: World)
    requires Books(c, w)
    ensures Linked(w.h)
  {
    hide Sound, Bounded, Injective, Descends;
  }

  // The root was issued to the same user, in exchange for nothing.
  lemma {:induction false} RootUser(h: History, i: int)
    requires Linked(h) && i in h.issued
    ensures var r := Root(h, i);
      r in h.issued && r <= i && h.issued[r].parent.None? && h.issued[r].userId == h.issued[i].userId
    decreases i
  {
    if h.issued[i].parent.Some? {
      assert Descends(h, i);
      RootUser(h, h.issued[i].parent.value);
    }
  }

  // Whatever fails, a rotation chain belongs to one user throughout.
  lemma ChainKeepsUser(c: Accounts.Config, db: Db, seqs: Sequences, now: int, es: seq<Event>, i: int)
    requires Sound(db) && Bounded(db, seqs) && Valid(c, Start(db, seqs, now), es)
    requires i in Run(c, Start(db, seqs, now), es).h.issued
    ensures var w := Run(c, Start(db, seqs, now), es);
      var r := Root(w.h, i);
      && r in w.h.issued && w.h.issued[r].parent.None? && w.h.issued[r].userId == w.h.issued[i].userId
      && (i in w.db.tokens ==> w.db.tokens[i].userId == w.h.issued[r].userId)
  {
    hide Sound, Bounded, Valid, Run, Injective;
    StartBooks(c, db, seqs, now);
    RunBooks(c, Start(db, seqs, now), es);
    var w := Run(c, Start(db, seqs, now), es);
    BooksLinked(c, w);
    RootUser(w.h, i);
  }

  // In this chain no token has two successors, so the chain is a line:
  ghost predicate OneSuccessor(h: History, root: int) {
    forall i, j | i in h.issued && j in h.issued && Root(h, i) == root && h.issued[i].parent.Some?
                  && h.issued[i].parent == h.issued[j].parent :: i == j
  }

  lemma {:induction false} SamePlace(h: History, i: int, j: int)
    requires Linked(h) && i in h.issued && j in h.issued && OneSuccessor(h, Root(h, i))
    requires Root(h, i) == Root(h, j) && Exchanges(h, i) == Exchanges(h, j)
    ensures i == j
    decreases i
  {
    RootUser(h, i);
    RootUser(h, j);
    if h.issued[i].parent.Some? {
      assert Descends(h, i);
      if h.issued[j].parent.Some? {
        assert Descends(h, j);
        SamePlace(h, h.issued[i].parent.value, h.issued[j].parent.value);
      }
    } else if h.issued[j].parent.Some? {
      assert Descends(h, j);
    }
  }

  // all of it but its end has been exchanged.
  lemma {:induction false} EarlierIsExchanged(h: History, i: int, j: int)
    requires Linked(h) && i in h.issued && j in h.issued && OneSuccessor(h, Root(h, i))
    requires Root(h, i) == Root(h, j) && Exchanges(h, i) < Exchanges(h, j)
    ensures i in h.exchanged
    decreases j
  {
    assert Descends(h, j);
    var p := h.issued[j].parent.value;
    if Exchanges(h, p) == Exchanges(h, i) { SamePlace(h, i, p); } else { EarlierIsExchanged(h, i, p); }
  }

  // The hashes of the tokens of one chain.
  ghost function Chain(c: Accounts.Config, h: History, root: int): iset<string> {
    iset i | i in h.issued && Root(h, i) == root :: Hashes(c, h.issued)[i]
  }

  lemma InChain(c: Accounts.Config, h: History, i: int)
    requires i in h.issued
    ensures Hashes(c, h.issued)[i] in Chain(c, h, Root(h, i))
  {
    hide Hashes;
  }

  lemma CleanChain(c: Accounts.Config, h: History, root: int)
    requires Linked(h) && Clean(c, h, Chain(c, h, root))
    ensures OneSuccessor(h, root)
  {
    hide Hashes, Chain;
    forall i, j | i in h.issued && j in h.issued && Root(h, i) == root && h.issued[i].parent.Some?
                  && h.issued[i].parent == h.issued[j].parent
      ensures i == j
    {
      assert Descends(h, i);
      InChain(c, h, h.issued[i].parent.value);
      assert Follows(c, h, i, Chain(c, h, root));
    }
  }

  // A login has at most one live refresh token, however often it was rotated, if the deletes of its own
  // chain's exchanges succeeded.
  lemma OneLivePerChain(c: Accounts.Config, db: Db, seqs: Sequences, now: int, es: seq<Event>, i: int, j: int)
    requires Sound(db) && Bounded(db, seqs) && Valid(c, Start(db, seqs, now), es)
    requires var w := Run(c, Start(db, seqs, now), es);
      && i in w.db.tokens && j in w.db.tokens && Root(w.h, i) == Root(w.h, j)
      && DeletedWhenExchanged(c, Start(db, seqs, now), es, Chain(c, w.h, Root(w.h, i)))
    ensures i == j
  {
    hide Sound, Bounded, Valid, Run, Books, Linked, DeletedWhenExchanged, Hashes, Chain, OneSuccessor, Root, Exchanges;
    var w := Run(c, Start(db, seqs, now), es);
    var h, hashes := w.h, Chain(c, w.h, Root(w.h, i));
    StartBooks(c, db, seqs, now);
    StartClean(c, db, seqs, now, hashes);
    RunBooks(c, Start(db, seqs, now), es);
    RunBalance(c, Start(db, seqs, now), es);
    RunClean(c, Start(db, seqs, now), es, hashes);
    BooksLinked(c, w);
    CleanChain(c, h, Root(h, i));
    InChain(c, h, i);
    InChain(c, h, j);
    if Exchanges(h, i) < Exchanges(h, j) {
      EarlierIsExchanged(h, i, j);
    } else if Exchanges(h, j) < Exchanges(h, i) {
      EarlierIsExchanged(h, j, i);
    } else {
      SamePlace(h, i, j);
    }
  }

  // ----- Where sessions begin -----

  // Step k handed x out: to a login with the user's address and the right password, or to the user it registered.
  ghost predicate Earned(c: Accounts.Config, w: World, es: seq<Event>, k: int, x: Issued) {
    && 0 <= k < |es|
    && var at, e, step := Run(c, w, es[..k]), es[k], Answer(c, Run(c, w, es[..k]), es[k]);
       && step.outcome.Granted? && step.outcome.userId == x.userId && step.outcome.refresh == x.raw
       && EarnedBy(c, at, e, step, x.userId)
  }

  ghost predicate EarnedBy(c: Accounts.Config, w: World, e: Event, step: Accounts.Step, userId: int) {
    || (e.Login? && userId in w.db.users && w.db.users[userId].email == e.email
        && c.verify(w.db.users[userId].passwordHash, e.password))
    || (e.Register? && |e.password| >= 8 && e.hashed.Some? && userId !in w.db.users
        && userId in step.db.users && step.db.users[userId] == User(e.email, e.hashed.value))
  }

  lemma LoginEarns(c: Accounts.Config, w: World, e: Event)
    requires e.Login? && Answer(c, w, e).outcome.Granted?
    ensures EarnedBy(c, w, e, Answer(c, w, e), Answer(c, w, e).outcome.userId)
  {
    hide Only, InsertToken;
  }

  lemma RegisterEarns(c: Accounts.Config, w: World, e: Event)
    requires Sound(w.db) && Bounded(w.db, w.seqs) && e.Register? && Answer(c, w, e).outcome.Granted?
    ensures EarnedBy(c, w, e, Answer(c, w, e), Answer(c, w, e).outcome.userId)
  {
    hide Sound, Accounts.Issue, Accounts.Registered, Only;
    var row := User(e.email, e.hashed.value);
    UserInserted(w.db, w.seqs, row);
    var u := InsertUser(w.db, w.seqs, row).value;
    RegisteredFacts(u.db, u.seqs, e.email, u.id, e.faults);
    var (db, seqs) := Accounts.Registered(u.db, u.seqs, e.email, u.id, e.faults);
    IssueFacts(db, seqs, c, u.id, w.now, e.supply, e.faults);
  }

  // The one token a step may add to the history.
  lemma IssuedStep(c: Accounts.Config, w: World, e: Event, i: int)
    requires Books(c, w) && i in Next(c, w, e).h.issued && i !in w.h.issued
    requires Next(c, w, e).h.issued[i].parent.None?
    ensures var step, x := Answer(c, w, e), Next(c, w, e).h.issued[i];
      && step.outcome.Granted? && step.outcome.userId == x.userId && step.outcome.refresh == x.raw
      && EarnedBy(c, w, e, step, x.userId)
  {
    hide Sound, Bounded, Injective, Answer, Hashes, TokenByHash, EarnedBy;
    ShapeHolds(c, w, e);
    GrantRecorded(c, w, e);
    if e.Login? { LoginEarns(c, w, e); } else { RegisterEarns(c, w, e); }
  }

  lemma IssuedStays(c: Accounts.Config, w: World, e: Event, i: int)
    requires Books(c, w) && i in w.h.issued
    ensures i in Next(c, w, e).h.issued && Next(c, w, e).h.issued[i] == w.h.issued[i]
  {
    hide Sound, Injective, Answer, Hashes, TokenByHash;
    ShapeHolds(c, w, e);
  }

  // In every run, whatever fails, a token that was not exchanged for another one was handed out to a login
  // whose password was right, or to a registration; so with ChainKeepsUser every session goes back to one.
  lemma {:induction false} RootsAreEarned(c: Accounts.Config, db: Db, seqs: Sequences, now: int, es: seq<Event>, i: int)
    requires Sound(db) && Bounded(db, seqs) && Valid(c, Start(db, seqs, now), es)
    requires var h := Run(c, Start(db, seqs, now), es).h; i in h.issued && h.issued[i].parent.None?
    ensures exists k :: Earned(c, Start(db, seqs, now), es, k, Run(c, Start(db, seqs, now), es).h.issued[i])
    decreases |es|
  {
    hide Sound, Bounded, Books, Next, Answer, Fresh, EarnedBy;
    var w, before := Start(db, seqs, now), if es == [] then [] else es[..|es| - 1];
    if es != [] {
      StartBooks(c, db, seqs, now);
      RunBooks(c, w, before);
      var mid, x := Run(c, w, before), Run(c, w, es).h.issued[i];
      if i in mid.h.issued {
        IssuedStays(c, mid, es[|es| - 1], i);
        RootsAreEarned(c, db, seqs, now, before, i);
        var k :| Earned(c, w, before, k, x);
        assert before[..k] == es[..k];
        assert Earned(c, w, es, k, x);
      } else {
        IssuedStep(c, mid, es[|es| - 1], i);
        assert Earned(c, w, es, |es| - 1, x);
      }
    }
  }

  // ----- Purges are invisible -----

  // Equal but for tokens past their expiry.
  ghost predicate Alike(db1: Db, db2: Db, now: int) {
    && db2 == db1.(tokens := db2.tokens)
    && (forall i | i in db1.tokens && db1.tokens[i].expiresAt >= now ::
          i in db2.tokens && db2.tokens[i] == db1.tokens[i])
    && (forall i | i in db2.tokens && db2.tokens[i].expiresAt >= now ::
          i in db1.tokens && db1.tokens[i] == db2.tokens[i])
  }

  ghost predicate Twin(w1: World, w2: World) {
    w1.now == w2.now && w1.seqs == w2.seqs && w1.h.issued == w2.h.issued && Alike(w1.db, w2.db, w1.now)
  }

  lemma IssueAlike(db1: Db, db2: Db, seqs: Sequences, c: Accounts.Config, userId: int, now: int,
                   supply: Accounts.Supply, faults: set<Accounts.Call>)
    requires Alike(db1, db2, now)
    requires supply.refresh.Some? ==>
      var hash := c.hash(supply.refresh.value);
      TokenByHash(db1, hash) == Err(NotFound) && TokenByHash(db2, hash) == Err(NotFound)
    ensures
      var r1 := Accounts.Issue(db1, seqs, c, userId, now, supply, faults);
      var r2 := Accounts.Issue(db2, seqs, c, userId, now, supply, faults);
      r1.outcome == r2.outcome && r1.seqs == r2.seqs && Alike(r1.db, r2.db, now)
  {
    hide TokenByHash;
  }

  // A generated token is not in the table yet.
  lemma FreshIsNew(c: Accounts.Config, w: World, e: Event)
    requires Books(c, w) && Fresh(c, w, e) && (e.Register? || e.Login? || e.Refresh?) && e.supply.refresh.Some?
    ensures TokenByHash(w.db, c.hash(e.supply.refresh.value)) == Err(NotFound)
  {
    hide Sound, Bounded, Injective;
    forall j | j in w.db.tokens ensures TokenKeys(w.db.tokens)[j] != c.hash(e.supply.refresh.value) {
      assert Hashes(c, w.h.issued)[j] == TokenKeys(w.db.tokens)[j];
    }
  }

  // The lookup tells two such tables apart only by an expired row.
  lemma FoundAlike(db1: Db, db2: Db, now: int, hash: string)
    requires Sound(db1) && Sound(db2) && Alike(db1, db2, now)
    ensures var r1, r2 := TokenByHash(db1, hash), TokenByHash(db2, hash);
      && (r1.Err? ==> r1.error == NotFound) && (r2.Err? ==> r2.error == NotFound)
      && (r1.Ok? && db1.tokens[r1.value].expiresAt >= now ==> r2 == r1)
      && (r2.Ok? && db2.tokens[r2.value].expiresAt >= now ==> r1 == r2 && db1.tokens[r1.value] == db2.tokens[r2.value])
  {
    hide RefsHold, Named, Only;
    OnlyTotal(TokenKeys(db1.tokens), hash);
    OnlyTotal(TokenKeys(db2.tokens), hash);
    var r1, r2 := TokenByHash(db1, hash), TokenByHash(db2, hash);
    if r1.Ok? && db1.tokens[r1.value].expiresAt >= now { OnlyFinds(TokenKeys(db2.tokens), r1.value); }
    if r2.Ok? && db2.tokens[r2.value].expiresAt >= now { OnlyFinds(TokenKeys(db1.tokens), r2.value); }
  }

  ghost predicate SameAnswer(c: Accounts.Config, w1: World, w2: World, e: Event) {
    var r1, r2 := Answer(c, w1, e), Answer(c, w2, e);
    r1.outcome == r2.outcome && r1.seqs == r2.seqs && Alike(r1.db, r2.db, w1.now)
  }

  lemma InsertAlike(db1: Db, db2: Db, seqs: Sequences, name: string, userId: int)
    requires db2 == db1.(tokens := db2.tokens)
    ensures
      var r1 := InsertNamespace(db1, seqs, name, "user", userId);
      var r2 := InsertNamespace(db2, seqs, name, "user", userId);
      && (r1.Ok? <==> r2.Ok?)
      && (r1.Ok? ==> r1.value.seqs == r2.value.seqs && r1.value.db == db1.(namespaces := r1.value.db.namespaces))
      && (r1.Ok? ==> r2.value.db == db2.(namespaces := r1.value.db.namespaces))
  {
    hide Only;
  }

  lemma RegisteredAlike(db1: Db, db2: Db, seqs: Sequences, now: int, email: string, userId: int,
                        faults: set<Accounts.Call>)
    requires Alike(db1, db2, now)
    ensures
      var r1 := Accounts.Registered(db1, seqs, email, userId, faults);
      var r2 := Accounts.Registered(db2, seqs, email, userId, faults);
      r1.1 == r2.1 && Alike(r1.0, r2.0, now) && r1.0.tokens == db1.tokens && r2.0.tokens == db2.tokens
  {
    hide InsertNamespace;
    InsertAlike(db1, db2, seqs, Text.LocalPart(email), userId);
  }

  lemma RegisterAlike(c: Accounts.Config, w1: World, w2: World, e: Event)
    requires Books(c, w1) && Books(c, w2) && Twin(w1, w2) && Fresh(c, w1, e) && Fresh(c, w2, e) && e.Register?
    ensures SameAnswer(c, w1, w2, e)
  {
    hide Books, Fresh, Only, Accounts.Issue, Accounts.Registered;
    if e.supply.refresh.Some? { FreshIsNew(c, w1, e); FreshIsNew(c, w2, e); }
    if e.hashed.Some? {
      var row := User(e.email, e.hashed.value);
      var u1, u2 := InsertUser(w1.db, w1.seqs, row), InsertUser(w2.db, w2.seqs, row);
      if u1.Ok? {
        RegisteredAlike(u1.value.db, u2.value.db, u1.value.seqs, w1.now, e.email, u1.value.id, e.faults);
        var (db1, seqs) := Accounts.Registered(u1.value.db, u1.value.seqs, e.email, u1.value.id, e.faults);
        var (db2, _) := Accounts.Registered(u2.value.db, u2.value.seqs, e.email, u2.value.id, e.faults);
        IssueAlike(db1, db2, seqs, c, u1.value.id, w1.now, e.supply, e.faults);
      }
    }
  }

  lemma LoginAlike(c: Accounts.Config, w1: World, w2: World, e: Event)
    requires Books(c, w1) && Books(c, w2) && Twin(w1, w2) && Fresh(c, w1, e) && Fresh(c, w2, e) && e.Login?
    ensures SameAnswer(c, w1, w2, e)
  {
    hide Books, Fresh, Only, Accounts.Issue;
    if e.supply.refresh.Some? { FreshIsNew(c, w1, e); FreshIsNew(c, w2, e); }
    var u := UserByEmail(w1.db, e.email);
    if u.Ok? { IssueAlike(w1.db, w2.db, w1.seqs, c, u.value, w1.now, e.supply, e.faults); }
  }

  lemma StillNew(db: Db, id: int, faults: set<Accounts.Call>, hash: string)
    requires TokenByHash(db, hash) == Err(NotFound)
    ensures TokenByHash(Accounts.Without(db, id, faults), hash) == Err(NotFound)
  {
    var rest := Accounts.Without(db, id, faults);
    forall j | j in rest.tokens ensures TokenKeys(rest.tokens)[j] != hash { assert TokenKeys(db.tokens)[j] != hash; }
  }

  // Removing one row from both tables, or an expired row from one of them, changes nothing that counts.
  lemma WithoutAlike(db1: Db, db2: Db, now: int, id: int, faults: set<Accounts.Call>)
    requires Alike(db1, db2, now)
    ensures Alike(Accounts.Without(db1, id, faults), Accounts.Without(db2, id, faults), now)
    ensures id in db1.tokens && db1.tokens[id].expiresAt < now ==> Alike(Accounts.Without(db1, id, faults), db2, now)
    ensures id in db2.tokens && db2.tokens[id].expiresAt < now ==> Alike(db1, Accounts.Without(db2, id, faults), now)
  {
  }

  lemma BooksSound(c: Accounts.Config, w: World)
    requires Books(c, w)
    ensures Sound(w.db)
  {
  }

  // The token is unexpired in both tables, or in neither.
  lemma UnexpiredAlike(c: Accounts.Config, w1: World, w2: World, e: Event, id: int)
    requires Books(c, w1) && Books(c, w2) && Twin(w1, w2) && Fresh(c, w1, e) && Fresh(c, w2, e) && e.Refresh?
    requires TokenByHash(w1.db, c.hash(e.raw)) == Ok(id) && TokenByHash(w2.db, c.hash(e.raw)) == Ok(id)
    requires w1.db.tokens[id].expiresAt >= w1.now
    ensures SameAnswer(c, w1, w2, e)
  {
    hide Books, Sound, Fresh, Accounts.Issue, Accounts.Without, TokenByHash;
    var row := w1.db.tokens[id];
    assert w2.db.tokens[id] == row;
    var rest1, rest2 := Accounts.Without(w1.db, id, e.faults), Accounts.Without(w2.db, id, e.faults);
    WithoutAlike(w1.db, w2.db, w1.now, id, e.faults);
    UsersKept(w1.db, id, e.faults);
    UsersKept(w2.db, id, e.faults);
    hide Alike;
    if e.supply.refresh.Some? {
      FreshIsNew(c, w1, e);
      FreshIsNew(c, w2, e);
      StillNew(w1.db, id, e.faults, c.hash(e.supply.refresh.value));
      StillNew(w2.db, id, e.faults, c.hash(e.supply.refresh.value));
    }
    IssueAlike(rest1, rest2, w1.seqs, c, row.userId, w1.now, e.supply, e.faults);
  }

  lemma UsersKept(db: Db, id: int, faults: set<Accounts.Call>)
    ensures Accounts.Without(db, id, faults).users == db.users
  {
  }

  lemma RefreshAlike(c: Accounts.Config, w1: World, w2: World, e: Event)
    requires Books(c, w1) && Books(c, w2) && Twin(w1, w2) && Fresh(c, w1, e) && Fresh(c, w2, e) && e.Refresh?
    ensures SameAnswer(c, w1, w2, e)
    ensures Answer(c, w1, e).outcome.Granted? ==> TokenByHash(w1.db, c.hash(e.raw)) == TokenByHash(w2.db, c.hash(e.raw))
  {
    hide Books, Sound, Fresh, Accounts.Issue, Accounts.Without, TokenByHash, Alike;
    BooksSound(c, w1);
    BooksSound(c, w2);
    FoundAlike(w1.db, w2.db, w1.now, c.hash(e.raw));
    var r1, r2 := TokenByHash(w1.db, c.hash(e.raw)), TokenByHash(w2.db, c.hash(e.raw));
    if r1.Ok? && w1.db.tokens[r1.value].expiresAt >= w1.now {
      UnexpiredAlike(c, w1, w2, e, r1.value);
    } else {
      if r1.Ok? { WithoutAlike(w1.db, w2.db, w1.now, r1.value, e.faults); }
      var left := if r1.Ok? then Accounts.Without(w1.db, r1.value, e.faults) else w1.db;
      if r2.Ok? {
        WithoutAlike(left, w2.db, w1.now, r2.value, e.faults);
        WithoutAlike(w1.db, w2.db, w1.now, r2.value, e.faults);
      }
    }
  }

  // Two worlds that differ in expired rows only give the same answers and stay that way.
  lemma TwinNext(c: Accounts.Config, w1: World, w2: World, e: Event)
    requires Books(c, w1) && Books(c, w2) && Twin(w1, w2) && Fresh(c, w1, e) && Fresh(c, w2, e) && !e.Purge?
    ensures Answer(c, w1, e).outcome == Answer(c, w2, e).outcome && Twin(Next(c, w1, e), Next(c, w2, e))
  {
    hide Books, Fresh, Answer, TokenByHash;
    match e
    case Register(_, _, _, _, _) => RegisterAlike(c, w1, w2, e);
    case Login(_, _, _, _) => LoginAlike(c, w1, w2, e);
    case Refresh(_, _, _) => RefreshAlike(c, w1, w2, e);
    case Tick(_) => TickAlike(c, w1, w2, e);
  }

  lemma TickAlike(c: Accounts.Config, w1: World, w2: World, e: Event)
    requires Twin(w1, w2) && e.Tick?
    ensures Answer(c, w1, e).outcome == Answer(c, w2, e).outcome && Twin(Next(c, w1, e), Next(c, w2, e))
  {
  }

  lemma TwinSelf(w: World)
    ensures Twin(w, w)
  {
  }

  lemma TwinPurge(c: Accounts.Config, w1: World, w2: World)
    requires Twin(w1, w2)
    ensures Twin(Next(c, w1, Purge), w2)
  {
  }

  lemma FreshTwin(c: Accounts.Config, w1: World, w2: World, e: Event)
    requires Twin(w1, w2) && Fresh(c, w1, e)
    ensures Fresh(c, w2, e)
  {
    hide Hashes;
  }

  // The same run without its purges.
  function Erase(es: seq<Event>): seq<Event> {
    if es == [] then [] else Erase(es[..|es| - 1]) + if es[|es| - 1].Purge? then [] else [es[|es| - 1]]
  }

  // What the callers are told, in order; a purge tells nobody anything.
  ghost function Outcomes(c: Accounts.Config, w: World, es: seq<Event>): seq<Accounts.Outcome> {
    if es == [] then []
    else Outcomes(c, w, es[..|es| - 1]) + if es[|es| - 1].Purge? then [] else [Outcome(c, w, es, |es| - 1)]
  }

  lemma {:induction false} Purged(c: Accounts.Config, w: World, es: seq<Event>)
    requires Books(c, w) && Valid(c, w, es)
    ensures Valid(c, w, Erase(es)) && Twin(Run(c, w, es), Run(c, w, Erase(es)))
    ensures Outcomes(c, w, es) == Outcomes(c, w, Erase(es))
    decreases |es|
  {
    hide Books, Answer, Next, Twin;
    if es == [] {
      TwinSelf(w);
    } else {
      var before, e := es[..|es| - 1], es[|es| - 1];
      Purged(c, w, before);
      var w1, w2 := Run(c, w, before), Run(c, w, Erase(before));
      if e.Purge? {
        assert Erase(es) == Erase(before);
        TwinPurge(c, w1, w2);
      } else {
        assert Erase(es)[..|Erase(es)| - 1] == Erase(before) && Erase(es)[|Erase(es)| - 1] == e;
        FreshTwin(c, w1, w2, e);
        RunBooks(c, w, before);
        RunBooks(c, w, Erase(before));
        TwinNext(c, w1, w2, e);
      }
    }
  }

  // Purging expired tokens at any moments changes no answer.
  lemma PurgesAreInvisible(c: Accounts.Config, db: Db, seqs: Sequences, now: int, es: seq<Event>)
    requires Sound(db) && Bounded(db, seqs) && Valid(c, Start(db, seqs, now), es)
    ensures Outcomes(c, Start(db, seqs, now), es) == Outcomes(c, Start(db, seqs, now), Erase(es))
  {
    hide Sound, Bounded, Valid, Outcomes, Erase;
    StartBooks(c, db, seqs, now);
    Purged(c, Start(db, seqs, now), es);
  }
}
