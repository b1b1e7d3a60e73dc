// Token scopes (internal/service/service.go): the parser of the Docker registry scope string, and the
// check that decides whether a token with these scopes is signed. Signing itself is outside the model.
module Scopes {
  import opened Wrappers
  import opened Tables
  import opened Registry
  import opened Store
  import opened Text
  import Server
  import Runs

  datatype Scope = Scope(kind: string, name: string, actions: seq<string>)

  // ----- Printing: type:name:action,action, the scopes separated by blanks -----

  function Print(s: Scope): string { s.kind + ":" + (s.name + ":" + Join(s.actions, ',')) }

  function Printed(ss: seq<Scope>): seq<string> { seq(|ss|, i requires 0 <= i < |ss| => Print(ss[i])) }

  function PrintAll(ss: seq<Scope>): string { Join(Printed(ss), ' ') }

  // ----- Parsing -----

  function ParsePart(part: string): Option<Scope> {
    var c1 := Index(part, ':');
    if c1 < 0 then None
    else
      var rest := part[c1 + 1..];
      var c2 := Index(rest, ':');
      if c2 < 0 then None else Some(Scope(part[..c1], rest[..c2], Split(rest[c2 + 1..], ',')))
  }

  // Parts that are blank are skipped; one bad part spoils the whole.
  function ParseParts(parts: seq<string>): Option<seq<Scope>> {
    if parts == [] then Some([])
    else
      var before, part := ParseParts(parts[..|parts| - 1]), TrimSpace(parts[|parts| - 1]);
      if before.None? || part == "" then before
      else match ParsePart(part)
        case None => None
        case Some(s) => Some(before.value + [s])
  }

  function Parse(raw: string): Option<seq<Scope>> { ParseParts(Split(raw, ' ')) }

  // The body of the parser's loop, for one part that is not blank.
  method ReadPart(part: string) returns (r: Option<Scope>)
    ensures r == ParsePart(part)
  {
    hide Index, Split, Join;
    var c1 := Index(part, ':');
    if c1 < 0 { return None; }
    var rest := part[c1 + 1..];
    var c2 := Index(rest, ':');
    if c2 < 0 { return None; }
    return Some(Scope(part[..c1], rest[..c2], Split(rest[c2 + 1..], ',')));
  }

  method ParseScopes(raw: string) returns (r: Result<seq<Scope>>)
    ensures r == match Parse(raw) case Some(ss) => Ok(ss) case None => Err(Invalid)
  {
    hide Index, Split, Join, TrimSpace, Trimmed, ParseParts, ParsePart;
    if raw == "" {
      ParseEmpty();
      return Ok([]);
    }
    var scopes := [];
    var parts := Split(raw, ' ');
    NothingParsed();
    for i := 0 to |parts|
      invariant ParseParts(parts[..i]) == Some(scopes)
    {
      var part := TrimSpace(parts[i]);
      ParseStep(parts[..i], parts[i]);
      assert parts[..i + 1] == parts[..i] + [parts[i]];
      if part == "" { continue; }
      var scope := ReadPart(part);
      if scope.None? {
        BadPart(parts, i);
        return Err(Invalid);
      }
      scopes := scopes + [scope.value];
    }
    assert parts[..|parts|] == parts;
    return Ok(scopes);
  }

  lemma NothingParsed()
    ensures ParseParts([]) == Some([])
  {
  }

  lemma ParseStep(parts: seq<string>, part: string)
    requires ParseParts(parts).Some?
    ensures TrimSpace(part) == "" ==> ParseParts(parts + [part]) == ParseParts(parts)
    ensures TrimSpace(part) != "" && ParsePart(TrimSpace(part)).Some? ==>
      ParseParts(parts + [part]) == Some(ParseParts(parts).value + [ParsePart(TrimSpace(part)).value])
  {
    hide TrimSpace, ParsePart;
    assert (parts + [part])[..|parts|] == parts;
  }

  lemma {:induction false} BadPart(parts: seq<string>, i: nat)
    requires i < |parts| && TrimSpace(parts[i]) != "" && ParsePart(TrimSpace(parts[i])).None?
    ensures ParseParts(parts).None?
    decreases |parts|
  {
    if i < |parts| - 1 { BadPart(parts[..|parts| - 1], i); }
  }

  // ----- What survives printing and parsing -----

  // No separator where it would be misread, at least one action, and no blank or outer white space.
  predicate Canonical(s: Scope) { Separable(s) && ' ' !in Print(s) && Trimmed(Print(s)) }

  // The part of Canonical that does not look at the whole text.
  predicate Separable(s: Scope) {
    ':' !in s.kind && ':' !in s.name && s.actions != [] && forall a | a in s.actions :: ',' !in a
  }

  lemma PartPrints(part: string)
    requires ParsePart(part).Some?
    ensures Print(ParsePart(part).value) == part && Separable(ParsePart(part).value)
  {
    hide Index, Split, Join;
    var c1 := Index(part, ':');
    var rest := part[c1 + 1..];
    var c2 := Index(rest, ':');
    PartSeparable(part);
    CutAt(rest, c2);
    CutAt(part, c1);
  }

  lemma CutAt(s: string, i: nat)
    requires i < |s| && s[i] == ':'
    ensures s[..i] + (":" + s[i + 1..]) == s && s[..i] + ":" + s[i + 1..] == s
  {
  }

  lemma PartSeparable(part: string)
    requires ParsePart(part).Some?
    ensures Separable(ParsePart(part).value)
  {
    hide Index, Split, Join;
    var rest := part[Index(part, ':') + 1..];
    SplitParts(rest[Index(rest, ':') + 1..], ',');
  }

  lemma PrintParses(s: Scope)
    requires Separable(s)
    ensures ParsePart(Print(s)) == Some(s) && Print(s) != ""
  {
    hide Index, Split, Join;
    var list := Join(s.actions, ',');
    var rest := s.name + ":" + list;
    IndexOfFirst(s.kind, ':', rest);
    IndexOfFirst(s.name, ':', list);
    assert Print(s)[..|s.kind|] == s.kind && Print(s)[|s.kind| + 1..] == rest;
    assert rest[..|s.name|] == s.name && rest[|s.name| + 1..] == list;
    SplitJoin(s.actions, ',');
  }

  // Everything the parser accepts is in canonical form.
  lemma {:induction false} ParsedIsCanonical(parts: seq<string>)
    requires ParseParts(parts).Some? && forall p | p in parts :: ' ' !in p
    ensures forall s | s in ParseParts(parts).value :: Canonical(s)
    decreases |parts|
  {
    hide ParsePart, Print, Separable, TrimSpace, Trimmed;
    if parts != [] {
      ParsedIsCanonical(parts[..|parts| - 1]);
      var part := TrimSpace(parts[|parts| - 1]);
      TrimmedChars(parts[|parts| - 1]);
      if part != "" { PartPrints(part); }
    }
  }

  lemma {:induction false} CanonicalParses(ss: seq<Scope>)
    requires forall s | s in ss :: Canonical(s)
    ensures ParseParts(Printed(ss)) == Some(ss)
    decreases |ss|
  {
    hide ParsePart, Print, Separable, TrimSpace, Trimmed;
    if ss != [] {
      var before, s := ss[..|ss| - 1], ss[|ss| - 1];
      assert ss == before + [s];
      CanonicalParses(before);
      assert Printed(ss)[..|ss| - 1] == Printed(before);
      assert Canonical(s);
      PrintParses(s);
    }
  }

  lemma ParseEmpty()
    ensures Parse("") == Some([]) && PrintAll([]) == ""
  {
    assert Split("", ' ') == [""];
    assert [""][..0] == [];
  }

  // Printing and parsing gives the same scopes back exactly when all of them are canonical.
  lemma RoundTripIff(ss: seq<Scope>)
    ensures Parse(PrintAll(ss)) == Some(ss) <==> forall s | s in ss :: Canonical(s)
  {
    hide Print, Separable, Split, Join, Trimmed, ParseParts;
    if forall s | s in ss :: Canonical(s) {
      if ss == [] {
        ParseEmpty();
      } else {
        forall p | p in Printed(ss) ensures ' ' !in p {
          var i :| 0 <= i < |ss| && p == Print(ss[i]);
          assert Canonical(ss[i]);
        }
        SplitJoin(Printed(ss), ' ');
        CanonicalParses(ss);
      }
    }
    if Parse(PrintAll(ss)) == Some(ss) {
      SplitParts(PrintAll(ss), ' ');
      ParsedIsCanonical(Split(PrintAll(ss), ' '));
    }
  }

  // Whatever the parser accepts, it accepts again when printed, with the same result.
  lemma ParseIsStable(raw: string)
    requires Parse(raw).Some?
    ensures Parse(PrintAll(Parse(raw).value)) == Parse(raw)
  {
    SplitParts(raw, ' ');
    ParsedIsCanonical(Split(raw, ' '));
    RoundTripIff(Parse(raw).value);
  }

  // ----- What the parser accepts -----

  // The parts that are not blank, trimmed.
  function Cleaned(parts: seq<string>): seq<string> {
    if parts == [] then []
    else
      var part := TrimSpace(parts[|parts| - 1]);
      Cleaned(parts[..|parts| - 1]) + if part == "" then [] else [part]
  }

  predicate TwoColons(part: string) { exists i, j :: 0 <= i < j < |part| && part[i] == ':' && part[j] == ':' }

  lemma PartParsesIff(part: string)
    ensures ParsePart(part).Some? <==> TwoColons(part)
  {
    hide Index, Split;
    var c1 := Index(part, ':');
    if c1 >= 0 {
      var rest := part[c1 + 1..];
      var c2 := Index(rest, ':');
      if c2 >= 0 { assert part[c1 + 1 + c2] == ':'; }
      if i, j :| 0 <= i < j < |part| && part[i] == ':' && part[j] == ':' {
        assert forall k | 0 <= k < c1 :: part[k] in part[..c1];
        assert rest[j - c1 - 1] == ':';
      }
    }
  }

  lemma {:induction false} ParsedParts(parts: seq<string>)
    ensures ParseParts(parts).Some? <==> forall p | p in Cleaned(parts) :: TwoColons(p)
    ensures ParseParts(parts).Some? ==> Printed(ParseParts(parts).value) == Cleaned(parts)
    decreases |parts|
  {
    hide TrimSpace, ParsePart, TwoColons, Print;
    if parts != [] {
      ParsedParts(parts[..|parts| - 1]);
      var part := TrimSpace(parts[|parts| - 1]);
      PartParsesIff(part);
      if ParsePart(part).Some? { PartPrints(part); }
    }
  }

  // A text is accepted exactly when each of its parts that is not blank has two colons, and the scopes then
  // print as these parts.
  lemma ParsesIff(raw: string)
    ensures Parse(raw).Some? <==> forall p | p in Cleaned(Split(raw, ' ')) :: TwoColons(p)
    ensures Parse(raw).Some? ==> PrintAll(Parse(raw).value) == Join(Cleaned(Split(raw, ' ')), ' ')
  {
    hide Split, Join, ParseParts, Cleaned, Printed, TwoColons;
    ParsedParts(Split(raw, ' '));
  }

  // The scope the command-line tool asks for is understood as meant exactly when the reference holds
  // neither a colon nor a blank.
  lemma CliScopeUnderstood(ns: string, name: string)
    ensures Parse("repository:" + ns + "/" + name + ":pull,push") ==
      Some([Scope("repository", ns + "/" + name, ["pull", "push"])])
      <==> (forall c | c in ns + name :: c != ':' && c != ' ')
  {
    hide Split, Join, IsSpace, Parse;
    CliScopePrints(ns, name);
    var s := Scope("repository", ns + "/" + name, ["pull", "push"]);
    RoundTripIff([s]);
    CliScopeCanonical(ns, name);
  }

  lemma CliScopePrints(ns: string, name: string)
    ensures PrintAll([Scope("repository", ns + "/" + name, ["pull", "push"])]) ==
      "repository:" + ns + "/" + name + ":pull,push"
  {
    var s := Scope("repository", ns + "/" + name, ["pull", "push"]);
    assert Join(["pull", "push"], ',') == "pull,push";
    assert Printed([s]) == [Print(s)];
  }

  lemma CharsOf(head: string, ns: string, name: string, tail: string)
    ensures forall c :: c in head + (ns + "/" + name) + tail <==> c in head || c in ns + name || c == '/' || c in tail
  {
  }

  lemma CliScopeCanonical(ns: string, name: string)
    ensures Canonical(Scope("repository", ns + "/" + name, ["pull", "push"])) <==> forall c | c in ns + name ::
      c != ':' && c != ' '
  {
    hide Split, Print, Join;
    var s := Scope("repository", ns + "/" + name, ["pull", "push"]);
    CliPrint(ns, name);
    CharsOf("repository:", ns, name, ":pull,push");
    CharsOf("", ns, name, "");
    assert "" + (ns + "/" + name) + "" == s.name;
    FixedChars();
  }

  lemma FixedChars()
    ensures ' ' !in "repository:" && ' ' !in ":pull,push" && ' ' !in ":pull" && ':' !in "repository"
    ensures forall a | a in ["pull", "push"] :: ',' !in a
    ensures !IsSpace('r') && !IsSpace('h') && !IsSpace('l')
  {
  }

  lemma CliPrint(ns: string, name: string)
    ensures var text := Print(Scope("repository", ns + "/" + name, ["pull", "push"]));
      text == "repository:" + (ns + "/" + name) + ":pull,push" && text[0] == 'r' && text[|text| - 1] == 'h'
  {
    assert Join(["pull", "push"], ',') == "pull,push";
  }

  // ----- Which tokens are signed -----

  function NamespaceOf(name: string): string { if Index(name, '/') >= 0 then name[..Index(name, '/')] else name }

  // Anyone may pull from a namespace that exists. Only its owner may push to it; an unowned one is open to all.
  ghost predicate MayAccess(db: Db, s: Scope, userId: int) {
    var n := NamespaceByName(db, NamespaceOf(s.name));
    && n.Ok?
    && var owner := db.namespaces[n.value].owner;
       "push" in s.actions ==> owner.None? || owner.value == userId
  }

  // Signed carries the access list handed to the signer.
  datatype Verdict = Signed(access: seq<Scope>) | InvalidScope | Forbidden

  ghost function Issue(db: Db, rawScope: string, userId: int, faults: set<nat>): Verdict {
    match Parse(rawScope)
    case None => InvalidScope
    case Some(ss) =>
      if forall i | 0 <= i < |ss| :: i !in faults && MayAccess(db, ss[i], userId) then Signed(ss) else Forbidden
  }

  // The namespace of a name is what stands before its first slash, or all of it.
  lemma NamespaceCut(ns: string, name: string)
    ensures NamespaceOf(ns + "/" + name) == ns <==> '/' !in ns
    ensures NamespaceOf(ns) == ns <==> '/' !in ns
  {
    hide Index;
    var path := ns + "/" + name;
    if '/' !in ns {
      IndexOfFirst(ns, '/', name);
      assert path[..|ns|] == ns;
    } else {
      assert '/' !in NamespaceOf(path);
    }
  }

  // Access is to a namespace that exists and, for a push, has no owner or the caller as its owner.
  lemma AccessIff(db: Db, s: Scope, userId: int)
    requires Sound(db)
    ensures var ns := NamespaceOf(s.name);
      MayAccess(db, s, userId) <==>
        ns in Owners(db) && ("push" in s.actions ==> Owners(db)[ns] == None || Owners(db)[ns] == Some(userId))
  {
    hide Sound, Owners, NamespaceByName, NamespaceOf;
    NamespaceRead(db, NamespaceOf(s.name));
  }

  // A list of canonical scopes is signed, all of it, exactly when the lookup of every single one succeeds and
  // gives access; otherwise the request is forbidden. A text the parser does not accept is an invalid scope.
  lemma SignedIff(db: Db, ss: seq<Scope>, userId: int, faults: set<nat>)
    requires forall s | s in ss :: Canonical(s)
    ensures var every := forall i | 0 <= i < |ss| :: i !in faults && MayAccess(db, ss[i], userId);
      Issue(db, PrintAll(ss), userId, faults) == if every then Signed(ss) else Forbidden
    ensures forall raw :: Issue(db, raw, userId, faults) == InvalidScope <==> Parse(raw).None?
  {
    hide Parse, PrintAll, Canonical, MayAccess;
    RoundTripIff(ss);
  }

  class AuthService {
    const store: Adapter

    constructor (store: Adapter)
      ensures this.store == store
    {
      this.store := store;
    }

    // userId is 0 for a caller who is not logged in; faults are the lookups that fail. The access list
    // is all scopes in order, or there is none.
    method IssueJWT(rawScope: string, userId: int, faults: set<nat>) returns (r: Verdict)
      ensures r == Issue(store.db, rawScope, userId, faults)
      ensures forall ss | rawScope == PrintAll(ss) && (forall s | s in ss :: Canonical(s)) ::
        r == if forall i | 0 <= i < |ss| :: i !in faults && MayAccess(store.db, ss[i], userId) then Signed(ss)
             else Forbidden
      ensures r == InvalidScope <==> Parse(rawScope).None?
      ensures r.Signed? ==>
        Parse(rawScope) == Some(r.access) && forall i | 0 <= i < |r.access| ::
          i !in faults && MayAccess(store.db, r.access[i], userId)
    {
      hide Parse, PrintAll, Canonical, Index, NamespaceByName;
      forall ss | rawScope == PrintAll(ss) && (forall s | s in ss :: Canonical(s)) ensures Parse(rawScope) == Some(ss) {
        RoundTripIff(ss);
      }
      var scopes := ParseScopes(rawScope);
      if scopes.Err? { return InvalidScope; }
      var accesses := [];
      for i := 0 to |scopes.value|
        invariant accesses == scopes.value[..i]
        invariant forall k | 0 <= k < i :: k !in faults && MayAccess(store.db, scopes.value[k], userId)
      {
        var sc := scopes.value[i];
        var nsName := sc.name;
        var idx := Index(nsName, '/');
        if idx >= 0 { nsName := nsName[..idx]; }
        var ns := store.NamespaceGetByName(nsName, i in faults);
        if ns.Err? { return Forbidden; }
        var owner := store.db.namespaces[ns.value].owner;
        if owner.Some? && owner.value != userId {
          var hasPush := false;
          for j := 0 to |sc.actions|
            invariant hasPush <==> "push" in sc.actions[..j]
          {
            if sc.actions[j] == "push" {
              hasPush := true;
              break;
            }
          }
          assert sc.actions[..|sc.actions|] == sc.actions;
          if hasPush { return Forbidden; }
        }
        accesses := accesses + [sc];
      }
      return Signed(accesses);
    }
  }

  // The design wants every scope's namespace to be the caller's own, which is what the gate in front of
  // publish asks. A token is signed against that rule for pull-only scopes on other users' namespaces,
  // for every scope on unowned ones, and in no other case.
  lemma TokenAgreesIff(db: Db, s: Scope, userId: int)
    ensures var n := NamespaceByName(db, NamespaceOf(s.name));
      (MayAccess(db, s, userId) <==> Server.MayPublish(db, NamespaceOf(s.name), userId)) <==>
        !(n.Ok? && var owner := db.namespaces[n.value].owner;
                   owner != Some(userId) && (owner.None? || "push" !in s.actions))
  {
  }

  // A namespace of user 1, and a token for user 2 to pull from it.
  const OWNED := EMPTY.(namespaces := map[1 := Namespace("n", "user", Some(1))],
                        users := map[1 := User("n@x", "h"), 2 := User("m@x", "h")])
  const PULL := Scope("repository", "n/p", ["pull"])

  lemma StrangerMayPull()
    ensures Sound(OWNED) && Issue(OWNED, "repository:n/p:pull", 2, {}) == Signed([PULL])
    ensures !Server.MayPublish(OWNED, "n", 2)
  {
    hide Parse, Sound, Canonical, PrintAll, NamespaceByName, NamespaceOf;
    OwnedLookup();
    PullPrints();
    PullIsCanonical();
    RoundTripIff([PULL]);
  }

  lemma OwnedLookup()
    ensures Sound(OWNED) && NamespaceByName(OWNED, "n") == Ok(1) && NamespaceOf(PULL.name) == "n"
  {
    hide Only, Index;
    OnlyFinds(NamespaceKeys(OWNED.namespaces), 1);
    IndexOfFirst("n", '/', "p");
    assert "n" + ['/'] + "p" == PULL.name && PULL.name[..1] == "n";
  }

  lemma PullPrints()
    ensures Print(PULL) == "repository:" + ("n" + "/" + "p") + ":pull" && PrintAll([PULL]) == "repository:n/p:pull"
  {
    assert Join(["pull"], ',') == "pull";
    assert Printed([PULL]) == [Print(PULL)];
  }

  lemma PullIsCanonical()
    ensures Canonical(PULL)
  {
    hide Print, IsSpace;
    PullPrints();
    CharsOf("repository:", "n", "p", ":pull");
    CharsOf("", "n", "p", "");
    FixedChars();
    assert PULL.name == "" + ("n" + "/" + "p") + "";
    assert Print(PULL)[0] == 'r' && Print(PULL)[|Print(PULL)| - 1] == 'l';
  }

  // In runs of the routed steps, where every namespace has an owner: anyone may pull from a namespace
  // that exists, and push exactly where the gate lets the caller publish.
  lemma TokensOnRoutedRuns(db: Db, seqs: Sequences, es: seq<Server.Event>, s: Scope, userId: int)
    requires Consistent(db) && Bounded(db, seqs) && Runs.Owned(db)
    requires forall i | 0 <= i < |es| && es[i].Begin? :: es[i].caller.Some?
    ensures var now := Runs.Run(Runs.Start(db, seqs), es).db;
      MayAccess(now, s, userId) <==>
        NamespaceByName(now, NamespaceOf(s.name)).Ok?
        && ("push" in s.actions ==> Server.MayPublish(now, NamespaceOf(s.name), userId))
  {
    hide Consistent, Bounded, Runs.Run, NamespaceOf, NamespaceByName;
    Runs.RoutedRunsKeepOwners(db, seqs, es);
    var now := Runs.Run(Runs.Start(db, seqs), es).db;
    var n := NamespaceByName(now, NamespaceOf(s.name));
    assert n.Ok? ==> Runs.NamedAfterOwner(now, n.value);
  }
}
