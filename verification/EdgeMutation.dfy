// internal/ent/mutation.go and internal/ent/namespace_update.go: the record that stands for a series
// of changes to the plugins edge of a namespace, and the save that turns it into edge clears and adds.
module EdgeMutation {
  import opened Wrappers

  // The changes recorded and not yet saved.
  datatype Pending = Pending(added: set<int>, removed: set<int>, cleared: bool)

  datatype Call = Add(ids: seq<int>) | Remove(ids: seq<int>) | Clear | Reset

  const NONE := Pending({}, {}, false)

  function Ids(ids: seq<int>): set<int> { set x | x in ids }

  function Record(p: Pending, call: Call): Pending {
    match call
    case Add(ids) => p.(added := p.added + Ids(ids))
    case Remove(ids) => p.(added := p.added - Ids(ids), removed := p.removed + Ids(ids))
    case Clear => p.(cleared := true)
    case Reset => NONE
  }

  datatype Edge = Plugins | User

  // An edge clear without nodes clears the whole edge.
  datatype EdgeSpec = EdgeSpec(edge: Edge, nodes: seq<int>)

  // Fields to set, then edges to clear, then edges to add.
  datatype UpdateSpec = UpdateSpec(name: Option<string>, kind: Option<string>, clear: seq<EdgeSpec>, add: seq<EdgeSpec>)

  // The plugins edge after the clears and then the adds of one update.
  function Target(ids: set<int>, clear: seq<EdgeSpec>, add: seq<EdgeSpec>): set<int> {
    (set x | x in ids && forall e | e in clear && e.edge == Plugins :: e.nodes != [] && x !in e.nodes)
    + set e, x | e in add && e.edge == Plugins && x in e.nodes :: x
  }

  // The owner after them: the user edge has at most one node.
  function Owner(owner: Option<int>, clear: seq<EdgeSpec>, add: seq<EdgeSpec>): Option<int> {
    if add != [] && add[|add| - 1].edge == User && add[|add| - 1].nodes != [] then Some(add[|add| - 1].nodes[0])
    else if exists e :: e in clear && e.edge == User then None
    else owner
  }

  // One namespace row with its owner and the ids of its plugins edge.
  class Row {
    var name: string
    var kind: string
    var owner: Option<int>
    var ids: set<int>

    constructor (name: string, kind: string, owner: Option<int>, ids: set<int>)
      ensures this.name == name && this.kind == kind && this.owner == owner && this.ids == ids
    {
      this.name, this.kind, this.owner, this.ids := name, kind, owner, ids;
    }

    method UpdateNodes(spec: UpdateSpec, fault: bool) returns (r: Result<()>)
      modifies this
      ensures r.Err? <==> fault
      ensures ids == if fault then old(ids) else Target(old(ids), spec.clear, spec.add)
      ensures owner == if fault then old(owner) else Owner(old(owner), spec.clear, spec.add)
      ensures name == if !fault && spec.name.Some? then spec.name.value else old(name)
      ensures kind == if !fault && spec.kind.Some? then spec.kind.value else old(kind)
    {
      if fault { return Err(Fault); }
      if spec.name.Some? { name := spec.name.value; }
      if spec.kind.Some? { kind := spec.kind.value; }
      ids := Target(ids, spec.clear, spec.add);
      owner := Owner(owner, spec.clear, spec.add);
      return Ok(());
    }
  }

  // The recorded change of the owner. The edge's own mark and the cleared-field mark are separate.
  datatype PendingUser = PendingUser(user: Option<int>, edgeCleared: bool, fieldCleared: bool)

  datatype UserCall = SetUserID(id: int) | ClearUserID | ResetUserID | ClearUser | ResetUser

  const NO_USER := PendingUser(None, false, false)

  function RecordUser(p: PendingUser, call: UserCall): PendingUser {
    match call
    case SetUserID(id) => p.(user := Some(id))
    case ClearUserID => p.(user := None, fieldCleared := true)
    case ResetUserID => p.(user := None, fieldCleared := false)
    case ClearUser => p.(edgeCleared := true, fieldCleared := true)
    case ResetUser => p.(user := None, edgeCleared := false)
  }

  class NamespaceMutation {
    var id: Option<int>
    var name: Option<string>
    var kind: Option<string>
    var plugins: set<int>
    var removedplugins: set<int>
    var clearedplugins: bool
    var user: Option<int>
    var cleareduser: bool
    var clearedUserID: bool   // user_id is among the cleared fields
    var done: bool

    ghost function Recorded(): Pending
      reads this
    {
      Pending(plugins, removedplugins, clearedplugins)
    }

    ghost function RecordedUser(): PendingUser
      reads this
    {
      PendingUser(user, cleareduser, clearedUserID)
    }

    constructor ()
      ensures Recorded() == NONE && RecordedUser() == NO_USER && !done && id.None? && name.None? && kind.None?
    {
      id, name, kind, plugins, removedplugins, clearedplugins, done := None, None, None, {}, {}, false, false;
      user, cleareduser, clearedUserID := None, false, false;
    }

    method SetID(id: int)
      modifies this`id
      ensures this.id == Some(id)
    {
      this.id := Some(id);
    }

    method SetUserID(id: int)
      modifies this`user
      ensures RecordedUser() == RecordUser(old(RecordedUser()), UserCall.SetUserID(id))
    {
      user := Some(id);
    }

    method ClearUserID()
      modifies this`user, this`clearedUserID
      ensures RecordedUser() == RecordUser(old(RecordedUser()), UserCall.ClearUserID)
      ensures user.None? && clearedUserID
    {
      user, clearedUserID := None, true;
    }

    method ResetUserID()
      modifies this`user, this`clearedUserID
      ensures RecordedUser() == RecordUser(old(RecordedUser()), UserCall.ResetUserID)
      ensures user.None? && !clearedUserID
    {
      user, clearedUserID := None, false;
    }

    method ClearUser()
      modifies this`cleareduser, this`clearedUserID
      ensures RecordedUser() == RecordUser(old(RecordedUser()), UserCall.ClearUser)
      ensures cleareduser && clearedUserID
    {
      cleareduser, clearedUserID := true, true;
    }

    method ResetUser()
      modifies this`user, this`cleareduser
      ensures RecordedUser() == RecordUser(old(RecordedUser()), UserCall.ResetUser)
      ensures user.None? && !cleareduser
    {
      user, cleareduser := None, false;
    }

    method AddPluginIDs(ids: seq<int>)
      modifies this`plugins
      ensures Recorded() == Record(old(Recorded()), Add(ids))
    {
      for i := 0 to |ids|
        invariant plugins == old(plugins) + Ids(ids[..i])
      {
        plugins := plugins + {ids[i]};
      }
    }

    method RemovePluginIDs(ids: seq<int>)
      modifies this`plugins, this`removedplugins
      ensures Recorded() == Record(old(Recorded()), Remove(ids))
    {
      for i := 0 to |ids|
        invariant plugins == old(plugins) - Ids(ids[..i]) && removedplugins == old(removedplugins) + Ids(ids[..i])
      {
        plugins := plugins - {ids[i]};
        removedplugins := removedplugins + {ids[i]};
      }
    }

    method ClearPlugins()
      modifies this`clearedplugins
      ensures Recorded() == Record(old(Recorded()), Clear)
    {
      clearedplugins := true;
    }

    method ResetPlugins()
      modifies this`plugins, this`removedplugins, this`clearedplugins
      ensures Recorded() == Record(old(Recorded()), Reset)
    {
      plugins, clearedplugins, removedplugins := {}, false, {};
    }
  }

  // The keys of a map, in some order.
  method Listed<T(==)>(ids: set<T>) returns (r: seq<T>)
    ensures forall x :: x in r <==> x in ids
  {
    r := [];
    var todo := ids;
    while todo != {}
      invariant todo <= ids
      invariant forall x :: x in r <==> x in ids && x !in todo
      decreases todo
    {
      var x :| x in todo;
      r, todo := r + [x], todo - {x};
    }
  }

  // The edge a saved record leaves where old was.
  function Saved(old_: set<int>, p: Pending): set<int> {
    (if p.cleared then {} else old_ - p.removed) + p.added
  }

  // The owner a saved record leaves: a user that is set counts even after a clear.
  function SavedOwner(old_: Option<int>, p: PendingUser): Option<int> {
    if p.user.Some? then p.user else if p.edgeCleared || p.fieldCleared then None else old_
  }

  function PluginClears(p: Pending, removed: seq<int>): seq<EdgeSpec> {
    if p.cleared then [EdgeSpec(Plugins, [])] else if removed == [] then [] else [EdgeSpec(Plugins, removed)]
  }

  function PluginAdds(added: seq<int>): seq<EdgeSpec> { if added == [] then [] else [EdgeSpec(Plugins, added)] }

  function UserClears(u: PendingUser): seq<EdgeSpec> {
    if u.edgeCleared || u.fieldCleared then [EdgeSpec(User, [])] else []
  }

  function UserAdds(u: PendingUser): seq<EdgeSpec> { if u.user.Some? then [EdgeSpec(User, [u.user.value])] else [] }

  lemma SpecsMean(old_: set<int>, p: Pending, u: PendingUser, removed: seq<int>, added: seq<int>)
    requires forall x :: x in removed <==> x in p.removed
    requires forall x :: x in added <==> x in p.added
    ensures Target(old_, PluginClears(p, removed) + UserClears(u), PluginAdds(added) + UserAdds(u)) == Saved(old_, p)
  {
    var clear, add := PluginClears(p, removed) + UserClears(u), PluginAdds(added) + UserAdds(u);
    var t, s := Target(old_, clear, add), Saved(old_, p);
    forall x ensures x in t <==> x in s {
      if added != [] { assert add[0] in add; }
      if p.cleared || removed != [] { assert clear[0] in clear; }
    }
  }

  lemma UserSpecsMean(old_: Option<int>, p: Pending, u: PendingUser, removed: seq<int>, added: seq<int>)
    ensures Owner(old_, PluginClears(p, removed) + UserClears(u), PluginAdds(added) + UserAdds(u)) ==
      SavedOwner(old_, u)
  {
    var clear, add := PluginClears(p, removed) + UserClears(u), PluginAdds(added) + UserAdds(u);
    if u.user.Some? { assert add[|add| - 1] == EdgeSpec(User, [u.user.value]); }
    if UserClears(u) != [] { assert clear[|clear| - 1] == EdgeSpec(User, []); }
  }

  // sqlSave, up to the call of UpdateNodes: removals matter only when the edge is not cleared, and an empty
  // list of removals must not become an edge clear, since that would clear everything.
  method BuildSpec(m: NamespaceMutation) returns (spec: UpdateSpec, ghost removed: seq<int>, ghost added: seq<int>)
    ensures forall x :: x in removed <==> x in m.removedplugins
    ensures forall x :: x in added <==> x in m.plugins
    ensures spec == UpdateSpec(m.name, m.kind, PluginClears(m.Recorded(), removed) + UserClears(m.RecordedUser()),
                               PluginAdds(added) + UserAdds(m.RecordedUser()))
  {
    var clear: seq<EdgeSpec>, add: seq<EdgeSpec> := [], [];
    if m.clearedplugins { clear := clear + [EdgeSpec(Plugins, [])]; }
    var nodes := Listed(m.removedplugins);
    if |nodes| > 0 && !m.clearedplugins { clear := clear + [EdgeSpec(Plugins, nodes)]; }
    removed := nodes;
    nodes := Listed(m.plugins);
    if |nodes| > 0 { add := add + [EdgeSpec(Plugins, nodes)]; }
    added := nodes;
    if m.clearedUserID || m.cleareduser { clear := clear + [EdgeSpec(User, [])]; }
    if m.user.Some? { add := add + [EdgeSpec(User, [m.user.value])]; }
    assert clear == PluginClears(m.Recorded(), removed) + UserClears(m.RecordedUser());
    spec := UpdateSpec(m.name, m.kind, clear, add);
  }

  // sqlSave
  method SqlSave(m: NamespaceMutation, row: Row, fault: bool) returns (r: Result<()>)
    modifies m`done, row
    ensures r.Ok? <==> m.name != Some("") && m.kind != Some("") && !fault
    ensures r.Ok? ==> m.done && row.ids == Saved(old(row.ids), m.Recorded())
    ensures r.Ok? ==> row.owner == SavedOwner(old(row.owner), m.RecordedUser())
    ensures r.Ok? ==> row.name == if m.name.Some? then m.name.value else old(row.name)
    ensures r.Ok? ==> row.kind == if m.kind.Some? then m.kind.value else old(row.kind)
    ensures r.Err? ==> m.done == old(m.done)
    ensures r.Err? ==>
      row.ids == old(row.ids) && row.owner == old(row.owner) && row.name == old(row.name) && row.kind == old(row.kind)
  {
    hide Target, Owner, Saved, SavedOwner, PluginClears, PluginAdds, UserClears, UserAdds;
    // check: a name or a type that is set must not be empty
    if m.name == Some("") { return Err(Invalid); }
    if m.kind == Some("") { return Err(Invalid); }
    ghost var removed, added;
    var spec: UpdateSpec;
    spec, removed, added := BuildSpec(m);
    SpecsMean(row.ids, m.Recorded(), m.RecordedUser(), removed, added);
    UserSpecsMean(row.owner, m.Recorded(), m.RecordedUser(), removed, added);
    r := row.UpdateNodes(spec, fault);
    if r.Err? { return; }
    m.done := true;
  }

  // ----- What a series of calls means -----

  function Run(calls: seq<Call>): Pending {
    if calls == [] then NONE else Record(Run(calls[..|calls| - 1]), calls[|calls| - 1])
  }

  // The calls after the last reset.
  function SinceReset(calls: seq<Call>): seq<Call> {
    if calls == [] || calls[|calls| - 1].Reset? then [] else SinceReset(calls[..|calls| - 1]) + [calls[|calls| - 1]]
  }

  // Adds and removes applied to the edge one by one, in order; clears take no effect of their own.
  function Fold(ids: set<int>, calls: seq<Call>): set<int> {
    if calls == [] then ids
    else
      var before := Fold(ids, calls[..|calls| - 1]);
      match calls[|calls| - 1]
      case Add(added) => AddAll(before, added)
      case Remove(removed) => RemoveAll(before, removed)
      case Clear => before
      case Reset => before
  }

  function AddAll(ids: set<int>, added: seq<int>): set<int> {
    if added == [] then ids else AddAll(ids, added[..|added| - 1]) + {added[|added| - 1]}
  }

  function RemoveAll(ids: set<int>, removed: seq<int>): set<int> {
    if removed == [] then ids else RemoveAll(ids, removed[..|removed| - 1]) - {removed[|removed| - 1]}
  }

  lemma {:induction false} AllAtOnce(ids: set<int>, xs: seq<int>)
    ensures AddAll(ids, xs) == ids + Ids(xs) && RemoveAll(ids, xs) == ids - Ids(xs)
    decreases |xs|
  {
    if xs != [] {
      AllAtOnce(ids, xs[..|xs| - 1]);
      assert Ids(xs) == Ids(xs[..|xs| - 1]) + {xs[|xs| - 1]};
    }
  }

  lemma {:induction false} RecordMeans(old_: set<int>, calls: seq<Call>)
    ensures var p, since := Run(calls), SinceReset(calls);
      && p.cleared == (Clear in since)
      && (old_ - p.removed) + p.added == Fold(old_, since)
      && p.added == Fold({}, since)
    decreases |calls|
  {
    if calls != [] {
      var before, call := calls[..|calls| - 1], calls[|calls| - 1];
      RecordMeans(old_, before);
      if !call.Reset? { assert SinceReset(calls)[..|SinceReset(before)|] == SinceReset(before); }
      match call
      case Add(ids) => AllAtOnce(Fold(old_, SinceReset(before)), ids); AllAtOnce(Fold({}, SinceReset(before)), ids);
      case Remove(ids) => AllAtOnce(Fold(old_, SinceReset(before)), ids); AllAtOnce(Fold({}, SinceReset(before)), ids);
      case Clear =>
      case Reset =>
    }
  }

  // A save leaves the edge that applying the adds and removes since the last reset one by one leaves,
  // starting from the old edge, or from the empty one if a clear was among those calls.
  lemma SaveIsSequential(old_: set<int>, calls: seq<Call>)
    ensures var since := SinceReset(calls);
      Saved(old_, Run(calls)) == Fold(if Clear in since then {} else old_, since)
  {
    RecordMeans(old_, calls);
  }

  // So a clear does not take back earlier adds: it empties the edge if and only if the calls before it
  // left nothing to add.
  lemma ClearEmptiesIff(old_: set<int>, calls: seq<Call>)
    ensures Saved(old_, Run(calls + [Clear])) == {} <==> Run(calls).added == {}
  {
    assert (calls + [Clear])[..|calls|] == calls;
  }

  // The calls one by one: what a save after one more call leaves, from what it left before it. With the empty
  // series, which saves the old edge, this fixes every save.
  lemma SaveSteps(old_: set<int>, calls: seq<Call>, ids: seq<int>)
    ensures Saved(old_, Run([])) == old_
    ensures Saved(old_, Run(calls + [Add(ids)])) == Saved(old_, Run(calls)) + set x | x in ids
    ensures Saved(old_, Run(calls + [Remove(ids)])) == Saved(old_, Run(calls)) - set x | x in ids
    ensures Saved(old_, Run(calls + [Clear])) == Saved({}, Run(calls))
    ensures Saved(old_, Run(calls + [Reset])) == old_
  {
    assert (calls + [Add(ids)])[..|calls|] == calls && (calls + [Remove(ids)])[..|calls|] == calls;
    assert (calls + [Clear])[..|calls|] == calls && (calls + [Reset])[..|calls|] == calls;
  }

  // An added plugin survives a later clear, whatever the edge was.
  lemma AddSurvivesClear()
    ensures Saved({}, Run([Add([1]), Clear])) == {1} && Saved({2}, Run([Add([1]), Clear])) == {1}
  {
    assert [Add([1]), Clear][..1] == [Add([1])] && [Add([1])][..0] == [];
    assert Ids([1]) == {1};
  }

  // ----- The user edge -----

  function RunUser(calls: seq<UserCall>): PendingUser {
    if calls == [] then NO_USER else RecordUser(RunUser(calls[..|calls| - 1]), calls[|calls| - 1])
  }

  // Resetting the edge takes the recorded change back if and only if no cleared field is left: ClearUser
  // sets both marks and ResetUser lifts only one, so the save still takes an owner away.
  lemma ResetUserUndoesIff(old_: Option<int>, calls: seq<UserCall>)
    ensures SavedOwner(old_, RunUser(calls + [ResetUser])) == old_ <==> old_.None? || !RunUser(calls).fieldCleared
    ensures SavedOwner(Some(1), RunUser([ClearUser] + [ResetUser])) == None
  {
    assert (calls + [ResetUser])[..|calls|] == calls;
    assert ([ClearUser] + [ResetUser])[..1] == [ClearUser] && [ClearUser][..0] == [];
  }

  // A user that is set counts, also when the edge is cleared after it; clearing the field takes it back.
  // Without any call the owner stays, and a clear alone takes it away.
  lemma SetUserSaves(old_: Option<int>, calls: seq<UserCall>, id: int)
    ensures SavedOwner(old_, RunUser(calls + [SetUserID(id)])) == Some(id)
    ensures SavedOwner(old_, RunUser(calls + [SetUserID(id)] + [ClearUser])) == Some(id)
    ensures SavedOwner(old_, RunUser(calls + [ClearUserID])) == None
    ensures SavedOwner(old_, RunUser([])) == old_ && SavedOwner(old_, RunUser([] + [ClearUser])) == None
  {
    assert (calls + [SetUserID(id)])[..|calls|] == calls;
    assert (calls + [SetUserID(id)] + [ClearUser])[..|calls| + 1] == calls + [SetUserID(id)];
    assert (calls + [ClearUserID])[..|calls|] == calls;
    assert ([] + [ClearUser])[..0] == [];
  }

  // Likewise ResetUserID leaves the edge's own mark.
  lemma ResetUserIDUndoesIff(old_: Option<int>, calls: seq<UserCall>)
    ensures SavedOwner(old_, RunUser(calls + [ResetUserID])) == old_ <==> old_.None? || !RunUser(calls).edgeCleared
  {
    assert (calls + [ResetUserID])[..|calls|] == calls;
  }
}
