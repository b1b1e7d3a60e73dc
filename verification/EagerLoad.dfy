// internal/ent/plugin_query.go and internal/ent/namespace_query.go: eager loading joins rows in
// memory through a map from key to node. What the neighbour query returns is an input.
module EagerLoad {
  import opened Wrappers

  datatype PluginVersion = PluginVersion(id: int, pluginId: int, version: string)

  datatype User = User(id: int, email: string)

  class Plugin {
    const id: int
    var versions: seq<PluginVersion>

    constructor (id: int)
      ensures this.id == id && versions == []
    {
      this.id := id;
      versions := [];
    }
  }

  class Namespace {
    const userId: Option<int>
    var user: Option<User>

    constructor (userId: Option<int>)
      ensures this.userId == userId && user == None
    {
      this.userId := userId;
      user := None;
    }
  }

  // ----- The simple form: for each key, the rows that carry it, in order -----

  function Matching(rows: seq<PluginVersion>, key: int): seq<PluginVersion> {
    if rows == [] then []
    else if rows[|rows| - 1].pluginId == key then Matching(rows[..|rows| - 1], key) + [rows[|rows| - 1]]
    else Matching(rows[..|rows| - 1], key)
  }

  // Row by row and in order: the rows of a concatenation that carry the key are those of its parts, and a
  // single row is one of them exactly when it carries the key.
  lemma {:induction false} MatchingParts(a: seq<PluginVersion>, b: seq<PluginVersion>, key: int)
    ensures Matching(a + b, key) == Matching(a, key) + Matching(b, key)
    ensures forall row :: Matching([row], key) == if row.pluginId == key then [row] else []
    decreases |b|
  {
    forall row: PluginVersion ensures Matching([row], key) == if row.pluginId == key then [row] else [] {
      assert [row][..0] == [];
    }
    if b == [] {
      assert a + b == a;
    } else {
      assert (a + b)[..|a + b| - 1] == a + b[..|b| - 1];
      MatchingParts(a, b[..|b| - 1], key);
    }
  }

  function KeyOf(nodes: seq<Plugin>): seq<int> { seq(|nodes|, i requires 0 <= i < |nodes| => nodes[i].id) }

  lemma KeysInOrder(nodes: seq<Plugin>)
    ensures |KeyOf(nodes)| == |nodes| && forall k | 0 <= k < |nodes| :: KeyOf(nodes)[k] == nodes[k].id
  {
  }

  // Where the key occurs last; -1 when it does not occur.
  function LastAt(keys: seq<int>, key: int): (r: int)
    ensures -1 <= r < |keys|
    ensures r >= 0 ==> keys[r] == key
    ensures forall j | r < j < |keys| :: keys[j] != key
  {
    if keys == [] then -1
    else if keys[|keys| - 1] == key then |keys| - 1
    else LastAt(keys[..|keys| - 1], key)
  }

  // What node i holds after the join.
  function Joined(keys: seq<int>, rows: seq<PluginVersion>, i: nat): seq<PluginVersion>
    requires i < |keys|
  {
    if LastAt(keys, keys[i]) == i then Matching(rows, keys[i]) else []
  }

  lemma JoinedStart(keys: seq<int>)
    ensures forall i | 0 <= i < |keys| :: Joined(keys, [], i) == []
  {
  }

  lemma JoinedStep(keys: seq<int>, rows: seq<PluginVersion>, row: PluginVersion)
    requires row.pluginId in keys
    ensures forall i | 0 <= i < |keys| ::
      Joined(keys, rows + [row], i) ==
      if i == LastAt(keys, row.pluginId) then Joined(keys, rows, i) + [row] else Joined(keys, rows, i)
  {
    assert (rows + [row])[..|rows|] == rows;
  }

  lemma LastAtStep(keys: seq<int>, key: int)
    ensures forall k :: LastAt(keys + [key], k) == if k == key then |keys| else LastAt(keys, k)
  {
    assert (keys + [key])[..|keys|] == keys;
  }

  // First loop: the keys to ask for, the map from key to node, and every edge list emptied.
  method IndexNodes(nodes: seq<Plugin>) returns (fks: seq<int>, nodeids: map<int, Plugin>)
    modifies nodes
    ensures fks == KeyOf(nodes) && forall k | 0 <= k < |nodes| :: nodes[k].versions == []
    ensures forall id :: id in nodeids <==> id in fks
    ensures forall id | id in nodeids :: 0 <= LastAt(fks, id) < |nodes| && nodeids[id] == nodes[LastAt(fks, id)]
  {
    hide LastAt;
    fks, nodeids := [], map[];
    for i := 0 to |nodes|
      invariant fks == KeyOf(nodes)[..i]
      invariant forall k | 0 <= k < i :: nodes[k].versions == []
      invariant forall id :: id in nodeids <==> LastAt(fks, id) >= 0
      invariant forall id | id in nodeids :: nodeids[id] == nodes[LastAt(fks, id)]
    {
      LastAtStep(fks, nodes[i].id);
      fks := fks + [nodes[i].id];
      nodeids := nodeids[nodes[i].id := nodes[i]];
      nodes[i].versions := [];
    }
    forall id ensures id in nodeids <==> id in fks { assert LastAt(fks, id) >= 0 <==> id in fks; }
  }

  // The body of the second loop: the row goes to the node its key is mapped to.
  method Append(nodes: seq<Plugin>, ghost keys: seq<int>, ghost rows: seq<PluginVersion>, node: Plugin,
                row: PluginVersion)
    requires forall i, j | 0 <= i < j < |nodes| :: nodes[i] != nodes[j]
    requires |keys| == |nodes| && row.pluginId in keys && LastAt(keys, row.pluginId) >= 0
    requires node == nodes[LastAt(keys, row.pluginId)]
    requires forall k | 0 <= k < |nodes| :: nodes[k].versions == Joined(keys, rows, k)
    modifies node
    ensures forall k | 0 <= k < |nodes| :: nodes[k].versions == Joined(keys, rows + [row], k)
  {
    hide LastAt, Joined;
    JoinedStep(keys, rows, row);
    node.versions := node.versions + [row];
  }

  // The hash join of plugins with versions. Of several nodes with one id only the last gets versions.
  method LoadVersions(nodes: seq<Plugin>, neighbors: Result<seq<PluginVersion>>) returns (fks: seq<int>, r: Result<()>)
    requires forall i, j | 0 <= i < j < |nodes| :: nodes[i] != nodes[j]
    modifies nodes
    ensures fks == KeyOf(nodes)
    ensures r.Ok? <==> neighbors.Ok? && forall n | n in neighbors.value :: n.pluginId in fks
    ensures r.Ok? ==> forall i | 0 <= i < |nodes| :: nodes[i].versions == Joined(fks, neighbors.value, i)
  {
    hide LastAt, Joined, Matching, KeyOf;
    KeysInOrder(nodes);
    var nodeids: map<int, Plugin>;
    fks, nodeids := IndexNodes(nodes);
    if neighbors.Err? { return fks, Err(neighbors.error); }
    var rows := neighbors.value;
    JoinedStart(fks);
    for i := 0 to |rows|
      invariant forall k | 0 <= k < i :: rows[k].pluginId in fks
      invariant forall k | 0 <= k < |nodes| :: nodes[k].versions == Joined(fks, rows[..i], k)
    {
      var fk := rows[i].pluginId;
      if fk !in nodeids {
        assert rows[i] in rows && fk !in fks;
        return fks, Err(Dangling);
      }
      assert rows[..i + 1] == rows[..i] + [rows[i]];
      Append(nodes, fks, rows[..i], nodeids[fk], rows[i]);
    }
    assert rows[..|rows|] == rows;
    r := Ok(());
  }

  // With distinct ids this is the nested loop: every plugin holds exactly its versions, in order.
  lemma DistinctJoin(keys: seq<int>, rows: seq<PluginVersion>, i: nat)
    requires i < |keys| && forall j, k | 0 <= j < k < |keys| :: keys[j] != keys[k]
    ensures Joined(keys, rows, i) == Matching(rows, keys[i])
  {
    assert keys[LastAt(keys, keys[i])] == keys[i];
  }

  // What the first n nodes hold together.
  function Gathered(keys: seq<int>, rows: seq<PluginVersion>, n: nat): multiset<PluginVersion>
    requires n <= |keys|
  {
    if n == 0 then multiset{} else Gathered(keys, rows, n - 1) + multiset(Joined(keys, rows, n - 1))
  }

  lemma {:induction false} GatheredStep(keys: seq<int>, rows: seq<PluginVersion>, row: PluginVersion, n: nat)
    requires n <= |keys| && row.pluginId in keys
    ensures Gathered(keys, rows + [row], n) ==
      Gathered(keys, rows, n) + if LastAt(keys, row.pluginId) < n then multiset{row} else multiset{}
  {
    hide LastAt, Joined;
    if n > 0 {
      GatheredStep(keys, rows, row, n - 1);
      JoinedStep(keys, rows, row);
      var before := Joined(keys, rows, n - 1);
      assert multiset(before + [row]) == multiset(before) + multiset{row};
    }
  }

  lemma {:induction false} GatheredNone(keys: seq<int>, n: nat)
    requires n <= |keys|
    ensures Gathered(keys, [], n) == multiset{}
  {
    if n > 0 { GatheredNone(keys, n - 1); }
  }

  // Distinct or not, no version is lost and none is given twice.
  lemma {:induction false} NothingLost(keys: seq<int>, rows: seq<PluginVersion>)
    requires forall n | n in rows :: n.pluginId in keys
    ensures Gathered(keys, rows, |keys|) == multiset(rows)
    decreases |rows|
  {
    if rows == [] {
      GatheredNone(keys, |keys|);
    } else {
      var before, row := rows[..|rows| - 1], rows[|rows| - 1];
      assert rows == before + [row];
      NothingLost(keys, before);
      GatheredStep(keys, before, row, |keys|);
    }
  }

  // ----- One user for every namespace it owns -----

  function Found(rows: seq<User>, id: int): Option<User> {
    if rows == [] then None
    else if rows[|rows| - 1].id == id then Some(rows[|rows| - 1])
    else Found(rows[..|rows| - 1], id)
  }

  // The last user with this id, or none if there is no such user.
  lemma {:induction false} FoundIs(rows: seq<User>, id: int)
    ensures Found(rows, id).None? <==> forall n | n in rows :: n.id != id
    ensures Found(rows, id).Some? ==>
      exists i :: 0 <= i < |rows| && rows[i] == Found(rows, id).value && LastWithId(rows, i, id)
  {
    if rows != [] {
      var before, row := rows[..|rows| - 1], rows[|rows| - 1];
      assert rows == before + [row];
      FoundIs(before, id);
      if row.id == id {
        assert LastWithId(rows, |rows| - 1, id);
      } else if Found(before, id).Some? {
        var i :| 0 <= i < |before| && before[i] == Found(before, id).value && LastWithId(before, i, id);
        assert LastWithId(rows, i, id);
      }
    }
  }

  predicate LastWithId(rows: seq<User>, i: nat, id: int)
    requires i < |rows|
  {
    rows[i].id == id && forall j | i < j < |rows| :: rows[j].id != id
  }

  // Assigns one row to every node of its group.
  method AssignUser(group: seq<Namespace>, n: User)
    modifies group
    ensures forall x | x in group :: x.user == Some(n)
  {
    for i := 0 to |group|
      invariant forall k | 0 <= k < i :: group[k].user == Some(n)
    {
      group[i].user := Some(n);
    }
  }

  // First loop: the owners to ask for, each once, and the namespaces grouped by owner.
  method GroupByOwner(nodes: seq<Namespace>) returns (ids: seq<int>, nodeids: map<int, seq<Namespace>>)
    ensures forall j, k | 0 <= j < k < |ids| :: ids[j] != ids[k]
    ensures ids == [] <==> forall k | 0 <= k < |nodes| :: nodes[k].userId.None?
    ensures forall id :: id in ids <==> id in nodeids
    ensures forall id :: id in ids <==> exists k :: 0 <= k < |nodes| && nodes[k].userId == Some(id)
    ensures forall k | 0 <= k < |nodes| && nodes[k].userId.Some? ::
      nodes[k].userId.value in nodeids && nodes[k] in nodeids[nodes[k].userId.value]
    ensures forall id, x | id in nodeids && x in nodeids[id] :: x in nodes && x.userId == Some(id)
  {
    ids, nodeids := [], map[];
    for i := 0 to |nodes|
      invariant forall j, k | 0 <= j < k < |ids| :: ids[j] != ids[k]
      invariant ids == [] <==> forall k | 0 <= k < i :: nodes[k].userId.None?
      invariant forall id :: id in ids <==> id in nodeids
      invariant forall id | id in nodeids :: nodeids[id] != []
      invariant forall k | 0 <= k < i && nodes[k].userId.Some? ::
        nodes[k].userId.value in nodeids && nodes[k] in nodeids[nodes[k].userId.value]
      invariant forall id, x | id in nodeids && x in nodeids[id] :: x in nodes && x.userId == Some(id)
    {
      if nodes[i].userId.None? { continue; }
      var fk := nodes[i].userId.value;
      var group := [];
      if fk !in nodeids { ids := ids + [fk]; } else { group := nodeids[fk]; }
      nodeids := nodeids[fk := group + [nodes[i]]];
    }
    forall id | id in ids ensures exists k :: 0 <= k < |nodes| && nodes[k].userId == Some(id) {
      assert nodeids[id][0] in nodes;
    }
  }

  // No query is made when no namespace has an owner. A user that comes twice wins by its last row.
  method LoadUser(nodes: seq<Namespace>, neighbors: Result<seq<User>>) returns (asked: Option<seq<int>>, r: Result<()>)
    modifies nodes
    ensures asked.None? <==> forall k | 0 <= k < |nodes| :: nodes[k].userId.None?
    ensures asked.Some? ==> forall j, k | 0 <= j < k < |asked.value| :: asked.value[j] != asked.value[k]
    ensures asked.Some? ==> forall id :: id in asked.value <==>
      exists k :: 0 <= k < |nodes| && nodes[k].userId == Some(id)
    ensures r.Ok? <==> asked.None? || (neighbors.Ok? && forall n | n in neighbors.value :: n.id in asked.value)
    ensures r.Ok? ==> forall x | x in nodes ::
      x.user == if asked.Some? && x.userId.Some? && Found(neighbors.value, x.userId.value).Some?
                then Found(neighbors.value, x.userId.value) else old(x.user)
  {
    var ids, nodeids := GroupByOwner(nodes);
    if |ids| == 0 { return None, Ok(()); }
    asked := Some(ids);
    if neighbors.Err? { return asked, Err(neighbors.error); }
    var rows := neighbors.value;
    for i := 0 to |rows|
      invariant forall k | 0 <= k < i :: rows[k].id in ids
      invariant forall x | x in nodes ::
        x.user == if x.userId.Some? && Found(rows[..i], x.userId.value).Some?
                  then Found(rows[..i], x.userId.value) else old(x.user)
    {
      if rows[i].id !in nodeids {
        assert rows[i] in rows;
        return asked, Err(Dangling);
      }
      assert rows[..i + 1][..i] == rows[..i];
      var group := nodeids[rows[i].id];
      assert forall k | 0 <= k < |group| :: group[k] in nodes;
      AssignUser(group, rows[i]);
    }
    assert rows[..|rows|] == rows;
    r := Ok(());
  }
}
