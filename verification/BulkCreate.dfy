// internal/ent/namespace_create.go: creating many namespaces at once. The builders form a chain: each
// one checks itself, prepares its row and calls the next; the last one writes the whole batch, and
// the records are marked done while the chain unwinds. No hooks are installed.
module BulkCreate {
  import opened Wrappers
  import opened EdgeMutation

  // id is what the caller set or an earlier save recorded, 0 included; None asks the database for one.
  datatype RowSpec = RowSpec(id: Option<int>, name: string, kind: string, plugins: set<int>, user: Option<int>)

  datatype Node = Node(id: int, name: string, kind: string, user: Option<int>)

  const BLANK := RowSpec(None, "", "", {}, None)

  class NamespaceCreate {
    const mutation: NamespaceMutation

    constructor (mutation: NamespaceMutation)
      ensures this.mutation == mutation
    {
      this.mutation := mutation;
    }

    method SetID(id: int)
      modifies mutation`id
      ensures Spec() == old(Spec()).(id := Some(id))
    {
      mutation.SetID(id);
    }

    // check: a missing or an empty name or type is refused
    method Check() returns (r: Result<()>)
      ensures r.Ok? <==>
        && mutation.name.Some? && mutation.name.value != "" && mutation.kind.Some? && mutation.kind.value != ""
      ensures r.Ok? <==> Fit(Spec())
    {
      if mutation.name.None? { return Err(Invalid); }
      if mutation.name.value == "" { return Err(Invalid); }
      if mutation.kind.None? { return Err(Invalid); }
      if mutation.kind.value == "" { return Err(Invalid); }
      return Ok(());
    }

    function Spec(): RowSpec
      reads mutation
    {
      RowSpec(mutation.id,
              if mutation.name.Some? then mutation.name.value else "",
              if mutation.kind.Some? then mutation.kind.value else "",
              mutation.plugins, mutation.user)
    }

    // Row and node carry every field that is set; the node has the id 0 where none is.
    lemma SpecFields()
      ensures var spec, node := Spec(), NodeOf(Spec());
        && spec.id == mutation.id && spec.plugins == mutation.plugins && spec.user == node.user == mutation.user
        && (mutation.name.Some? ==> spec.name == node.name == mutation.name.value)
        && (mutation.kind.Some? ==> spec.kind == node.kind == mutation.kind.value)
        && node.id == if mutation.id.Some? then mutation.id.value else 0
    {
    }

    method CreateSpec() returns (node: Node, spec: RowSpec)
      ensures spec == Spec() && node == NodeOf(spec)
    {
      node, spec := Node(0, "", "", None), BLANK;
      if mutation.id.Some? { node, spec := node.(id := mutation.id.value), spec.(id := mutation.id); }
      if mutation.name.Some? { node, spec := node.(name := mutation.name.value), spec.(name := mutation.name.value); }
      if mutation.kind.Some? { node, spec := node.(kind := mutation.kind.value), spec.(kind := mutation.kind.value); }
      if mutation.plugins != {} { spec := spec.(plugins := mutation.plugins); }
      if mutation.user.Some? { node, spec := node.(user := mutation.user), spec.(user := mutation.user); }
    }
  }

  function NodeOf(spec: RowSpec): Node {
    Node(if spec.id.Some? then spec.id.value else 0, spec.name, spec.kind, spec.user)
  }

  // The database: it numbers the rows that have no id yet.
  class Driver {
    var batches: seq<seq<RowSpec>>

    constructor ()
      ensures batches == []
    {
      batches := [];
    }

    method BatchCreate(specs: array<RowSpec>, newIds: nat -> int, fault: bool) returns (r: Result<()>)
      modifies this, specs
      ensures batches == old(batches) + [old(specs[..])]
      ensures r.Err? <==> fault
      ensures specs[..] == if fault then old(specs[..]) else Numbered(old(specs[..]), newIds)
    {
      batches := batches + [specs[..]];
      if fault { return Err(Fault); }
      forall i | 0 <= i < specs.Length { specs[i] := Given(specs[i], newIds(i)); }
      return Ok(());
    }
  }

  function Given(spec: RowSpec, id: int): RowSpec { if spec.id.None? then spec.(id := Some(id)) else spec }

  function Numbered(specs: seq<RowSpec>, newIds: nat -> int): seq<RowSpec> {
    seq(|specs|, i requires 0 <= i < |specs| => Given(specs[i], newIds(i)))
  }

  class NamespaceCreateBulk {
    const err: Option<Error>
    const builders: seq<NamespaceCreate>

    constructor (err: Option<Error>, builders: seq<NamespaceCreate>)
      ensures this.err == err && this.builders == builders
    {
      this.err, this.builders := err, builders;
    }

    ghost function Mutations(): set<NamespaceMutation> { set b | b in builders :: b.mutation }

    // The rows of the batch, in the order of the builders.
    ghost function Specs(): (s: seq<RowSpec>)
      reads Mutations()
    {
      seq(|builders|, k requires 0 <= k < |builders| reads Mutations() => builders[k].Spec())
    }

    lemma SpecsAt(i: nat)
      requires i < |builders|
      ensures |Specs()| == |builders| && Specs()[i] == builders[i].Spec()
    {
    }

    // mutators[i].Mutate; rows are the specs of all builders.
    method Mutate(i: nat, ghost rows: seq<RowSpec>, specs: array<RowSpec>, nodes: array<Node>, driver: Driver,
                  newIds: nat -> int, fault: bool)
      returns (r: Result<()>)
      requires i < |builders| == specs.Length == nodes.Length && rows == Specs() && specs[..i] == rows[..i]
      modifies specs, nodes, driver, Mutations()
      ensures driver.batches == old(driver.batches) + if Fits(rows[i..]) then [rows] else []
      ensures r.Ok? <==> Fits(rows[i..]) && !fault
      ensures r.Err? ==>
        forall b | b in builders :: b.mutation.done == old(b.mutation.done) && b.mutation.id == old(b.mutation.id)
      ensures r.Ok? ==> specs[..] == Numbered(rows, newIds)
      ensures forall k | 0 <= k < i :: nodes[k] == old(nodes[k])
      ensures r.Ok? ==> forall k | i <= k < |builders| :: nodes[k] == NodeOf(specs[k])
      ensures r.Ok? ==> forall k | i <= k < |builders| :: builders[k].mutation.done
      ensures r.Ok? ==> forall k | i <= k < |builders| && FirstUse(i, k) :: builders[k].mutation.id == Some(nodes[k].id)
      decreases |builders| - i
    {
      hide Numbered, Fits, Fit, Given, NodeOf, NamespaceCreateBulk.Specs, NamespaceCreate.Spec;
      SpecsAt(i);
      FitsFrom(rows, i);
      var ok := builders[i].Check();
      if ok.Err? { return ok; }
      nodes[i], specs[i] := builders[i].CreateSpec();
      assert specs[..i + 1] == rows[..i + 1];
      if i < |builders| - 1 {
        r := Mutate(i + 1, rows, specs, nodes, driver, newIds, fault);
      } else {
        assert specs[..] == rows;
        r := driver.BatchCreate(specs, newIds, fault);
      }
      if r.Err? { return; }
      NumberedAt(rows, newIds, i);
      NumberedNode(rows[i], newIds(i));
      Finish(i, specs, nodes);
    }

    // The tail of the chain's function, run while it unwinds.
    method Finish(i: nat, specs: array<RowSpec>, nodes: array<Node>)
      requires i < |builders| == specs.Length == nodes.Length
      modifies nodes, builders[i].mutation
      ensures forall k | 0 <= k < nodes.Length && k != i :: nodes[k] == old(nodes[k])
      ensures nodes[i] ==
        old(nodes[i]).(id := if old(nodes[i]).id == 0 && specs[i].id.Some? then specs[i].id.value else old(nodes[i]).id)
      ensures builders[i].mutation.done && builders[i].mutation.id == Some(nodes[i].id)
    {
      if specs[i].id.Some? && nodes[i].id == 0 { nodes[i] := nodes[i].(id := specs[i].id.value); }
      builders[i].mutation.id := Some(nodes[i].id);
      builders[i].mutation.done := true;
    }

    // The batch is written at most once: exactly when there is something to write and every builder
    // passes its check, with all rows in builder order. All records are marked done, or none is.
    method Save(driver: Driver, newIds: nat -> int, fault: bool) returns (r: Result<seq<Node>>)
      modifies driver, Mutations()
      ensures driver.batches ==
        old(driver.batches) + if err.None? && builders != [] && old(Fits(Specs())) then [old(Specs())] else []
      ensures r.Ok? <==> err.None? && (builders == [] || (old(Fits(Specs())) && !fault))
      ensures r.Err? ==>
        forall b | b in builders :: b.mutation.done == old(b.mutation.done) && b.mutation.id == old(b.mutation.id)
      ensures r.Ok? ==> r.value == Nodes(Numbered(old(Specs()), newIds))
      // Each node is its builder's row; only where that has no id does the database give one.
      ensures r.Ok? ==> |r.value| == |builders| && forall k | 0 <= k < |builders| ::
        var spec := old(Specs())[k];
        r.value[k] == Node(if spec.id.Some? then spec.id.value else newIds(k), spec.name, spec.kind, spec.user)
      ensures r.Ok? ==> forall k | 0 <= k < |builders| :: builders[k].mutation.done
      ensures r.Ok? ==>
        forall k | 0 <= k < |builders| && FirstUse(0, k) :: builders[k].mutation.id == Some(r.value[k].id)
    {
      hide Fits, Numbered;
      if err.Some? { return Err(err.value); }
      var specs := new RowSpec[|builders|](_ => BLANK);
      var nodes := new Node[|builders|](_ => Node(0, "", "", None));
      ghost var rows := Specs();
      if |builders| > 0 {
        assert rows[0..] == rows;
        var done := Mutate(0, rows, specs, nodes, driver, newIds, fault);
        if done.Err? { return Err(done.error); }
        assert nodes[..] == Nodes(specs[..]);
      }
      NothingNumbered(newIds);
      NumberedNodes(rows, newIds);
      r := Ok(nodes[..]);
    }

    // No builder from i on uses the record of builder k before k does.
    ghost predicate FirstUse(i: nat, k: nat)
      requires k < |builders|
    {
      forall j | i <= j < k :: builders[j].mutation != builders[k].mutation
    }
  }

  // The nodes a numbered batch answers with, in order.
  function Nodes(rows: seq<RowSpec>): seq<Node> { seq(|rows|, i requires 0 <= i < |rows| => NodeOf(rows[i])) }

  lemma NumberedNodes(rows: seq<RowSpec>, newIds: nat -> int)
    ensures |Nodes(Numbered(rows, newIds))| == |rows|
    ensures forall k | 0 <= k < |rows| ::
      Nodes(Numbered(rows, newIds))[k] ==
      Node(if rows[k].id.Some? then rows[k].id.value else newIds(k), rows[k].name, rows[k].kind, rows[k].user)
  {
    hide Numbered;
    if rows == [] { NothingNumbered(newIds); } else { NumberedAt(rows, newIds, 0); }
    forall k: nat | k < |rows| ensures Numbered(rows, newIds)[k] == Given(rows[k], newIds(k)) {
      NumberedAt(rows, newIds, k);
    }
  }

  predicate Fit(spec: RowSpec) { spec.name != "" && spec.kind != "" }

  predicate Fits(rows: seq<RowSpec>) { forall k | 0 <= k < |rows| :: Fit(rows[k]) }

  lemma FitsFrom(rows: seq<RowSpec>, i: nat)
    requires i < |rows|
    ensures Fits(rows[i..]) <==> Fit(rows[i]) && Fits(rows[i + 1..])
    ensures i + 1 == |rows| ==> Fits(rows[i + 1..])
  {
    assert rows[i..] == [rows[i]] + rows[i + 1..];
  }

  lemma NothingNumbered(newIds: nat -> int)
    ensures Numbered([], newIds) == []
  {
  }

  // The node as Finish completes it.
  lemma NumberedNode(row: RowSpec, id: int)
    ensures var given, node := Given(row, id), NodeOf(row);
      NodeOf(given) == node.(id := if node.id == 0 && given.id.Some? then given.id.value else node.id)
  {
  }

  lemma NumberedAt(rows: seq<RowSpec>, newIds: nat -> int, i: nat)
    requires i < |rows|
    ensures |Numbered(rows, newIds)| == |rows| && Numbered(rows, newIds)[i] == Given(rows[i], newIds(i))
  {
  }
}
