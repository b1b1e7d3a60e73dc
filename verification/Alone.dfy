// The two models of upsertRecords agree: a publish whose statements run in the interleaving machine
// while no other transaction has written anything does what the publish service's method does.
module Alone {
  import opened Wrappers
  import opened Tables
  import opened Registry
  import opened Publishing
  import opened Server
  import Runs

  // Nobody else holds a write.
  ghost predicate Quiet(s: State, t: nat) { forall u | u in s.txs && u != t :: s.txs[u].delta == NOTHING }

  // Transaction t publishes p from s0, nothing is committed yet, and these ids were taken.
  ghost predicate Here(s0: State, s: State, t: nat, p: Publication) {
    && s.db == s0.db && s.log == s0.log && t in s.txs && s.txs[t].p == p && Quiet(s, t)
    && Consistent(s.db) && Bounded(s.db, s.seqs)
    && Bounded(View(s.db, s.txs[t].delta), s.seqs)
  }

  ghost predicate AtNamespace(s0: State, s: State, t: nat, p: Publication) {
    && Here(s0, s, t, p) && s.seqs == s0.seqs
    && s.txs[t].delta == NOTHING && View(s.db, NOTHING) == s.db
    && (s.txs[t].phase == GetNs || (s.txs[t].phase == CreateNs && NamespaceByName(s.db, p.key.ns) == Err(NotFound)))
  }

  ghost predicate AtPlugin(s0: State, s: State, t: nat, p: Publication, n: int) {
    && Here(s0, s, t, p)
    && var d, v, phase := s.txs[t].delta, View(s.db, s.txs[t].delta), s.txs[t].phase;
    && p.key.ns != "" && d.plugin.None? && d.version.None?
    && s.seqs == s0.seqs.(namespace := s.seqs.namespace) && NamespaceDone(s.db, v, p, n)
    && match phase
       case GetPlugin(m) => m == n
       case CreatePlugin(m) => m == n && PluginByKey(v, n, p.key.plugin) == Err(NotFound)
       case ChangePlugin(m, id) => m == n && PluginByKey(v, n, p.key.plugin) == Ok(id)
       case _ => false
  }

  ghost predicate IdTaken(known: bool, before: nat, after: nat, id: int) {
    if known then after == before else id == after == before + 1
  }

  ghost predicate AtVersion(s0: State, s: State, t: nat, p: Publication, n: int, id: int) {
    && Here(s0, s, t, p)
    && var d, v, phase := s.txs[t].delta, View(s.db, s.txs[t].delta), s.txs[t].phase;
    && p.key.ns != "" && p.key.plugin != "" && d.version.None?
    && s.seqs == s0.seqs.(namespace := s.seqs.namespace, plugin := s.seqs.plugin)
    && IdTaken(p.Target() in Descriptions(s.db), s0.seqs.plugin, s.seqs.plugin, id)
    && PluginDone(s.db, v, p, n, id)
    && match phase
       case GetVersion(m, i) => m == n && i == id
       case CreateVersion(m, i) => m == n && i == id && VersionByKey(v, id, p.key.version) == Err(NotFound)
       case ChangeVersion(m, i, vid) => m == n && i == id && VersionByKey(v, id, p.key.version) == Ok(vid)
       case _ => false
  }

  ghost predicate AtCommit(s0: State, s: State, t: nat, p: Publication) {
    && Here(s0, s, t, p) && p.Admissible() && s.txs[t].phase.Ready?
    && var phase := s.txs[t].phase;
       var result := PublishResult(phase.plugin, phase.version, phase.created);
       Publishes(s.db, s0.seqs, View(s.db, s.txs[t].delta), s.seqs, p, result)
  }

  ghost predicate Failed(s0: State, s: State, t: nat, p: Publication) {
    s.db == s0.db && s.log == s0.log && t in s.txs && s.txs[t].phase.Aborted? && !p.Admissible()
  }

  ghost predicate Succeeded(s0: State, s: State, t: nat, p: Publication) {
    && t in s.txs && s.txs[t].phase.Committed? && p.Admissible()
    && |s.log| == |s0.log| + 1 && s.log[..|s0.log|] == s0.log
    && var entry := s.log[|s0.log|];
       entry.t == t && entry.p == p && Publishes(s0.db, s0.seqs, s.db, s.seqs, p, entry.result)
  }

  ghost function Step(s: State, t: nat): State { Next(s, Exec(t)) }

  // ----- The namespace -----

  lemma NamespaceLookup(s0: State, s: State, t: nat, p: Publication)
    requires AtNamespace(s0, s, t, p) && s.txs[t].phase == GetNs
    ensures (AtNamespace(s0, Step(s, t), t, p) && Step(s, t).txs[t].phase == CreateNs) || exists n ::
      AtPlugin(s0, Step(s, t), t, p, n)
  {
    hide Consistent, Bounded, NamespaceByName, NamespaceDone, Owners, Descriptions, Releases;
    ConsistentIsSound(s.db);
    NamespaceRead(s.db, p.key.ns);
    NamesNotEmpty(s.db, p.key);
    var r := NamespaceByName(s.db, p.key.ns);
    if r.Ok? {
      NamespaceFound(s.db, p, r.value);
      assert AtPlugin(s0, Step(s, t), t, p, r.value);
    }
  }

  lemma NamespaceStatement(s0: State, s: State, t: nat, p: Publication)
    requires AtNamespace(s0, s, t, p) && s.txs[t].phase == CreateNs
    ensures Failed(s0, Step(s, t), t, p) || exists n :: AtPlugin(s0, Step(s, t), t, p, n)
  {
    hide Consistent, Bounded, NamespaceByName, NamespaceDone, Owners, Descriptions, Releases, InsertNamespace;
    ConsistentIsSound(s.db);
    NamespaceMade(s.db, s.seqs, p);
    NotBusy(s, t);
    var r := InsertNamespace(s.db, s.seqs, p.key.ns, "user", 0);
    if r.Ok? {
      InsertedNamespace(s.db, s.seqs, p.key.ns);
      assert AtPlugin(s0, Step(s, t), t, p, r.value.id);
    }
  }

  lemma InsertedNamespace(db: Db, seqs: Sequences, name: string)
    ensures var r := InsertNamespace(db, seqs, name, "user", 0); r.Ok? ==>
      && r.value.seqs == seqs.(namespace := r.value.seqs.namespace)
      && View(db, Delta(Some(Write(r.value.id, Namespace(name, "user", None))), None, None)) == r.value.db
  {
    hide NamespaceByName;
  }

  lemma ConsistentIsSound(db: Db)
    requires Consistent(db)
    ensures Sound(db)
  {
  }

  lemma NotBusy(s: State, t: nat)
    requires Quiet(s, t)
    ensures forall name :: !NsBusy(s.txs - {t}, name)
    ensures forall id, n, name :: !PluginBusy(s.txs - {t}, id, n, name)
    ensures forall id, p, version :: !VersionBusy(s.txs - {t}, id, p, version)
  {
  }

  // ----- The plugin -----

  lemma PluginLookup(s0: State, s: State, t: nat, p: Publication, n: int)
    requires AtPlugin(s0, s, t, p, n) && s.txs[t].phase.GetPlugin?
    ensures (AtPlugin(s0, Step(s, t), t, p, n) && !Step(s, t).txs[t].phase.GetPlugin?) || exists id ::
      AtVersion(s0, Step(s, t), t, p, n, id)
  {
    hide Consistent, Bounded, PluginByKey, NamespaceDone, PluginDone, Owners, Descriptions, Releases, View;
    var v := View(s.db, s.txs[t].delta);
    QueriesTotal(s.db, v, p, n);
    var r := PluginByKey(v, n, p.key.plugin);
    if r.Ok? {
      PluginFound(s.db, v, p, n, r.value);
      PluginIsNamed(s.db, p);
      if v.plugins[r.value].description == p.description { assert AtVersion(s0, Step(s, t), t, p, n, r.value); }
    }
  }

  lemma PluginIsNamed(db: Db, p: Publication)
    requires Consistent(db) && p.Target() in Descriptions(db)
    ensures p.key.plugin != ""
  {
    hide Descriptions, Sound;
    NamesNotEmpty(db, p.key);
  }

  lemma PluginStatement(s0: State, s: State, t: nat, p: Publication, n: int)
    requires AtPlugin(s0, s, t, p, n) && !s.txs[t].phase.GetPlugin?
    ensures Failed(s0, Step(s, t), t, p) || exists id :: AtVersion(s0, Step(s, t), t, p, n, id)
  {
    hide Consistent, Bounded, PluginByKey, NamespaceDone, PluginDone, Owners;
    hide Descriptions, Releases, View, InsertPlugin, UpdatePlugin;
    var d := s.txs[t].delta;
    var v := View(s.db, d);
    NotBusy(s, t);
    if s.txs[t].phase.CreatePlugin? {
      PluginMade(s.db, v, s.seqs, p, n);
      var row := Plugin(n, p.key.plugin, "", p.description, "");
      var r := InsertPlugin(v, s.seqs, row);
      if r.Ok? {
        InsertedPlugin(s.db, d, s.seqs, row);
        assert AtVersion(s0, Step(s, t), t, p, n, r.value.id);
      }
    } else {
      var id := s.txs[t].phase.plugin;
      PluginFound(s.db, v, p, n, id);
      PluginIsNamed(s.db, p);
      PluginChanged(s.db, v, s.seqs, p, n, id);
      UpdatedPlugin(s.db, d, id, p.description);
      assert AtVersion(s0, Step(s, t), t, p, n, id);
    }
  }

  lemma InsertedPlugin(db: Db, d: Delta, seqs: Sequences, row: Plugin)
    requires d.plugin.None?
    ensures var r := InsertPlugin(View(db, d), seqs, row); r.Ok? ==>
      && r.value.id == r.value.seqs.plugin == seqs.plugin + 1 && r.value.seqs == seqs.(plugin := r.value.seqs.plugin)
      && View(db, d.(plugin := Some(Write(r.value.id, row)))) == r.value.db
  {
    hide PluginByKey;
  }

  lemma UpdatedPlugin(db: Db, d: Delta, id: int, description: string)
    requires d.plugin.None?
    ensures var r := UpdatePlugin(View(db, d), id, "", description, ""); r.Ok? ==>
      id in r.value.plugins && View(db, d.(plugin := Some(Write(id, r.value.plugins[id])))) == r.value
  {
  }

  // ----- The version -----

  lemma VersionLookup(s0: State, s: State, t: nat, p: Publication, n: int, id: int)
    requires AtVersion(s0, s, t, p, n, id) && s.txs[t].phase.GetVersion?
    ensures AtVersion(s0, Step(s, t), t, p, n, id) && !Step(s, t).txs[t].phase.GetVersion?
  {
    hide Consistent, Bounded, VersionByKey, PluginDone, Owners, Descriptions, Releases, View, IdTaken;
    var r := VersionByKey(View(s.db, s.txs[t].delta), id, p.key.version);
    assert r.Err? ==> r.error == NotFound by { VersionKnown(s.db, View(s.db, s.txs[t].delta), p, n, id); }
  }

  lemma VersionKnown(db: Db, v: Db, p: Publication, n: int, id: int)
    requires PluginDone(db, v, p, n, id)
    ensures var r := VersionByKey(v, id, p.key.version); r.Err? ==> r.error == NotFound
  {
    hide PluginDone, VersionByKey;
    QueriesTotal(db, v, p, n);
  }

  lemma VersionStatement(s0: State, s: State, t: nat, p: Publication, n: int, id: int)
    requires AtVersion(s0, s, t, p, n, id) && !s.txs[t].phase.GetVersion?
    ensures Failed(s0, Step(s, t), t, p) || AtCommit(s0, Step(s, t), t, p)
  {
    hide Consistent, Bounded, VersionByKey, PluginDone, Owners, Descriptions;
    hide Releases, View, InsertVersion, UpdateVersion, Published;
    var d := s.txs[t].delta;
    var v := View(s.db, d);
    NotBusy(s, t);
    if s.txs[t].phase.CreateVersion? {
      VersionMade(s.db, v, s.seqs, p, n, id);
      InsertedVersion(s.db, d, s.seqs, Version(id, p.key.version, p.release));
    } else {
      var vid := s.txs[t].phase.version;
      VersionChanged(s.db, v, s.seqs, p, n, id, vid);
      VersionIsNamed(s.db, p);
      UpdatedVersion(s.db, d, vid, p.release);
    }
  }

  lemma VersionIsNamed(db: Db, p: Publication)
    requires Consistent(db) && p.key in Releases(db)
    ensures p.key.version != ""
  {
    hide Releases, Sound;
    NamesNotEmpty(db, p.key);
  }

  lemma InsertedVersion(db: Db, d: Delta, seqs: Sequences, row: Version)
    requires d.version.None?
    ensures var r := InsertVersion(View(db, d), seqs, row); r.Ok? ==>
      && r.value.id == r.value.seqs.version == seqs.version + 1
      && r.value.seqs == seqs.(version := r.value.seqs.version)
      && View(db, d.(version := Some(Write(r.value.id, row)))) == r.value.db
  {
    hide VersionByKey;
  }

  lemma UpdatedVersion(db: Db, d: Delta, id: int, release: Release)
    requires d.version.None?
    ensures var r := UpdateVersion(View(db, d), id, release); r.Ok? ==>
      id in r.value.versions && View(db, d.(version := Some(Write(id, r.value.versions[id])))) == r.value
  {
  }

  // ----- The whole publish -----

  lemma CommitStatement(s0: State, s: State, t: nat, p: Publication)
    requires AtCommit(s0, s, t, p)
    ensures Succeeded(s0, Step(s, t), t, p)
  {
    hide Consistent, Bounded, Publishes, View;
  }

  // The next n statements of transaction t; a finished one has none left.
  ghost function Steps(s: State, t: nat, n: nat): State
    decreases n
  {
    if n == 0 then s else Steps(Step(s, t), t, n - 1)
  }

  ghost predicate Over(s0: State, s: State, t: nat, p: Publication) { Failed(s0, s, t, p) || Succeeded(s0, s, t, p) }

  lemma {:induction false} OverStays(s0: State, s: State, t: nat, p: Publication, n: nat)
    requires Over(s0, s, t, p)
    ensures Over(s0, Steps(s, t, n), t, p)
    decreases n
  {
    hide Publishes;
    if n > 0 {
      assert Step(s, t) == s;
      OverStays(s0, s, t, p, n - 1);
    }
  }

  lemma VersionWritten(s0: State, s: State, t: nat, p: Publication, n: int, id: int, k: nat)
    requires t in s.txs && AtVersion(s0, s, t, p, n, id) && !s.txs[t].phase.GetVersion? && k >= 2
    ensures Over(s0, Steps(s, t, k), t, p)
  {
    hide AtVersion, AtCommit, Failed, Succeeded, Step;
    VersionStatement(s0, s, t, p, n, id);
    var done := Step(s, t);
    if Failed(s0, done, t, p) {
      OverStays(s0, done, t, p, k - 1);
    } else {
      CommitStatement(s0, done, t, p);
      OverStays(s0, Step(done, t), t, p, k - 2);
      assert Steps(done, t, k - 1) == Steps(Step(done, t), t, k - 2);
    }
  }

  lemma FromVersion(s0: State, s: State, t: nat, p: Publication, n: int, id: int, k: nat)
    requires t in s.txs && AtVersion(s0, s, t, p, n, id) && k >= 3
    ensures Over(s0, Steps(s, t, k), t, p)
  {
    hide AtCommit, Failed, Succeeded, Step, PluginDone, Consistent, Bounded, View;
    if s.txs[t].phase.GetVersion? {
      VersionLookup(s0, s, t, p, n, id);
      VersionWritten(s0, Step(s, t), t, p, n, id, k - 1);
    } else {
      VersionWritten(s0, s, t, p, n, id, k);
    }
  }

  lemma FromPlugin(s0: State, s: State, t: nat, p: Publication, n: int, k: nat)
    requires t in s.txs && AtPlugin(s0, s, t, p, n) && k >= 5
    ensures Over(s0, Steps(s, t, k), t, p)
  {
    hide NamespaceDone, PluginDone, Consistent, Bounded, View, Failed, Succeeded, Step;
    if s.txs[t].phase.GetPlugin? {
      PluginLookup(s0, s, t, p, n);
      if id :| AtVersion(s0, Step(s, t), t, p, n, id) {
        FromVersion(s0, Step(s, t), t, p, n, id, k - 1);
      } else {
        PluginWritten(s0, Step(s, t), t, p, n, k - 1);
      }
    } else {
      PluginWritten(s0, s, t, p, n, k);
    }
  }

  lemma PluginWritten(s0: State, s: State, t: nat, p: Publication, n: int, k: nat)
    requires t in s.txs && AtPlugin(s0, s, t, p, n) && !s.txs[t].phase.GetPlugin? && k >= 4
    ensures Over(s0, Steps(s, t, k), t, p)
  {
    hide NamespaceDone, PluginDone, Consistent, Bounded, View, Failed, Succeeded, Step;
    PluginStatement(s0, s, t, p, n);
    if id :| AtVersion(s0, Step(s, t), t, p, n, id) {
      FromVersion(s0, Step(s, t), t, p, n, id, k - 1);
    } else {
      OverStays(s0, Step(s, t), t, p, k - 1);
    }
  }

  lemma FromStart(s0: State, s: State, t: nat, p: Publication)
    requires AtNamespace(s0, s, t, p) && s.txs[t].phase == GetNs
    ensures Over(s0, Steps(s, t, 7), t, p)
  {
    hide NamespaceDone, Consistent, Bounded, View, Failed, Succeeded, Step;
    NamespaceLookup(s0, s, t, p);
    if n :| AtPlugin(s0, Step(s, t), t, p, n) {
      FromPlugin(s0, Step(s, t), t, p, n, 6);
    } else {
      NamespaceCreated(s0, Step(s, t), t, p);
    }
  }

  lemma NamespaceCreated(s0: State, s: State, t: nat, p: Publication)
    requires AtNamespace(s0, s, t, p) && s.txs[t].phase == CreateNs
    ensures Over(s0, Steps(s, t, 6), t, p)
  {
    hide NamespaceDone, Consistent, Bounded, View, Failed, Succeeded, Step;
    NamespaceStatement(s0, s, t, p);
    if n :| AtPlugin(s0, Step(s, t), t, p, n) {
      FromPlugin(s0, Step(s, t), t, p, n, 5);
    } else {
      OverStays(s0, Step(s, t), t, p, 5);
    }
  }

  lemma Beginning(s: State, t: nat, p: Publication, caller: Option<int>)
    requires Inv(s) && Quiet(s, t) && t !in s.txs && (caller.Some? ==> MayPublish(s.db, p.key.ns, caller.value))
    ensures var s1 := Next(s, Event.Begin(t, p, caller)); AtNamespace(s, s1, t, p) && s1.txs[t].phase == GetNs
  {
    hide Consistent, Bounded, TxOk, MayPublish;
    assert View(s.db, NOTHING) == s.db;
  }

  // Begun while nobody else holds a write, a publish commits exactly when its fields are valid, after at
  // most seven statements, with the result and the tables the service's method gives when no call fails;
  // otherwise it is rolled back and leaves everything as it was.
  lemma AloneIsUpsert(s: State, t: nat, p: Publication, caller: Option<int>)
    requires Inv(s) && Quiet(s, t) && t !in s.txs && (caller.Some? ==> MayPublish(s.db, p.key.ns, caller.value))
    ensures var s' := Steps(Next(s, Event.Begin(t, p, caller)), t, 7);
      if p.Admissible() then Succeeded(s, s', t, p) else Failed(s, s', t, p)
  {
    hide Inv, Quiet, AtNamespace, Steps, Publishes, MayPublish, Next;
    Beginning(s, t, p, caller);
    FromStart(s, Next(s, Event.Begin(t, p, caller)), t, p);
  }

  // Those statements are a run of the machine.
  lemma {:induction false} StepsAreARun(s: State, a: seq<Event>, t: nat, n: nat)
    ensures Steps(Runs.Run(s, a), t, n) == Runs.Run(s, a + seq(n, _ => Exec(t)))
    decreases n
  {
    hide Next;
    if n == 0 {
      assert a + seq(n, _ => Exec(t)) == a;
    } else {
      assert (a + [Exec(t)])[..|a|] == a;
      StepsAreARun(s, a + [Exec(t)], t, n - 1);
      assert a + [Exec(t)] + seq(n - 1, _ => Exec(t)) == a + seq(n, _ => Exec(t));
    }
  }

  // ----- The relation both models meet leaves no choice -----

  lemma SameVersion(db: Db, db': Db, p: Publication, result: PublishResult, v: int)
    requires Published(db, db', p, result) && v in db.versions && KeyOf(db, v) == p.key
    ensures result.versionId == v && result.pluginId == db.versions[v].pluginId
  {
    hide KeysUnique, Named, Released, Releases, Descriptions, Owners;
    NamesPersist(db, db');
    VersionNamesUnique(db');
    assert VersionNames(db')[v] == VersionNames(db')[result.versionId];
  }

  lemma SamePlugin(db: Db, db': Db, p: Publication, result: PublishResult, q: int)
    requires Published(db, db', p, result) && q in db.plugins && PluginKeyOf(db, q) == p.Target()
    ensures result.pluginId == q
  {
    hide KeysUnique, Named, Released, Releases, Descriptions, Owners;
    NamesPersist(db, db');
    PluginNamesUnique(db');
    assert PluginNames(db')[q] == PluginNames(db')[result.pluginId];
  }

  // Any two outcomes of publishing p on one database answer the same ids and show the same views.
  lemma OneOutcome(db: Db, seqs: Sequences, p: Publication, db1: Db, seqs1: Sequences, res1: PublishResult,
                   db2: Db, seqs2: Sequences, res2: PublishResult)
    requires Publishes(db, seqs, db1, seqs1, p, res1) && Publishes(db, seqs, db2, seqs2, p, res2)
    ensures res1 == res2
    ensures Releases(db1) == Releases(db2) && Descriptions(db1) == Descriptions(db2) && Owners(db1) == Owners(db2)
  {
    hide Sound, Released, Extends, KeyOf, VersionLinked, Releases, Descriptions, Owners;
    if p.key in Releases(db) {
      var v := ReleasedRow(db, p.key);
      SameVersion(db, db1, p, res1, v);
      SameVersion(db, db2, p, res2, v);
    } else if p.Target() in Descriptions(db) {
      var q := DescribedRow(db, p.Target());
      SamePlugin(db, db1, p, res1, q);
      SamePlugin(db, db2, p, res2, q);
    }
  }

  lemma ReleasedRow(db: Db, key: Key) returns (v: int)
    requires Sound(db) && key in Releases(db)
    ensures v in db.versions && VersionLinked(db, v) && KeyOf(db, v) == key
  {
    hide KeysUnique;
    v :| v in db.versions && v in VersionNames(db) && VersionNames(db)[v] == key;
  }

  lemma DescribedRow(db: Db, key: PluginKey) returns (q: int)
    requires Sound(db) && key in Descriptions(db)
    ensures q in db.plugins && PluginLinked(db, q) && PluginKeyOf(db, q) == key
  {
    hide KeysUnique;
    q :| q in db.plugins && q in PluginNames(db) && PluginNames(db)[q] == key;
  }
}
