// Runs of the server from any consistent database: what the log of successful publishes says about
// the tables, and who may write where.
module Runs {
  import opened Wrappers
  import opened Tables
  import opened Registry
  import opened Server
  import Text

  function Start(db: Db, seqs: Sequences): State { State(db, seqs, map[], []) }

  ghost function Run(s: State, es: seq<Event>): State
    decreases |es|
  {
    if es == [] then s else Next(Run(s, es[..|es| - 1]), es[|es| - 1])
  }

  // The serial meaning of a log: each publish overwrites its own key.
  function Replay(m: map<Key, Release>, log: seq<Entry>): map<Key, Release>
    decreases |log|
  {
    if log == [] then m
    else var last := log[|log| - 1].p; Replay(m, log[..|log| - 1])[last.key := last.release]
  }

  // The ids a publish answered lead to the row of its key.
  ghost predicate Placed(db: Db, e: Entry) {
    && VersionLinked(db, e.result.versionId) && KeyOf(db, e.result.versionId) == e.p.key
    && db.versions[e.result.versionId].pluginId == e.result.pluginId
  }

  ghost predicate History(m: map<Key, Release>, s: State) {
    && Releases(s.db) == Replay(m, s.log)
    && (forall i | 0 <= i < |s.log| :: Placed(s.db, s.log[i]))
    && (forall i | 0 <= i < |s.log| && s.log[i].result.created :: s.log[i].p.key !in m)
    && (forall i, j | 0 <= i < j < |s.log| && s.log[i].p.key == s.log[j].p.key :: !s.log[j].result.created)
  }

  ghost predicate IsCommit(s: State, e: Event) { e.Exec? && e.t in s.txs && s.txs[e.t].phase.Ready? }

  lemma ExecQuiet(s: State, t: nat)
    requires t in s.txs && !s.txs[t].phase.Ready?
    ensures ExecNext(s, t).log == s.log && ExecNext(s, t).db == s.db
  {
    hide Only, NamespaceByName, PluginByKey, VersionByKey, NsBusy, PluginBusy, VersionBusy;
    hide InsertNamespace, InsertPlugin, InsertVersion, UpdatePlugin, UpdateVersion, View;
  }

  // Only commits touch plugins, versions and the log.
  lemma Quiet(s: State, e: Event)
    requires !IsCommit(s, e)
    ensures var s' := Next(s, e); s'.log == s.log && s'.db.plugins == s.db.plugins && s'.db.versions == s.db.versions
  {
    hide Only, ExecNext, MayPublish;
    if e.Exec? && e.t in s.txs { ExecQuiet(s, e.t); }
  }

  lemma PlacedPersists(db: Db, db': Db, e: Entry)
    requires Placed(db, e) && Extends(db, db')
    ensures Placed(db', e)
  {
  }

  lemma PlacedIsReleased(db: Db, e: Entry)
    requires Sound(db) && Placed(db, e)
    ensures e.p.key in Releases(db)
  {
    VersionRow(db, e.result.versionId);
  }

  lemma ReplayKeys(m: map<Key, Release>, log: seq<Entry>, k: Key)
    ensures k in m ==> k in Replay(m, log)
    decreases |log|
  {
    if log != [] { ReplayKeys(m, log[..|log| - 1], k); }
  }

  lemma HistoryCommit(m: map<Key, Release>, s: State, t: nat)
    requires Inv(s) && History(m, s) && t in s.txs && s.txs[t].phase.Ready?
    ensures History(m, ExecCommit(s, t))
  {
    hide Inv, Releases, Consistent, Extends, KeyOf, VersionLinked, Owners, Descriptions, Sound, Replay, View;
    InvCommit(s, t);
    CommitIsOneUpdate(s, t);
    InvSound(s);
    var s', p := ExecCommit(s, t), s.txs[t].p;
    assert s'.log[..|s.log|] == s.log;
    assert Releases(s'.db) == Replay(m, s'.log) by { ReplayStep(m, s.log, s'.log[|s.log|]); }
    forall i | 0 <= i < |s.log| ensures Placed(s'.db, s'.log[i]) && s.log[i].p.key in Releases(s.db) {
      PlacedPersists(s.db, s'.db, s.log[i]);
      PlacedIsReleased(s.db, s.log[i]);
    }
    assert Placed(s'.db, s'.log[|s.log|]);
    ReplayKeys(m, s.log, p.key);
  }

  lemma ReplayStep(m: map<Key, Release>, log: seq<Entry>, e: Entry)
    ensures Replay(m, log + [e]) == Replay(m, log)[e.p.key := e.p.release]
  {
    assert (log + [e])[..|log|] == log;
  }

  lemma InvSound(s: State)
    requires Inv(s)
    ensures Sound(s.db)
  {
  }

  lemma HistoryNext(m: map<Key, Release>, s: State, e: Event)
    requires Inv(s) && History(m, s)
    ensures History(m, Next(s, e))
  {
    hide Inv, Releases, Consistent, Extends, KeyOf, VersionLinked;
    if IsCommit(s, e) {
      HistoryCommit(m, s, e.t);
      assert Next(s, e) == ExecCommit(s, e.t);
    } else {
      var s' := Next(s, e);
      InvNext(s, e);
      Quiet(s, e);
      InvSound(s);
      InvSound(s');
      VersionsKept(s.db, s'.db);
      forall i | 0 <= i < |s.log| ensures Placed(s'.db, s.log[i]) { PlacedPersists(s.db, s'.db, s.log[i]); }
    }
  }

  lemma StartOk(db: Db, seqs: Sequences)
    requires Consistent(db) && Bounded(db, seqs)
    ensures Inv(Start(db, seqs)) && History(Releases(db), Start(db, seqs)) && Extends(db, db)
  {
  }

  lemma {:induction false} RunKeeps(db: Db, seqs: Sequences, es: seq<Event>)
    requires Consistent(db) && Bounded(db, seqs)
    ensures var s := Run(Start(db, seqs), es); Inv(s) && History(Releases(db), s) && Extends(db, s.db)
    decreases |es|
  {
    hide Inv, History, Consistent, Next, Bounded, Extends;
    if es == [] {
      StartOk(db, seqs);
    } else {
      var before := es[..|es| - 1];
      RunKeeps(db, seqs, before);
      InvNext(Run(Start(db, seqs), before), es[|es| - 1]);
      HistoryNext(Releases(db), Run(Start(db, seqs), before), es[|es| - 1]);
      ExtendsTransitive(db, Run(Start(db, seqs), before).db, Run(Start(db, seqs), es).db);
    }
  }

  // ----- Main results -----

  // Every reachable committed database is consistent: unique keys, no dangling reference (not even
  // the one the schema leaves unguarded), no empty names, and a version for every plugin.
  lemma ReachableIsConsistent(db: Db, seqs: Sequences, es: seq<Event>)
    requires Consistent(db) && Bounded(db, seqs)
    ensures Consistent(Run(Start(db, seqs), es).db)
  {
    RunKeeps(db, seqs, es);
  }

  // Publishes are serializable in commit order: the release map is the old one with the logged
  // publishes applied one after the other, however their statements were interleaved.
  lemma SerialInCommitOrder(db: Db, seqs: Sequences, es: seq<Event>)
    requires Consistent(db) && Bounded(db, seqs)
    ensures var s := Run(Start(db, seqs), es); Releases(s.db) == Replay(Releases(db), s.log)
  {
    RunKeeps(db, seqs, es);
  }

  // Two successful publishes of one key answer the same ids, and only the first can have created it.
  lemma CreatedOnce(db: Db, seqs: Sequences, es: seq<Event>, i: nat, j: nat)
    requires Consistent(db) && Bounded(db, seqs)
    requires var log := Run(Start(db, seqs), es).log; i < j < |log| && log[i].p.key == log[j].p.key
    ensures var log := Run(Start(db, seqs), es).log;
      && !log[j].result.created
      && log[i].result.pluginId == log[j].result.pluginId && log[i].result.versionId == log[j].result.versionId
      && (log[i].result.created ==> log[i].p.key !in Releases(db))
  {
    hide Releases, Bounded;
    RunKeeps(db, seqs, es);
    var s := Run(Start(db, seqs), es);
    assert Placed(s.db, s.log[i]) && Placed(s.db, s.log[j]);
    InvSound(s);
    VersionNamesUnique(s.db);
    var v, w := s.log[i].result.versionId, s.log[j].result.versionId;
    assert VersionNames(s.db)[v] == VersionNames(s.db)[w];
  }

  // ----- Looking a version up while others publish -----

  lemma {:induction false} LaterExtends(db: Db, seqs: Sequences, es: seq<Event>, i: nat)
    requires Consistent(db) && Bounded(db, seqs) && i <= |es|
    ensures Extends(Run(Start(db, seqs), es[..i]).db, Run(Start(db, seqs), es).db)
    ensures Sound(Run(Start(db, seqs), es[..i]).db) && Sound(Run(Start(db, seqs), es).db)
    decreases |es|
  {
    hide Inv, Consistent, Bounded, Sound, Next, Extends, History;
    RunKeeps(db, seqs, es[..i]);
    InvSound(Run(Start(db, seqs), es[..i]));
    if i == |es| {
      assert es[..i] == es;
      ExtendsItself(Run(Start(db, seqs), es).db);
    } else {
      var before := es[..|es| - 1];
      assert before[..i] == es[..i];
      LaterExtends(db, seqs, before, i);
      RunKeeps(db, seqs, before);
      InvNext(Run(Start(db, seqs), before), es[|es| - 1]);
      InvSound(Run(Start(db, seqs), es));
      ExtendsTransitive(Run(Start(db, seqs), es[..i]).db, Run(Start(db, seqs), before).db, Run(Start(db, seqs), es).db);
    }
  }

  lemma ExtendsItself(db: Db)
    ensures Extends(db, db)
  {
  }

  // What a lookup found, a later lookup finds again.
  lemma FoundLater(db: Db, db': Db, ns: string, n: int, plugin: string, p: int)
    requires Sound(db') && Extends(db, db')
    ensures NamespaceByName(db, ns) == Ok(n) ==> NamespaceByName(db', ns) == Ok(n)
    ensures PluginByKey(db, n, plugin) == Ok(p) ==> PluginByKey(db', n, plugin) == Ok(p)
  {
    hide RefsHold, Named, Only;
    if NamespaceByName(db, ns) == Ok(n) { OnlyFinds(NamespaceKeys(db'.namespaces), n); }
    if PluginByKey(db, n, plugin) == Ok(p) { OnlyFinds(PluginKeys(db'.plugins), p); }
  }

  // The three lookups of GetPluginVersion on the tables of three moments. Whichever is the last one made,
  // the answer is right for the release map of its moment: a miss means that the key is not there, and
  // the row found holds the key's value.
  ghost predicate AnswerIsCurrent(at1: Db, at2: Db, at3: Db, key: Key) {
    var n := NamespaceByName(at1, key.ns);
    if n.Err? then n.error == NotFound && key !in Releases(at1)
    else
      var p := PluginByKey(at2, n.value, key.plugin);
      if p.Err? then p.error == NotFound && key !in Releases(at2)
      else
        var v := VersionByKey(at3, p.value, key.version);
        if v.Err? then v.error == NotFound && key !in Releases(at3)
        else key in Releases(at3) && at3.versions[v.value].release == Releases(at3)[key]
  }

  lemma LookupOf(at1: Db, at2: Db, at3: Db, key: Key)
    requires Sound(at1) && Sound(at2) && Sound(at3) && Extends(at1, at2) && Extends(at2, at3)
    ensures AnswerIsCurrent(at1, at2, at3, key)
  {
    hide Sound, Extends, Releases, Descriptions, Owners, NamespaceByName, PluginByKey, VersionByKey;
    var n := NamespaceByName(at1, key.ns);
    NamespaceRead(at1, key.ns);
    PathMissing(at1, key);
    if n.Ok? {
      var p := PluginByKey(at2, n.value, key.plugin);
      FoundLater(at1, at2, key.ns, n.value, "", 0);
      PluginRead(at2, PluginKey(key.ns, key.plugin), n.value);
      PathMissing(at2, key);
      if p.Ok? {
        FoundLater(at2, at3, key.ns, n.value, key.plugin, p.value);
        VersionRead(at3, key, n.value, p.value);
      }
    }
  }

  // However publishes and account calls fall between the lookups, the answer is current.
  lemma LookupIsCurrent(db: Db, seqs: Sequences, es: seq<Event>, i: nat, j: nat, k: nat, key: Key)
    requires Consistent(db) && Bounded(db, seqs) && i <= j <= k <= |es|
    ensures AnswerIsCurrent(Run(Start(db, seqs), es[..i]).db, Run(Start(db, seqs), es[..j]).db,
                            Run(Start(db, seqs), es[..k]).db, key)
  {
    hide Consistent, Bounded, Run, Sound, Extends, AnswerIsCurrent;
    assert es[..k][..j] == es[..j] && es[..j][..i] == es[..i];
    LaterExtends(db, seqs, es[..j], i);
    LaterExtends(db, seqs, es[..k], j);
    LookupOf(Run(Start(db, seqs), es[..i]).db, Run(Start(db, seqs), es[..j]).db, Run(Start(db, seqs), es[..k]).db, key);
  }

  // ----- Failures -----

  lemma OthersStay(s: State, t: nat, u: nat)
    requires t in s.txs && u != t
    ensures u in ExecNext(s, t).txs <==> u in s.txs
    ensures u in s.txs ==> ExecNext(s, t).txs[u] == s.txs[u]
  {
    hide Only, NamespaceByName, PluginByKey, VersionByKey, NsBusy, PluginBusy, VersionBusy;
    hide InsertNamespace, InsertPlugin, InsertVersion, UpdatePlugin, UpdateVersion, View;
  }

  // A statement that ends its transaction without a commit.
  lemma ExecAborts(s: State, t: nat)
    requires t in s.txs && !s.txs[t].phase.Aborted? && t in ExecNext(s, t).txs && ExecNext(s, t).txs[t].phase.Aborted?
    ensures ExecNext(s, t) == Abort(s, t)
  {
    hide Only, NamespaceByName, PluginByKey, VersionByKey, NsBusy, PluginBusy, VersionBusy;
    hide InsertNamespace, InsertPlugin, InsertVersion, UpdatePlugin, UpdateVersion, View;
  }

  // Whatever makes a publish fail, a call that fails or a statement that is refused, leaves tables,
  // sequences and log as they were and keeps none of the publish's writes.
  lemma FailureChangesNothing(s: State, e: Event, t: nat)
    requires t in Next(s, e).txs && Next(s, e).txs[t].phase.Aborted? && (t in s.txs ==> !s.txs[t].phase.Aborted?)
    ensures t in s.txs && Next(s, e) == Abort(s, t)
    ensures Next(s, e).db == s.db && Next(s, e).seqs == s.seqs && Next(s, e).log == s.log
    ensures Next(s, e).txs[t].delta == NOTHING
  {
    hide ExecNext, MayPublish;
    if e.Exec? && e.t in s.txs {
      if e.t == t { ExecAborts(s, t); } else { OthersStay(s, e.t, t); }
    }
  }

  // A call that fails does end its publish, at whatever statement.
  lemma FailAborts(s: State, t: nat)
    requires t in s.txs && !s.txs[t].phase.Committed?
    ensures var s' := Next(s, Event.Fail(t));
      t in s'.txs && s'.txs[t].phase.Aborted? && s'.txs[t].delta == NOTHING && s'.db == s.db && s'.log == s.log
  {
  }

  // Each logged publish is a transaction of its own that has committed.
  ghost predicate LogClosed(s: State) {
    && (forall i | 0 <= i < |s.log| :: s.log[i].t in s.txs && s.txs[s.log[i].t].phase.Committed?)
    && (forall i, j | 0 <= i < j < |s.log| :: s.log[i].t != s.log[j].t)
  }

  lemma ClosedStays(s: State, e: Event, t: nat)
    requires t in s.txs && (s.txs[t].phase.Committed? || s.txs[t].phase.Aborted?)
    ensures t in Next(s, e).txs && Next(s, e).txs[t].phase == s.txs[t].phase
  {
    hide ExecNext, MayPublish;
    if e.Exec? && e.t in s.txs {
      if e.t == t { assert ExecNext(s, t) == s by { ExecClosed(s, t); } } else { OthersStay(s, e.t, t); }
    }
  }

  lemma ExecClosed(s: State, t: nat)
    requires t in s.txs && (s.txs[t].phase.Committed? || s.txs[t].phase.Aborted?)
    ensures ExecNext(s, t) == s
  {
  }

  lemma LogClosedNext(s: State, e: Event)
    requires LogClosed(s)
    ensures LogClosed(Next(s, e))
  {
    hide Next;
    forall i | 0 <= i < |s.log| ensures s.log[i].t in Next(s, e).txs && Next(s, e).txs[s.log[i].t].phase.Committed? {
      ClosedStays(s, e, s.log[i].t);
    }
    if IsCommit(s, e) { CommitStep(s, e); } else { Quiet(s, e); }
  }

  lemma CommitStep(s: State, e: Event)
    requires IsCommit(s, e)
    ensures Next(s, e) == ExecCommit(s, e.t)
  {
  }

  // A publish that failed stays failed, and no later log has it.
  lemma {:induction false} FailedForGood(db: Db, seqs: Sequences, es: seq<Event>, k: nat, t: nat)
    requires k <= |es|
    requires var mid := Run(Start(db, seqs), es[..k]); t in mid.txs && mid.txs[t].phase.Aborted?
    ensures var s := Run(Start(db, seqs), es);
      && t in s.txs && s.txs[t].phase.Aborted?
      && LogClosed(s) && forall i | 0 <= i < |s.log| :: s.log[i].t != t
    decreases |es|
  {
    hide Next;
    LogIsClosed(db, seqs, es);
    if k < |es| {
      assert es[..|es| - 1][..k] == es[..k];
      FailedForGood(db, seqs, es[..|es| - 1], k, t);
      ClosedStays(Run(Start(db, seqs), es[..|es| - 1]), es[|es| - 1], t);
    } else {
      assert es[..k] == es;
    }
  }

  lemma {:induction false} LogIsClosed(db: Db, seqs: Sequences, es: seq<Event>)
    ensures LogClosed(Run(Start(db, seqs), es))
    decreases |es|
  {
    hide Next, LogClosed;
    if es == [] {
      NothingLogged(db, seqs);
    } else {
      LogIsClosed(db, seqs, es[..|es| - 1]);
      LogClosedNext(Run(Start(db, seqs), es[..|es| - 1]), es[|es| - 1]);
    }
  }

  lemma NothingLogged(db: Db, seqs: Sequences)
    ensures LogClosed(Start(db, seqs))
  {
  }

  // ----- The columns no view shows -----

  ghost predicate BlankDelta(d: Delta) {
    && (d.ns.Some? ==> d.ns.value.row.kind == "user")
    && (d.plugin.Some? ==> d.plugin.value.row.displayName == "" && d.plugin.value.row.logoUrl == "")
  }

  ghost predicate Blank(db: Db, s: State) {
    Columns(db, s.db) && forall t | t in s.txs :: BlankDelta(s.txs[t].delta)
  }

  lemma BlankCreates(s: State, t: nat, n: int)
    requires t in s.txs && BlankDelta(s.txs[t].delta)
    ensures var s' := ExecCreateNs(s, t); s'.db == s.db && t in s'.txs && BlankDelta(s'.txs[t].delta)
    ensures var s' := ExecCreatePlugin(s, t, n); s'.db == s.db && t in s'.txs && BlankDelta(s'.txs[t].delta)
  {
    hide InsertNamespace, InsertPlugin, NsBusy, PluginBusy, View;
  }

  lemma BlankChanges(s: State, t: nat, n: int, id: int)
    requires t in s.txs && BlankDelta(s.txs[t].delta)
    ensures var s' := ExecChangePlugin(s, t, n, id); s'.db == s.db && t in s'.txs && BlankDelta(s'.txs[t].delta)
  {
    hide PluginBusy, View;
  }

  lemma BlankVersions(s: State, t: nat, n: int, id: int, v: int)
    requires t in s.txs && BlankDelta(s.txs[t].delta)
    ensures var s' := ExecCreateVersion(s, t, n, id); s'.db == s.db && t in s'.txs && BlankDelta(s'.txs[t].delta)
    ensures var s' := ExecChangeVersion(s, t, n, id, v); s'.db == s.db && t in s'.txs && BlankDelta(s'.txs[t].delta)
  {
    hide InsertVersion, UpdateVersion, VersionBusy, View;
  }

  lemma BlankExec(db: Db, s: State, t: nat)
    requires Blank(db, s) && t in s.txs
    ensures Columns(db, ExecNext(s, t).db) && t in ExecNext(s, t).txs && BlankDelta(ExecNext(s, t).txs[t].delta)
  {
    hide NamespaceByName, PluginByKey, VersionByKey, ExecCreateNs, ExecCreatePlugin, ExecChangePlugin;
    hide ExecCreateVersion, ExecChangeVersion;
    assert BlankDelta(s.txs[t].delta);
    match s.txs[t].phase
    case CreateNs => BlankCreates(s, t, 0);
    case CreatePlugin(n) => BlankCreates(s, t, n);
    case ChangePlugin(n, id) => BlankChanges(s, t, n, id);
    case CreateVersion(n, id) => BlankVersions(s, t, n, id, 0);
    case ChangeVersion(n, id, v) => BlankVersions(s, t, n, id, v);
    case _ =>
  }

  lemma BlankNext(db: Db, s: State, e: Event)
    requires Blank(db, s)
    ensures Blank(db, Next(s, e))
  {
    hide Only, NamespaceByName, UserByEmail, TokenByHash, NsBusy, MayPublish, ExecNext, BlankDelta;
    var s' := Next(s, e);
    forall t | t in s'.txs ensures BlankDelta(s'.txs[t].delta) {
      if t in s.txs { assert BlankDelta(s.txs[t].delta); }
      NothingIsBlank();
      if e.Exec? && e.t in s.txs {
        if e.t == t { BlankExec(db, s, t); } else { OthersStay(s, e.t, t); }
      }
    }
    if e.Exec? && e.t in s.txs { BlankExec(db, s, e.t); }
  }

  lemma NothingIsBlank()
    ensures BlankDelta(NOTHING)
  {
  }

  // In every run, each new namespace is of the kind "user", and each plugin row is as at the start or has
  // neither a display name nor a logo.
  lemma {:induction false} ColumnsKept(db: Db, seqs: Sequences, es: seq<Event>)
    ensures Blank(db, Run(Start(db, seqs), es))
    decreases |es|
  {
    hide Next, BlankDelta;
    if es != [] {
      ColumnsKept(db, seqs, es[..|es| - 1]);
      BlankNext(db, Run(Start(db, seqs), es[..|es| - 1]), es[|es| - 1]);
    }
  }

  // ----- The version list of a plugin's page -----

  // In every reachable database the list of an existing plugin's versions is not empty, so the page's
  // empty-list branch is never taken, and the version it shows is the newest one. The list holds
  // exactly the plugin's rows, each of them released under the plugin's name.
  lemma PluginPageHasVersions(db: Db, seqs: Sequences, es: seq<Event>, p: int)
    requires Consistent(db) && Bounded(db, seqs) && p in Run(Start(db, seqs), es).db.plugins
    ensures var s := Run(Start(db, seqs), es); var list := Listing(s.db, p, s.seqs.version);
      && list != [] && PluginLinked(s.db, p)
      && (forall v, row :: (v, row) in list <==> v in s.db.versions && s.db.versions[v] == row && row.pluginId == p)
      && (forall i | 0 < i < |list| :: list[i].0 < list[0].0)
      && (forall v, row | (v, row) in list ::
            var k := PluginKeyOf(s.db, p);
            var key := Key(k.ns, k.plugin, row.version);
            key in Releases(s.db) && Releases(s.db)[key] == row.release)
  {
    hide KeysUnique, Named, Run, History, Releases, TxOk, Extends;
    RunKeeps(db, seqs, es);
    var s := Run(Start(db, seqs), es);
    var list := Listing(s.db, p, s.seqs.version);
    ListingExact(s.db, p, s.seqs.version);
    assert HasVersion(s.db, p);
    var v :| v in s.db.versions && s.db.versions[v].pluginId == p;
    assert (v, s.db.versions[v]) in list;
    var k := PluginKeyOf(s.db, p);
    forall w: int, row: Version | (w, row) in list
      ensures Key(k.ns, k.plugin, row.version) in Releases(s.db)
      ensures Releases(s.db)[Key(k.ns, k.plugin, row.version)] == row.release
    {
      VersionRow(s.db, w);
    }
  }

  // ----- Ownership -----

  // A publish let through by the gate keeps its right, never creates a namespace and never holds one.
  ghost predicate Gated(db: Db, tx: Tx) {
    tx.caller.Some? ==> MayPublish(db, tx.p.key.ns, tx.caller.value) && !tx.phase.CreateNs? && tx.delta.ns.None?
  }

  ghost predicate EntryOwned(db: Db, e: Entry) {
    e.caller.Some? ==> MayPublish(db, e.p.key.ns, e.caller.value)
  }

  ghost predicate GatesHold(s: State) {
    && (forall t | t in s.txs :: Gated(s.db, s.txs[t]))
    && (forall i | 0 <= i < |s.log| :: EntryOwned(s.db, s.log[i]))
  }

  // Namespaces belong to a user and carry the local part of that user's address.
  ghost predicate NamedAfterOwner(db: Db, n: int)
    requires n in db.namespaces
  {
    var row := db.namespaces[n];
    && row.name != "" && row.owner.Some? && row.owner.value in db.users
    && row.name == Text.LocalPart(db.users[row.owner.value].email)
  }

  ghost predicate Owned(db: Db) {
    forall n | n in db.namespaces :: NamedAfterOwner(db, n)
  }

  lemma MayPublishPersists(db: Db, db': Db, ns: string, userId: int)
    requires Sound(db) && Sound(db') && Extends(db, db') && MayPublish(db, ns, userId)
    ensures MayPublish(db', ns, userId)
  {
    hide RefsHold, Named;
    var n := NamespaceByName(db, ns).value;
    assert NamespaceKeys(db'.namespaces)[n] == ns;
    OnlyFinds(NamespaceKeys(db'.namespaces), n);
  }

  // What a statement does to its own transaction's request and namespace.
  lemma ExecKeeps(s: State, t: nat)
    requires t in s.txs
    ensures t in ExecNext(s, t).txs
    ensures var tx, tx' := s.txs[t], ExecNext(s, t).txs[t];
      && tx'.caller == tx.caller && tx'.p == tx.p
      && (tx'.phase.CreateNs? ==>
            tx.phase.CreateNs? || (tx.phase.GetNs? && NamespaceByName(View(s.db, tx.delta), tx.p.key.ns).Err?))
      && (tx'.delta.ns.Some? ==> tx'.delta.ns == tx.delta.ns || tx.phase.CreateNs?)
  {
    hide Only, NamespaceByName, PluginByKey, VersionByKey, NsBusy, PluginBusy, VersionBusy;
    hide InsertNamespace, InsertPlugin, InsertVersion, UpdatePlugin, UpdateVersion, View;
  }

  lemma GatedExec(s: State, t: nat)
    requires Inv(s) && t in s.txs && Gated(s.db, s.txs[t]) && s.txs[t].caller.Some?
    ensures t in ExecNext(s, t).txs
    ensures var tx := ExecNext(s, t).txs[t];
      tx.caller == s.txs[t].caller && tx.p == s.txs[t].p && !tx.phase.CreateNs? && tx.delta.ns.None?
  {
    hide Consistent, Bounded, DeltaOk, Only, NamespaceByName, ExecNext, Apart;
    ExecKeeps(s, t);
    assert TxOk(s.db, s.seqs, s.txs[t]);
    if s.txs[t].phase.GetNs? { assert View(s.db, s.txs[t].delta) == s.db; }
  }

  // Transaction t after step e, judged by the tables before it.
  lemma GatedStep(s: State, e: Event, t: nat)
    requires Inv(s) && GatesHold(s) && t in Next(s, e).txs
    ensures Gated(s.db, Next(s, e).txs[t])
  {
    hide Inv, MayPublish, Only, ExecNext;
    if t in s.txs { assert Gated(s.db, s.txs[t]); }
    if e.Exec? && e.t in s.txs {
      if e.t == t {
        if s.txs[t].caller.Some? { GatedExec(s, t); } else { ExecKeeps(s, t); }
      } else {
        OthersStay(s, e.t, t);
      }
    }
  }

  lemma GatesNext(s: State, e: Event)
    requires Inv(s) && GatesHold(s)
    ensures GatesHold(Next(s, e))
  {
    hide Inv, Sound, Extends, MayPublish, Next;
    var s' := Next(s, e);
    InvNext(s, e);
    InvSound(s);
    InvSound(s');
    forall t | t in s'.txs ensures Gated(s'.db, s'.txs[t]) {
      GatedStep(s, e, t);
      var tx := s'.txs[t];
      if tx.caller.Some? { MayPublishPersists(s.db, s'.db, tx.p.key.ns, tx.caller.value); }
    }
    LogStep(s, e);
    forall i | 0 <= i < |s'.log| ensures EntryOwned(s'.db, s'.log[i]) {
      var entry := s'.log[i];
      assert EntryOwned(s.db, entry);
      if entry.caller.Some? { MayPublishPersists(s.db, s'.db, entry.p.key.ns, entry.caller.value); }
    }
  }

  lemma LogStep(s: State, e: Event)
    requires Inv(s) && GatesHold(s)
    ensures forall i | 0 <= i < |Next(s, e).log| :: EntryOwned(s.db, Next(s, e).log[i])
  {
    hide Inv, MayPublish;
    if IsCommit(s, e) {
      assert Gated(s.db, s.txs[e.t]);
    } else {
      Quiet(s, e);
    }
  }

  // A new namespace comes from an unrouted publish or from a registration.
  lemma NewNamespace(s: State, e: Event, n: int)
    requires n in Next(s, e).db.namespaces && n !in s.db.namespaces
    ensures (IsCommit(s, e) && s.txs[e.t].delta.ns.Some?) ||
      (e.ClaimNamespace? && e.userId in s.db.users && Next(s, e).db.users == s.db.users
       && Next(s, e).db.namespaces[n].name == Text.LocalPart(s.db.users[e.userId].email)
       && Next(s, e).db.namespaces[n].owner == if e.userId == 0 then None else Some(e.userId))
  {
    hide Only, NamespaceByName, PluginByKey, VersionByKey, UserByEmail, TokenByHash;
  }

  // Without unrouted publishes, ownership is kept.
  lemma OwnedNext(s: State, e: Event)
    requires Inv(s) && GatesHold(s) && Owned(s.db) && (forall t | t in s.txs :: s.txs[t].caller.Some?)
    requires e.Begin? ==> e.caller.Some?
    ensures Owned(Next(s, e).db) && forall t | t in Next(s, e).txs :: Next(s, e).txs[t].caller.Some?
  {
    hide Inv, MayPublish, Only, Next, Sound, Extends, Gated;
    InvNext(s, e);
    var s' := Next(s, e);
    InvNames(s);
    InvNames(s');
    NamespacesPersist(s.db, s'.db);
    forall n | n in s'.db.namespaces ensures NamedAfterOwner(s'.db, n) {
      if n in s.db.namespaces {
        assert NamedAfterOwner(s.db, n);
        var u := s.db.namespaces[n].owner.value;
        assert u in s'.db.users && s'.db.users[u] == s.db.users[u];
      } else {
        NewNamespace(s, e, n);
        if IsCommit(s, e) { GatedWritesNone(s, e.t); }
      }
    }
    forall t | t in s'.txs ensures s'.txs[t].caller.Some? { CallersStep(s, e, t); }
  }

  lemma InvNames(s: State)
    requires Inv(s)
    ensures Named(s.db) && 0 !in s.db.users
  {
  }

  lemma NamespacesPersist(db: Db, db': Db)
    requires Extends(db, db')
    ensures forall n | n in db.namespaces :: n in db'.namespaces && db'.namespaces[n] == db.namespaces[n]
  {
  }

  lemma GatedWritesNone(s: State, t: nat)
    requires GatesHold(s) && t in s.txs && s.txs[t].caller.Some?
    ensures s.txs[t].delta.ns.None?
  {
    assert Gated(s.db, s.txs[t]);
  }

  lemma CallersStep(s: State, e: Event, t: nat)
    requires t in Next(s, e).txs && (t in s.txs ==> s.txs[t].caller.Some?) && (e.Begin? ==> e.caller.Some?)
    ensures Next(s, e).txs[t].caller.Some?
  {
    hide MayPublish, Only, ExecNext;
    if e.Exec? && e.t in s.txs {
      if e.t == t { ExecKeeps(s, t); } else { OthersStay(s, e.t, t); }
    }
  }

  lemma GatesStart(db: Db, seqs: Sequences)
    ensures GatesHold(Start(db, seqs))
  {
  }

  lemma {:induction false} GatesRun(db: Db, seqs: Sequences, es: seq<Event>)
    requires Consistent(db) && Bounded(db, seqs)
    ensures Inv(Run(Start(db, seqs), es)) && GatesHold(Run(Start(db, seqs), es))
    decreases |es|
  {
    hide Inv, Consistent, Next, Bounded, GatesHold;
    StartOk(db, seqs);
    if es == [] {
      GatesStart(db, seqs);
    } else {
      GatesRun(db, seqs, es[..|es| - 1]);
      InvNext(Run(Start(db, seqs), es[..|es| - 1]), es[|es| - 1]);
      GatesNext(Run(Start(db, seqs), es[..|es| - 1]), es[|es| - 1]);
    }
  }

  // A publish that passed the namespace gate writes only under a namespace its caller still owns, and
  // never reaches the statement that creates namespaces. Owners never change.
  lemma GateIsEnough(db: Db, seqs: Sequences, es: seq<Event>)
    requires Consistent(db) && Bounded(db, seqs)
    ensures var s := Run(Start(db, seqs), es);
      && (forall i | 0 <= i < |s.log| && s.log[i].caller.Some? ::
            s.log[i].p.key.ns in Owners(s.db) && Owners(s.db)[s.log[i].p.key.ns] == s.log[i].caller)
      && (forall t | t in s.txs && s.txs[t].caller.Some? :: !s.txs[t].phase.CreateNs?)
      && (forall n | n in db.namespaces :: n in s.db.namespaces && s.db.namespaces[n] == db.namespaces[n])
  {
    hide Releases, Bounded;
    GatesRun(db, seqs, es);
    RunKeeps(db, seqs, es);
    var s := Run(Start(db, seqs), es);
    forall i | 0 <= i < |s.log| && s.log[i].caller.Some?
      ensures s.log[i].p.key.ns in Owners(s.db) && Owners(s.db)[s.log[i].p.key.ns] == s.log[i].caller
    {
      assert EntryOwned(s.db, s.log[i]);
      NamespaceRead(s.db, s.log[i].p.key.ns);
    }
    forall t | t in s.txs && s.txs[t].caller.Some? ensures !s.txs[t].phase.CreateNs? { assert Gated(s.db, s.txs[t]); }
  }

  // In runs made of the routed steps alone, every namespace belongs to a user and is named by the
  // part of that user's address before the first '@'.
  lemma {:induction false} RoutedRunsKeepOwners(db: Db, seqs: Sequences, es: seq<Event>)
    requires Consistent(db) && Bounded(db, seqs) && Owned(db)
    requires forall i | 0 <= i < |es| && es[i].Begin? :: es[i].caller.Some?
    ensures var s := Run(Start(db, seqs), es); Owned(s.db) && forall t | t in s.txs :: s.txs[t].caller.Some?
    decreases |es|
  {
    hide Inv, Consistent, Next, Bounded, GatesHold, Owned;
    if es != [] {
      RoutedRunsKeepOwners(db, seqs, es[..|es| - 1]);
      GatesRun(db, seqs, es[..|es| - 1]);
      OwnedNext(Run(Start(db, seqs), es[..|es| - 1]), es[|es| - 1]);
    }
  }
}
