// The server as a state machine: any number of publish transactions interleaved statement by
// statement with each other and with the single-statement account calls. PostgreSQL runs them at
// read-committed isolation: a statement sees what is committed plus its own transaction's writes,
// and it waits while another open transaction has written the row or the unique key it wants to write.
module Server {
  import opened Wrappers
  import opened Tables
  import opened Registry
  import Text

  datatype Write<T> = Write(id: int, row: T)

  // What an open transaction has written so far: a publish writes at most one row of each table.
  datatype Delta = Delta(ns: Option<Write<Namespace>>, plugin: Option<Write<Plugin>>, version: Option<Write<Version>>)

  const NOTHING := Delta(None, None, None)

  // The next statement of upsertRecords.
  datatype Phase =
    | GetNs
    | CreateNs
    | GetPlugin(ns: int)
    | CreatePlugin(ns: int)
    | ChangePlugin(ns: int, plugin: int)
    | GetVersion(ns: int, plugin: int)
    | CreateVersion(ns: int, plugin: int)
    | ChangeVersion(ns: int, plugin: int, version: int)
    | Ready(ns: int, plugin: int, version: int, created: bool)
    | Committed
    | Aborted

  // caller is the user whom the namespace gate let through, if the publish came by the route.
  // seen is how many publishes were committed when it last looked its plugin up.
  datatype Tx = Tx(p: Publication, caller: Option<int>, phase: Phase, delta: Delta, seen: nat)

  // wrote says whether the transaction wrote the plugin row.
  datatype Entry = Entry(t: nat, p: Publication, caller: Option<int>, result: PublishResult, wrote: bool, seen: nat)

  // log records the successful publishes in commit order.
  datatype State = State(db: Db, seqs: Sequences, txs: map<nat, Tx>, log: seq<Entry>)

  datatype Event =
    | Begin(t: nat, p: Publication, caller: Option<int>)
    | Exec(t: nat)                                          // the next statement of transaction t
    | Fail(t: nat)                                          // it fails, and the transaction rolls back
    | CreateUser(user: User)
    | ClaimNamespace(userId: int)                           // Register's second statement
    | CreateToken(token: Token)
    | RemoveToken(id: int)
    | PurgeTokens(now: int)
    | Gap(seqs: Sequences)                                  // ids lost to failed statements and rollbacks

  function Begun(p: Publication, caller: Option<int>): Tx { Tx(p, caller, GetNs, NOTHING, 0) }

  function Put<T>(rows: map<int, T>, w: Option<Write<T>>): map<int, T> {
    if w.Some? then rows[w.value.id := w.value.row] else rows
  }

  // The tables as the transaction with these writes sees them.
  function View(db: Db, d: Delta): Db {
    db.(namespaces := Put(db.namespaces, d.ns),
        plugins := Put(db.plugins, d.plugin),
        versions := Put(db.versions, d.version))
  }

  // middleware.RequireNamespace: the namespace exists and the caller owns it.
  ghost predicate MayPublish(db: Db, ns: string, userId: int) {
    NamespaceByName(db, ns).Ok? && db.namespaces[NamespaceByName(db, ns).value].owner == Some(userId)
  }

  // ----- Waiting for other transactions' uncommitted writes -----

  ghost predicate NsBusy(txs: map<nat, Tx>, name: string) {
    exists u :: u in txs && txs[u].delta.ns.Some? && txs[u].delta.ns.value.row.name == name
  }

  ghost predicate PluginBusy(txs: map<nat, Tx>, id: int, ns: int, name: string) {
    exists u :: u in txs && txs[u].delta.plugin.Some? &&
      (txs[u].delta.plugin.value.id == id || IndexedPlugin(txs[u].delta.plugin.value.row) == (ns, name))
  }

  ghost predicate VersionBusy(txs: map<nat, Tx>, id: int, plugin: int, version: string) {
    exists u :: u in txs && txs[u].delta.version.Some? &&
      (txs[u].delta.version.value.id == id || IndexedVersion(txs[u].delta.version.value.row) == (plugin, version))
  }

  function IndexedPlugin(row: Plugin): (int, string) { (row.nsId, row.name) }

  function IndexedVersion(row: Version): (int, string) { (row.pluginId, row.version) }

  // ----- Steps -----

  function Move(s: State, t: nat, tx: Tx): State { s.(txs := s.txs[t := tx]) }

  function Abort(s: State, t: nat): State
    requires t in s.txs
  {
    Move(s, t, s.txs[t].(phase := Aborted, delta := NOTHING))
  }

  ghost function ExecCreateNs(s: State, t: nat): State
    requires t in s.txs
  {
    var tx := s.txs[t];
    if NsBusy(s.txs - {t}, tx.p.key.ns) then s
    else match InsertNamespace(View(s.db, tx.delta), s.seqs, tx.p.key.ns, "user", 0)
      case Err(_) => Abort(s, t)
      case Ok(r) =>
        var w := Write(r.id, Namespace(tx.p.key.ns, "user", None));
        Move(s, t, tx.(phase := GetPlugin(r.id), delta := tx.delta.(ns := Some(w)))).(seqs := r.seqs)
  }

  ghost function ExecCreatePlugin(s: State, t: nat, n: int): State
    requires t in s.txs
  {
    var tx := s.txs[t];
    var row := Plugin(n, tx.p.key.plugin, "", tx.p.description, "");
    if PluginBusy(s.txs - {t}, s.seqs.plugin + 1, n, tx.p.key.plugin) then s
    else match InsertPlugin(View(s.db, tx.delta), s.seqs, row)
      case Err(_) => Abort(s, t)
      case Ok(r) =>
        var d := tx.delta.(plugin := Some(Write(r.id, row)));
        Move(s, t, tx.(phase := GetVersion(n, r.id), delta := d)).(seqs := r.seqs)
  }

  ghost function ExecChangePlugin(s: State, t: nat, n: int, id: int): State
    requires t in s.txs
  {
    var tx := s.txs[t];
    if PluginBusy(s.txs - {t}, id, n, tx.p.key.plugin) then s
    else match UpdatePlugin(View(s.db, tx.delta), id, "", tx.p.description, "")
      case Err(_) => Abort(s, t)
      case Ok(db) =>
        var d := tx.delta.(plugin := Some(Write(id, db.plugins[id])));
        Move(s, t, tx.(phase := GetVersion(n, id), delta := d))
  }

  ghost function ExecCreateVersion(s: State, t: nat, n: int, id: int): State
    requires t in s.txs
  {
    var tx := s.txs[t];
    var row := Version(id, tx.p.key.version, tx.p.release);
    if VersionBusy(s.txs - {t}, s.seqs.version + 1, id, tx.p.key.version) then s
    else match InsertVersion(View(s.db, tx.delta), s.seqs, row)
      case Err(_) => Abort(s, t)
      case Ok(r) =>
        var d := tx.delta.(version := Some(Write(r.id, row)));
        Move(s, t, tx.(phase := Ready(n, id, r.id, true), delta := d)).(seqs := r.seqs)
  }

  ghost function ExecChangeVersion(s: State, t: nat, n: int, id: int, v: int): State
    requires t in s.txs
  {
    var tx := s.txs[t];
    if VersionBusy(s.txs - {t}, v, id, tx.p.key.version) then s
    else match UpdateVersion(View(s.db, tx.delta), v, tx.p.release)
      case Err(_) => Abort(s, t)
      case Ok(db) =>
        var d := tx.delta.(version := Some(Write(v, db.versions[v])));
        Move(s, t, tx.(phase := Ready(n, id, v, false), delta := d))
  }

  ghost function ExecCommit(s: State, t: nat): State
    requires t in s.txs && s.txs[t].phase.Ready?
  {
    var tx := s.txs[t];
    var result := PublishResult(tx.phase.plugin, tx.phase.version, tx.phase.created);
    var entry := Entry(t, tx.p, tx.caller, result, tx.delta.plugin.Some?, tx.seen);
    State(View(s.db, tx.delta), s.seqs, s.txs[t := tx.(phase := Committed, delta := NOTHING)], s.log + [entry])
  }

  ghost function ExecNext(s: State, t: nat): State
    requires t in s.txs
  {
    var tx := s.txs[t];
    var v := View(s.db, tx.delta);
    match tx.phase
    case GetNs =>
      (match NamespaceByName(v, tx.p.key.ns)
       case Ok(n) => Move(s, t, tx.(phase := GetPlugin(n)))
       case Err(e) => if e == NotFound then Move(s, t, tx.(phase := CreateNs)) else Abort(s, t))
    case CreateNs => ExecCreateNs(s, t)
    case GetPlugin(n) =>
      (match PluginByKey(v, n, tx.p.key.plugin)
       case Ok(id) =>
         var next := if v.plugins[id].description != tx.p.description then ChangePlugin(n, id) else GetVersion(n, id);
         Move(s, t, tx.(phase := next, seen := |s.log|))
       case Err(e) => if e == NotFound then Move(s, t, tx.(phase := CreatePlugin(n))) else Abort(s, t))
    case CreatePlugin(n) => ExecCreatePlugin(s, t, n)
    case ChangePlugin(n, id) => ExecChangePlugin(s, t, n, id)
    case GetVersion(n, id) =>
      (match VersionByKey(v, id, tx.p.key.version)
       case Ok(vid) => Move(s, t, tx.(phase := ChangeVersion(n, id, vid)))
       case Err(e) => if e == NotFound then Move(s, t, tx.(phase := CreateVersion(n, id))) else Abort(s, t))
    case CreateVersion(n, id) => ExecCreateVersion(s, t, n, id)
    case ChangeVersion(n, id, vid) => ExecChangeVersion(s, t, n, id, vid)
    case Ready(_, _, _, _) => ExecCommit(s, t)
    case Committed => s
    case Aborted => s
  }

  // An event that is not enabled changes nothing.
  ghost function Next(s: State, e: Event): State {
    match e
    case Begin(t, p, caller) =>
      if t in s.txs || (caller.Some? && !MayPublish(s.db, p.key.ns, caller.value)) then s
      else Move(s, t, Begun(p, caller))
    case Exec(t) => if t in s.txs then ExecNext(s, t) else s
    case Fail(t) => if t in s.txs && !s.txs[t].phase.Committed? then Abort(s, t) else s
    case CreateUser(user) =>
      (match InsertUser(s.db, s.seqs, user) case Ok(r) => s.(db := r.db, seqs := r.seqs) case Err(_) => s)
    case ClaimNamespace(userId) =>
      if userId !in s.db.users then s
      else
        var name := Text.LocalPart(s.db.users[userId].email);
        if NsBusy(s.txs, name) then s
        else
          (match InsertNamespace(s.db, s.seqs, name, "user", userId)
           case Ok(r) => s.(db := r.db, seqs := r.seqs)
           case Err(_) => s)
    case CreateToken(token) =>
      (match InsertToken(s.db, s.seqs, token) case Ok(r) => s.(db := r.db, seqs := r.seqs) case Err(_) => s)
    case RemoveToken(id) => (match DeleteToken(s.db, id) case Ok(db) => s.(db := db) case Err(_) => s)
    case PurgeTokens(now) => s.(db := DeleteExpired(s.db, now))
    case Gap(seqs) => if AtLeast(seqs, s.seqs) then s.(seqs := seqs) else s
  }

  // ----- What every reachable state keeps -----

  ghost predicate NsWriteOk(db: Db, seqs: Sequences, d: Delta) {
    d.ns.Some? ==>
      var w := d.ns.value;
      && Fits(NamespaceKeys(db.namespaces), seqs.namespace, w.id, w.row.name) && w.id !in db.namespaces
      && w.row.name != "" && (w.row.owner.Some? ==> w.row.owner.value in db.users)
  }

  ghost predicate PluginWriteOk(db: Db, seqs: Sequences, d: Delta) {
    d.plugin.Some? ==>
      var w := d.plugin.value;
      && Fits(PluginKeys(db.plugins), seqs.plugin, w.id, IndexedPlugin(w.row))
      && w.row.name != "" && w.row.nsId in Put(db.namespaces, d.ns)
  }

  ghost predicate VersionWriteOk(db: Db, seqs: Sequences, d: Delta) {
    d.version.Some? ==>
      var w := d.version.value;
      && Fits(VersionKeys(db.versions), seqs.version, w.id, IndexedVersion(w.row))
      && w.row.version != "" && w.row.release.digest != "" && w.row.pluginId in Put(db.plugins, d.plugin)
  }

  ghost predicate DeltaOk(db: Db, seqs: Sequences, d: Delta) {
    NsWriteOk(db, seqs, d) && PluginWriteOk(db, seqs, d) && VersionWriteOk(db, seqs, d)
  }

  // Two open transactions never write the same row or the same key.
  ghost predicate Apart(d: Delta, e: Delta) {
    && (d.ns.Some? && e.ns.Some? ==> d.ns.value.id != e.ns.value.id && d.ns.value.row.name != e.ns.value.row.name)
    && (d.plugin.Some? && e.plugin.Some? ==>
         && d.plugin.value.id != e.plugin.value.id
         && IndexedPlugin(d.plugin.value.row) != IndexedPlugin(e.plugin.value.row))
    && (d.version.Some? && e.version.Some? ==>
         && d.version.value.id != e.version.value.id
         && IndexedVersion(d.version.value.row) != IndexedVersion(e.version.value.row))
  }

  ghost predicate NsAt(v: Db, p: Publication, n: int) {
    n in v.namespaces && v.namespaces[n].name == p.key.ns
  }

  ghost predicate PluginAt(v: Db, p: Publication, n: int, id: int) {
    NsAt(v, p, n) && id in v.plugins && IndexedPlugin(v.plugins[id]) == (n, p.key.plugin)
  }

  // What a transaction knows between two statements.
  ghost predicate PhaseOk(db: Db, tx: Tx) {
    var v, p, d := View(db, tx.delta), tx.p, tx.delta;
    && (d.ns.Some? ==> d.ns.value.row == Namespace(p.key.ns, "user", None))
    && (d.plugin.Some? ==> d.plugin.value.row.description == p.description)
    && match tx.phase
       case GetPlugin(n) => d.plugin.None? && d.version.None? && NsAt(v, p, n)
       case CreatePlugin(n) => d.plugin.None? && d.version.None? && NsAt(v, p, n)
       case ChangePlugin(n, id) => d.plugin.None? && d.version.None? && PluginAt(v, p, n, id)
       case GetVersion(n, id) =>
         (d.plugin.Some? ==> d.plugin.value.id == id) && d.version.None? && PluginAt(v, p, n, id)
       case CreateVersion(n, id) =>
         (d.plugin.Some? ==> d.plugin.value.id == id) && d.version.None? && PluginAt(v, p, n, id)
       case ChangeVersion(n, id, vid) =>
         (d.plugin.Some? ==> d.plugin.value.id == id) && d.version.None? && PluginAt(v, p, n, id)
         && vid in db.versions && IndexedVersion(db.versions[vid]) == (id, p.key.version)
       case Ready(n, id, vid, created) =>
         (d.plugin.Some? ==> d.plugin.value.id == id) && PluginAt(v, p, n, id)
         && d.version == Some(Write(vid, Version(id, p.key.version, p.release)))
         && (created <==> vid !in db.versions)
       case _ => d == NOTHING
  }

  ghost predicate TxOk(db: Db, seqs: Sequences, tx: Tx) { DeltaOk(db, seqs, tx.delta) && PhaseOk(db, tx) }

  ghost predicate Inv(s: State) {
    && Consistent(s.db) && Bounded(s.db, s.seqs)
    && (forall t | t in s.txs :: TxOk(s.db, s.seqs, s.txs[t]))
    && (forall t, u | t in s.txs && u in s.txs && t != u :: Apart(s.txs[t].delta, s.txs[u].delta))
  }

  // ----- Merging one transaction's writes -----

  lemma ViewSound(db: Db, seqs: Sequences, d: Delta)
    requires Sound(db) && Bounded(db, seqs) && DeltaOk(db, seqs, d)
    ensures var v1 := db.(namespaces := Put(db.namespaces, d.ns));
      var v2 := v1.(plugins := Put(db.plugins, d.plugin));
      var v := View(db, d);
      && Sound(v1) && Extends(db, v1) && Sound(v2) && Extends(v1, v2) && Sound(v) && Extends(v2, v)
      && Extends(db, v) && Bounded(v, seqs)
  {
    hide Sound, Bounded, Fits;
    var v1 := db.(namespaces := Put(db.namespaces, d.ns));
    var v2 := v1.(plugins := Put(db.plugins, d.plugin));
    if d.ns.Some? { NamespacePut(db, seqs, d.ns.value.id, d.ns.value.row); }
    if d.plugin.Some? { PluginPut(v1, seqs, d.plugin.value.id, d.plugin.value.row); }
    if d.version.Some? { VersionPut(v2, seqs, d.version.value.id, d.version.value.row); }
  }

  lemma FitsStable<K(!new)>(keys: map<int, K>, last: nat, id: int, k: K, id': int, k': K)
    requires Fits(keys, last, id, k) && id != id' && k != k'
    ensures Fits(keys[id' := k'], last, id, k)
  {
  }

  lemma NsWriteStable(db: Db, seqs: Sequences, d: Delta, e: Delta)
    requires NsWriteOk(db, seqs, e) && Apart(d, e)
    ensures NsWriteOk(View(db, d), seqs, e)
  {
    hide Fits, NamespaceKeys;
    if d.ns.Some? && e.ns.Some? {
      var v, w := d.ns.value, e.ns.value;
      NamespaceKeysPut(db.namespaces, v.id, v.row);
      FitsStable(NamespaceKeys(db.namespaces), seqs.namespace, w.id, w.row.name, v.id, v.row.name);
    }
  }

  lemma PluginWriteStable(db: Db, seqs: Sequences, d: Delta, e: Delta)
    requires PluginWriteOk(db, seqs, e) && Apart(d, e)
    ensures PluginWriteOk(View(db, d), seqs, e)
  {
    hide Fits, PluginKeys;
    if d.plugin.Some? && e.plugin.Some? {
      var v, w := d.plugin.value, e.plugin.value;
      PluginKeysPut(db.plugins, v.id, v.row);
      FitsStable(PluginKeys(db.plugins), seqs.plugin, w.id, IndexedPlugin(w.row), v.id, IndexedPlugin(v.row));
    }
  }

  lemma VersionWriteStable(db: Db, seqs: Sequences, d: Delta, e: Delta)
    requires VersionWriteOk(db, seqs, e) && Apart(d, e)
    ensures VersionWriteOk(View(db, d), seqs, e)
  {
    hide Fits, VersionKeys;
    if d.version.Some? && e.version.Some? {
      var v, w := d.version.value, e.version.value;
      VersionKeysPut(db.versions, v.id, v.row);
      FitsStable(VersionKeys(db.versions), seqs.version, w.id, IndexedVersion(w.row), v.id, IndexedVersion(v.row));
    }
  }

  // Another transaction's writes stay mergeable after this one's are committed.
  lemma DeltaStable(db: Db, seqs: Sequences, d: Delta, e: Delta)
    requires DeltaOk(db, seqs, e) && Apart(d, e)
    ensures DeltaOk(View(db, d), seqs, e)
  {
    hide NsWriteOk, PluginWriteOk, VersionWriteOk, Apart, View;
    NsWriteStable(db, seqs, d, e);
    PluginWriteStable(db, seqs, d, e);
    VersionWriteStable(db, seqs, d, e);
  }

  lemma NsAtStable(db: Db, d: Delta, e: Delta, p: Publication, n: int)
    requires Extends(db, View(db, d)) && NsAt(View(db, e), p, n)
    ensures NsAt(View(View(db, d), e), p, n)
  {
  }

  lemma PluginAtStable(db: Db, d: Delta, e: Delta, p: Publication, n: int, id: int)
    requires Extends(db, View(db, d)) && PluginAt(View(db, e), p, n, id)
    ensures PluginAt(View(View(db, d), e), p, n, id)
  {
    hide NsAt;
    NsAtStable(db, d, e, p, n);
  }

  lemma VersionsStable(db: Db, d: Delta, e: Delta)
    requires Extends(db, View(db, d)) && Apart(d, e)
    ensures forall v | v in db.versions ::
      v in View(db, d).versions && IndexedVersion(View(db, d).versions[v]) == IndexedVersion(db.versions[v])
    ensures e.version.Some? ==> (e.version.value.id in View(db, d).versions <==> e.version.value.id in db.versions)
  {
  }

  // So does what it knows.
  lemma PhaseStable(db: Db, d: Delta, tx: Tx)
    requires Extends(db, View(db, d)) && PhaseOk(db, tx) && Apart(d, tx.delta)
    ensures PhaseOk(View(db, d), tx)
  {
    hide Extends, View, NsAt, PluginAt, Apart, IndexedVersion;
    VersionsStable(db, d, tx.delta);
    match tx.phase
    case GetPlugin(n) => NsAtStable(db, d, tx.delta, tx.p, n);
    case CreatePlugin(n) => NsAtStable(db, d, tx.delta, tx.p, n);
    case ChangePlugin(n, id) => PluginAtStable(db, d, tx.delta, tx.p, n, id);
    case GetVersion(n, id) => PluginAtStable(db, d, tx.delta, tx.p, n, id);
    case CreateVersion(n, id) => PluginAtStable(db, d, tx.delta, tx.p, n, id);
    case ChangeVersion(n, id, _) => PluginAtStable(db, d, tx.delta, tx.p, n, id);
    case Ready(n, id, _, _) => PluginAtStable(db, d, tx.delta, tx.p, n, id);
    case _ =>
  }

  // ----- Every step keeps the invariant -----

  lemma SeqsGrow(db: Db, seqs: Sequences, seqs': Sequences, d: Delta)
    requires DeltaOk(db, seqs, d) && AtLeast(seqs', seqs)
    ensures DeltaOk(db, seqs', d)
  {
    hide Only;
  }

  // A step of t that commits nothing.
  lemma InvMove(s: State, t: nat, tx: Tx, seqs: Sequences)
    requires Inv(s) && AtLeast(seqs, s.seqs) && TxOk(s.db, seqs, tx)
    requires forall u | u in s.txs && u != t :: Apart(tx.delta, s.txs[u].delta)
    ensures Inv(Move(s, t, tx).(seqs := seqs))
  {
    hide Consistent, DeltaOk, PhaseOk;
    forall u | u in s.txs ensures DeltaOk(s.db, seqs, s.txs[u].delta) { SeqsGrow(s.db, s.seqs, seqs, s.txs[u].delta); }
  }

  // Committing the writes d: the other open transactions are not disturbed.
  lemma InvMerge(s: State, d: Delta, txs: map<nat, Tx>, log: seq<Entry>)
    requires Inv(s) && DeltaOk(s.db, s.seqs, d) && Released(View(s.db, d))
    requires forall u | u in txs :: (u in s.txs && txs[u] == s.txs[u] && Apart(d, txs[u].delta))
                                   || (txs[u].delta == NOTHING && (txs[u].phase.Committed? || txs[u].phase.Aborted?))
    ensures Inv(State(View(s.db, d), s.seqs, txs, log))
    ensures Extends(s.db, View(s.db, d))
  {
    hide Sound, Released, DeltaOk, PhaseOk;
    ViewSound(s.db, s.seqs, d);
    forall u | u in txs ensures TxOk(View(s.db, d), s.seqs, txs[u]) {
      if u in s.txs && txs[u] == s.txs[u] && Apart(d, txs[u].delta) {
        DeltaStable(s.db, s.seqs, d, txs[u].delta);
        PhaseStable(s.db, d, txs[u]);
      } else {
        Idle(View(s.db, d), s.seqs, txs[u]);
      }
    }
    forall t, u | t in txs && u in txs && t != u ensures Apart(txs[t].delta, txs[u].delta) {
    }
  }

  lemma Idle(db: Db, seqs: Sequences, tx: Tx)
    requires tx.delta == NOTHING && (tx.phase.Committed? || tx.phase.Aborted? || tx.phase.GetNs? || tx.phase.CreateNs?)
    ensures TxOk(db, seqs, tx)
  {
  }

  lemma InvAbort(s: State, t: nat)
    requires Inv(s) && t in s.txs
    ensures Inv(Abort(s, t))
  {
    hide Consistent;
    var tx := s.txs[t].(phase := Aborted, delta := NOTHING);
    Idle(s.db, s.seqs, tx);
    InvMove(s, t, tx, s.seqs);
  }

  // What the other transactions hold lies below the sequences, and outside the keys that are not busy.
  lemma OthersBelow(s: State, t: nat)
    requires Inv(s)
    ensures forall u | u in s.txs && s.txs[u].delta.ns.Some? :: s.txs[u].delta.ns.value.id <= s.seqs.namespace
    ensures forall u | u in s.txs && s.txs[u].delta.plugin.Some? :: s.txs[u].delta.plugin.value.id <= s.seqs.plugin
    ensures forall u | u in s.txs && s.txs[u].delta.version.Some? :: s.txs[u].delta.version.value.id <= s.seqs.version
  {
    hide Consistent, PhaseOk;
    forall u | u in s.txs ensures DeltaOk(s.db, s.seqs, s.txs[u].delta) { assert TxOk(s.db, s.seqs, s.txs[u]); }
  }

  lemma InvCreateNs(s: State, t: nat)
    requires Inv(s) && t in s.txs && s.txs[t].phase.CreateNs?
    ensures Inv(ExecCreateNs(s, t))
  {
    hide Consistent, Only;
    var tx := s.txs[t];
    assert PhaseOk(s.db, tx) && View(s.db, tx.delta) == s.db;
    match InsertNamespace(s.db, s.seqs, tx.p.key.ns, "user", 0)
    case Err(_) => InvAbort(s, t);
    case Ok(r) =>
      if !NsBusy(s.txs - {t}, tx.p.key.ns) {
        OthersBelow(s, t);
        var w := Write(r.id, Namespace(tx.p.key.ns, "user", None));
        var tx' := tx.(phase := GetPlugin(r.id), delta := tx.delta.(ns := Some(w)));
        forall u | u in s.txs && u != t ensures Apart(tx'.delta, s.txs[u].delta) { assert u in s.txs - {t}; }
        InvMove(s, t, tx', r.seqs);
      }
  }

  // A new write to a row and a key that no other open transaction holds.
  lemma InvPluginWrite(s: State, t: nat, tx: Tx, seqs: Sequences)
    requires Inv(s) && t in s.txs && AtLeast(seqs, s.seqs) && TxOk(s.db, seqs, tx) && tx.delta.plugin.Some?
    requires tx.delta == s.txs[t].delta.(plugin := tx.delta.plugin)
    requires var w := tx.delta.plugin.value; !PluginBusy(s.txs - {t}, w.id, w.row.nsId, w.row.name)
    ensures Inv(Move(s, t, tx).(seqs := seqs))
  {
    hide Consistent, Bounded, TxOk;
    forall u | u in s.txs && u != t ensures Apart(tx.delta, s.txs[u].delta) {
      assert u in s.txs - {t};
      assert Apart(s.txs[t].delta, s.txs[u].delta);
    }
    InvMove(s, t, tx, seqs);
  }

  lemma InvVersionWrite(s: State, t: nat, tx: Tx, seqs: Sequences)
    requires Inv(s) && t in s.txs && AtLeast(seqs, s.seqs) && TxOk(s.db, seqs, tx) && tx.delta.version.Some?
    requires tx.delta == s.txs[t].delta.(version := tx.delta.version)
    requires var w := tx.delta.version.value; !VersionBusy(s.txs - {t}, w.id, w.row.pluginId, w.row.version)
    ensures Inv(Move(s, t, tx).(seqs := seqs))
  {
    hide Consistent, Bounded, TxOk;
    forall u | u in s.txs && u != t ensures Apart(tx.delta, s.txs[u].delta) {
      assert u in s.txs - {t};
      assert Apart(s.txs[t].delta, s.txs[u].delta);
    }
    InvMove(s, t, tx, seqs);
  }

  lemma InvCreatePlugin(s: State, t: nat, n: int)
    requires Inv(s) && t in s.txs && s.txs[t].phase == CreatePlugin(n)
    ensures Inv(ExecCreatePlugin(s, t, n))
  {
    hide Consistent, Only, Apart, NsWriteOk, VersionWriteOk;
    var tx := s.txs[t];
    var row := Plugin(n, tx.p.key.plugin, "", tx.p.description, "");
    assert TxOk(s.db, s.seqs, tx);
    match InsertPlugin(View(s.db, tx.delta), s.seqs, row)
    case Err(_) => InvAbort(s, t);
    case Ok(r) =>
      if !PluginBusy(s.txs - {t}, s.seqs.plugin + 1, n, tx.p.key.plugin) {
        var tx' := tx.(phase := GetVersion(n, r.id), delta := tx.delta.(plugin := Some(Write(r.id, row))));
        WritesUnaffected(s.db, s.seqs, r.seqs, tx.delta, tx'.delta);
        InvPluginWrite(s, t, tx', r.seqs);
      }
  }

  // The other tables' writes do not mind a later write to plugins or versions.
  lemma WritesUnaffected(db: Db, seqs: Sequences, seqs': Sequences, d: Delta, d': Delta)
    requires DeltaOk(db, seqs, d) && AtLeast(seqs', seqs) && d.version.None? && d'.ns == d.ns
    ensures NsWriteOk(db, seqs', d')
    ensures d'.plugin == d.plugin ==> PluginWriteOk(db, seqs', d')
    ensures d'.version.None? ==> VersionWriteOk(db, seqs', d')
  {
    hide Only;
  }

  lemma InvChangePlugin(s: State, t: nat, n: int, id: int)
    requires Inv(s) && t in s.txs && s.txs[t].phase == ChangePlugin(n, id)
    ensures Inv(ExecChangePlugin(s, t, n, id))
  {
    hide KeysUnique, RefsHold, Released, Only, Apart, NsWriteOk, VersionWriteOk;
    var tx := s.txs[t];
    assert TxOk(s.db, s.seqs, tx);
    match UpdatePlugin(View(s.db, tx.delta), id, "", tx.p.description, "")
    case Err(_) => InvAbort(s, t);
    case Ok(db) =>
      if !PluginBusy(s.txs - {t}, id, n, tx.p.key.plugin) {
        var tx' := tx.(phase := GetVersion(n, id), delta := tx.delta.(plugin := Some(Write(id, db.plugins[id]))));
        WritesUnaffected(s.db, s.seqs, s.seqs, tx.delta, tx'.delta);
        InvPluginWrite(s, t, tx', s.seqs);
      }
  }

  lemma InvCreateVersion(s: State, t: nat, n: int, id: int)
    requires Inv(s) && t in s.txs && s.txs[t].phase == CreateVersion(n, id)
    ensures Inv(ExecCreateVersion(s, t, n, id))
  {
    hide Consistent, Only, Apart, NsWriteOk, PluginWriteOk, PluginAt;
    var tx := s.txs[t];
    var row := Version(id, tx.p.key.version, tx.p.release);
    assert TxOk(s.db, s.seqs, tx);
    match InsertVersion(View(s.db, tx.delta), s.seqs, row)
    case Err(_) => InvAbort(s, t);
    case Ok(r) =>
      if !VersionBusy(s.txs - {t}, s.seqs.version + 1, id, tx.p.key.version) {
        var tx' := tx.(phase := Ready(n, id, r.id, true), delta := tx.delta.(version := Some(Write(r.id, row))));
        WritesUnaffected(s.db, s.seqs, r.seqs, tx.delta, tx'.delta);
        PlaceUnaffected(s.db, tx.delta, tx'.delta, tx.p, n, id);
        InvVersionWrite(s, t, tx', r.seqs);
      }
  }

  lemma PlaceUnaffected(db: Db, d: Delta, d': Delta, p: Publication, n: int, id: int)
    requires d'.ns == d.ns && d'.plugin == d.plugin
    ensures PluginAt(View(db, d), p, n, id) <==> PluginAt(View(db, d'), p, n, id)
    ensures PluginAt(View(db, d), p, n, id) ==> id in Put(db.plugins, d.plugin)
  {
  }

  lemma InvChangeVersion(s: State, t: nat, n: int, id: int, v: int)
    requires Inv(s) && t in s.txs && s.txs[t].phase == ChangeVersion(n, id, v)
    ensures Inv(ExecChangeVersion(s, t, n, id, v))
  {
    hide KeysUnique, RefsHold, Released, Only, Apart, NsWriteOk, PluginWriteOk, PluginAt;
    var tx := s.txs[t];
    assert TxOk(s.db, s.seqs, tx);
    match UpdateVersion(View(s.db, tx.delta), v, tx.p.release)
    case Err(_) => InvAbort(s, t);
    case Ok(db) =>
      if !VersionBusy(s.txs - {t}, v, id, tx.p.key.version) {
        var tx' := tx.(phase := Ready(n, id, v, false), delta := tx.delta.(version := Some(Write(v, db.versions[v]))));
        WritesUnaffected(s.db, s.seqs, s.seqs, tx.delta, tx'.delta);
        PlaceUnaffected(s.db, tx.delta, tx'.delta, tx.p, n, id);
        InvVersionWrite(s, t, tx', s.seqs);
      }
  }

  // ----- Commit: the one step at which a publish takes effect -----

  lemma CommitReleases(s: State, t: nat)
    requires Inv(s) && t in s.txs && s.txs[t].phase.Ready?
    ensures Released(View(s.db, s.txs[t].delta))
  {
    hide Sound, Bounded;
    var tx := s.txs[t];
    var v := View(s.db, tx.delta);
    assert TxOk(s.db, s.seqs, tx);
    ViewSound(s.db, s.seqs, tx.delta);
    forall q | q in v.plugins ensures HasVersion(v, q) {
      if q == tx.phase.plugin {
        assert v.versions[tx.phase.version].pluginId == q;
      } else {
        assert HasVersion(s.db, q);
        var x :| x in s.db.versions && s.db.versions[x].pluginId == q;
        assert x in v.versions && v.versions[x].pluginId == q;
      }
    }
  }

  lemma InvCommit(s: State, t: nat)
    requires Inv(s) && t in s.txs && s.txs[t].phase.Ready?
    ensures Inv(ExecCommit(s, t)) && Extends(s.db, ExecCommit(s, t).db)
  {
    hide Consistent, PhaseOk;
    assert TxOk(s.db, s.seqs, s.txs[t]);
    CommitReleases(s, t);
    InvMerge(s, s.txs[t].delta, ExecCommit(s, t).txs, ExecCommit(s, t).log);
  }

  // The commit of a publish is exactly one update of the release map, whatever was interleaved with
  // its statements. It creates the namespace only if there is still none of that name.
  lemma CommitIsOneUpdate(s: State, t: nat)
    requires Inv(s) && t in s.txs && s.txs[t].phase.Ready?
    ensures var s', tx := ExecCommit(s, t), s.txs[t]; var p := tx.p;
      && Releases(s'.db) == Releases(s.db)[p.key := p.release]
      && (tx.phase.created <==> p.key !in Releases(s.db))
      && Owners(s'.db) == (if p.key.ns in Owners(s.db) then Owners(s.db) else Owners(s.db)[p.key.ns := None])
      && Descriptions(s'.db) ==
         (if tx.delta.plugin.Some? then Descriptions(s.db)[p.Target() := p.description] else Descriptions(s.db))
      && p.Target() in Descriptions(s'.db)
      && VersionLinked(s'.db, tx.phase.version) && KeyOf(s'.db, tx.phase.version) == p.key
      && s'.db.versions[tx.phase.version].pluginId == tx.phase.plugin
  {
    hide KeysUnique, RefsHold, Named, Bounded, Fits, Extends, Owners, Descriptions, Releases;
    var tx := s.txs[t];
    var d := tx.delta;
    assert TxOk(s.db, s.seqs, tx);
    ViewSound(s.db, s.seqs, d);
    var v1 := s.db.(namespaces := Put(s.db.namespaces, d.ns));
    var v2 := v1.(plugins := Put(s.db.plugins, d.plugin));
    var v := View(s.db, d);
    if d.ns.Some? { NamespaceWritten(s.db, v1, d.ns.value.id); }
    else { NamespaceRow(s.db, tx.phase.ns); }
    PluginsKept(s.db, v1);
    VersionsKept(s.db, v1);
    if d.plugin.Some? { PluginWritten(v1, v2, d.plugin.value.id); }
    NamespacesKept(v1, v2);
    VersionsKept(v1, v2);
    VersionWritten(v2, v, tx.phase.version);
    NamespacesKept(v2, v);
    PluginsKept(v2, v);
    PluginRow(v, tx.phase.plugin);
  }

  // ----- The other steps -----

  lemma InvGap(s: State, seqs: Sequences)
    requires Inv(s) && AtLeast(seqs, s.seqs)
    ensures Inv(s.(seqs := seqs))
  {
    hide Consistent, PhaseOk, DeltaOk;
    forall u | u in s.txs ensures TxOk(s.db, seqs, s.txs[u]) { SeqsGrow(s.db, s.seqs, seqs, s.txs[u].delta); }
  }

  lemma TxIgnoresAccounts(db: Db, db': Db, seqs: Sequences, tx: Tx)
    requires TxOk(db, seqs, tx) && db' == db.(users := db'.users, tokens := db'.tokens)
    requires db.users.Keys <= db'.users.Keys
    ensures TxOk(db', seqs, tx)
  {
    hide Fits;
    assert View(db', tx.delta) == View(db, tx.delta).(users := db'.users, tokens := db'.tokens);
  }

  lemma InvAccounts(s: State, db: Db, seqs: Sequences)
    requires Inv(s) && AtLeast(seqs, s.seqs) && Sound(db) && Bounded(db, seqs)
    requires db == s.db.(users := db.users, tokens := db.tokens) && s.db.users.Keys <= db.users.Keys
    ensures Inv(s.(db := db, seqs := seqs)) && Extends(s.db, db)
  {
    hide Sound, Bounded, TxOk;
    InvGap(s, seqs);
    forall u | u in s.txs ensures TxOk(db, seqs, s.txs[u]) { TxIgnoresAccounts(s.db, db, seqs, s.txs[u]); }
    ReleasedKept(s.db, db);
  }

  lemma ReleasedKept(db: Db, db': Db)
    requires Released(db) && db'.plugins == db.plugins && db'.versions == db.versions
    ensures Released(db')
  {
    forall p | p in db'.plugins ensures HasVersion(db', p) { assert HasVersion(db, p); }
  }

  lemma ClaimDelta(db: Db, seqs: Sequences, name: string, userId: int)
    requires Bounded(db, seqs)
    ensures var r := InsertNamespace(db, seqs, name, "user", userId); r.Ok? ==>
      var d := Delta(Some(Write(r.value.id, r.value.db.namespaces[r.value.id])), None, None);
      && r.value.id in r.value.db.namespaces && d.ns.value.row.name == name && r.value.id == seqs.namespace + 1
      && AtLeast(r.value.seqs, seqs) && DeltaOk(db, r.value.seqs, d) && View(db, d) == r.value.db
  {
    hide Only;
  }

  lemma InvClaimed(s: State, name: string, userId: int)
    requires Inv(s) && InsertNamespace(s.db, s.seqs, name, "user", userId).Ok? && !NsBusy(s.txs, name)
    ensures var r := InsertNamespace(s.db, s.seqs, name, "user", userId).value;
      Inv(s.(db := r.db, seqs := r.seqs)) && Extends(s.db, r.db)
  {
    hide Sound, Bounded, Released, TxOk, DeltaOk, InsertNamespace, Extends, View;
    var r := InsertNamespace(s.db, s.seqs, name, "user", userId).value;
    ClaimDelta(s.db, s.seqs, name, userId);
    OthersBelow(s, 0);
    InvGap(s, r.seqs);
    var d := Delta(Some(Write(r.id, r.db.namespaces[r.id])), None, None);
    forall u | u in s.txs ensures Apart(d, s.txs[u].delta) {
    }
    ClaimKeeps(s.db, s.seqs, name, userId);
    ReleasedKept(s.db, r.db);
    InvMerge(s.(seqs := r.seqs), d, s.txs, s.log);
  }

  lemma ClaimKeeps(db: Db, seqs: Sequences, name: string, userId: int)
    ensures var r := InsertNamespace(db, seqs, name, "user", userId); r.Ok? ==>
      r.value.db.plugins == db.plugins && r.value.db.versions == db.versions
  {
    hide NamespaceByName;
  }

  lemma InvClaim(s: State, userId: int)
    requires Inv(s)
    ensures Inv(Next(s, ClaimNamespace(userId))) && Extends(s.db, Next(s, ClaimNamespace(userId)).db)
  {
    hide Inv, InsertNamespace;
    if userId in s.db.users {
      var name := Text.LocalPart(s.db.users[userId].email);
      if InsertNamespace(s.db, s.seqs, name, "user", userId).Ok? && !NsBusy(s.txs, name) {
        InvClaimed(s, name, userId);
      }
    }
  }

  // A read moves its transaction on and writes nothing.
  lemma InvTurn(s: State, t: nat, tx: Tx)
    requires Inv(s) && t in s.txs && tx.delta == s.txs[t].delta && PhaseOk(s.db, tx)
    ensures Inv(Move(s, t, tx))
  {
    hide Consistent, Bounded, PhaseOk, DeltaOk;
    assert TxOk(s.db, s.seqs, s.txs[t]);
    InvMove(s, t, tx, s.seqs);
  }

  lemma InvGetNs(s: State, t: nat)
    requires Inv(s) && t in s.txs && s.txs[t].phase.GetNs?
    ensures Inv(ExecNext(s, t)) && ExecNext(s, t).db == s.db
  {
    hide Consistent, Bounded, DeltaOk, Only, Apart;
    var tx := s.txs[t];
    assert TxOk(s.db, s.seqs, tx);
    InvAbort(s, t);
    match NamespaceByName(View(s.db, tx.delta), tx.p.key.ns)
    case Ok(n) => InvTurn(s, t, tx.(phase := GetPlugin(n)));
    case Err(_) => InvTurn(s, t, tx.(phase := CreateNs));
  }

  lemma InvGetPlugin(s: State, t: nat, n: int)
    requires Inv(s) && t in s.txs && s.txs[t].phase == GetPlugin(n)
    ensures Inv(ExecNext(s, t)) && ExecNext(s, t).db == s.db
  {
    hide Consistent, Bounded, DeltaOk, Only, Apart;
    var tx := s.txs[t];
    assert TxOk(s.db, s.seqs, tx);
    InvAbort(s, t);
    match PluginByKey(View(s.db, tx.delta), n, tx.p.key.plugin)
    case Ok(id) =>
      InvTurn(s, t, tx.(phase := ChangePlugin(n, id), seen := |s.log|));
      InvTurn(s, t, tx.(phase := GetVersion(n, id), seen := |s.log|));
    case Err(_) => InvTurn(s, t, tx.(phase := CreatePlugin(n)));
  }

  lemma InvGetVersion(s: State, t: nat, n: int, id: int)
    requires Inv(s) && t in s.txs && s.txs[t].phase == GetVersion(n, id)
    ensures Inv(ExecNext(s, t)) && ExecNext(s, t).db == s.db
  {
    hide Consistent, Bounded, DeltaOk, Only, Apart;
    var tx := s.txs[t];
    assert TxOk(s.db, s.seqs, tx);
    InvAbort(s, t);
    match VersionByKey(View(s.db, tx.delta), id, tx.p.key.version)
    case Ok(v) => InvTurn(s, t, tx.(phase := ChangeVersion(n, id, v)));
    case Err(_) => InvTurn(s, t, tx.(phase := CreateVersion(n, id)));
  }

  lemma InvExec(s: State, t: nat)
    requires Inv(s) && t in s.txs
    ensures Inv(ExecNext(s, t)) && Extends(s.db, ExecNext(s, t).db) && ExecNext(s, t).db.users == s.db.users
  {
    hide Inv, Only;
    match s.txs[t].phase
    case GetNs => InvGetNs(s, t);
    case CreateNs => InvCreateNs(s, t);
    case GetPlugin(n) => InvGetPlugin(s, t, n);
    case CreatePlugin(n) => InvCreatePlugin(s, t, n);
    case ChangePlugin(n, id) => InvChangePlugin(s, t, n, id);
    case GetVersion(n, id) => InvGetVersion(s, t, n, id);
    case CreateVersion(n, id) => InvCreateVersion(s, t, n, id);
    case ChangeVersion(n, id, v) => InvChangeVersion(s, t, n, id, v);
    case Ready(_, _, _, _) => InvCommit(s, t);
    case Committed =>
    case Aborted =>
  }

  lemma InvToken(s: State, e: Event)
    requires Inv(s) && (e.CreateToken? || e.RemoveToken? || e.PurgeTokens?)
    ensures Inv(Next(s, e)) && Extends(s.db, Next(s, e).db) && Next(s, e).db.users == s.db.users
  {
    hide TxOk, KeysUnique, RefsHold, Named, Released, Bounded;
    match e
    case CreateToken(token) =>
      TokenInserted(s.db, s.seqs, token);
      var r := InsertToken(s.db, s.seqs, token);
      if r.Ok? { InvAccounts(s, r.value.db, r.value.seqs); }
    case RemoveToken(id) =>
      if id in s.db.tokens { InvFewerTokens(s, s.db.tokens - {id}); }
    case PurgeTokens(now) =>
      InvFewerTokens(s, DeleteExpired(s.db, now).tokens);
  }

  lemma InvFewerTokens(s: State, tokens: map<int, Token>)
    requires Inv(s) && forall i | i in tokens :: i in s.db.tokens && tokens[i] == s.db.tokens[i]
    ensures Inv(s.(db := s.db.(tokens := tokens))) && Extends(s.db, s.db.(tokens := tokens))
  {
    hide TxOk, KeysUnique, RefsHold, Named, Released;
    TokensRemoved(s.db, tokens);
    InvAccounts(s, s.db.(tokens := tokens), s.seqs);
  }

  lemma InvUser(s: State, user: User)
    requires Inv(s)
    ensures var s' := Next(s, CreateUser(user));
      && Inv(s') && Extends(s.db, s'.db)
      && forall u | u in s.db.users :: u in s'.db.users && s'.db.users[u] == s.db.users[u]
  {
    hide TxOk, KeysUnique, RefsHold, Named, Released;
    UserInserted(s.db, s.seqs, user);
    var r := InsertUser(s.db, s.seqs, user);
    if r.Ok? { InvAccounts(s, r.value.db, r.value.seqs); }
  }

  lemma InvBegin(s: State, t: nat, p: Publication, caller: Option<int>)
    requires Inv(s) && t !in s.txs
    ensures Inv(Move(s, t, Begun(p, caller)))
  {
    hide TxOk, Consistent, Bounded;
    Idle(s.db, s.seqs, Begun(p, caller));
    InvMove(s, t, Begun(p, caller), s.seqs);
  }

  // Every step keeps the invariant, and no registry row disappears, changes its key or changes its owner.
  lemma InvNext(s: State, e: Event)
    requires Inv(s)
    ensures Inv(Next(s, e)) && Extends(s.db, Next(s, e).db)
    ensures forall u | u in s.db.users :: u in Next(s, e).db.users && Next(s, e).db.users[u] == s.db.users[u]
  {
    hide Inv, ExecNext, MayPublish, Only;
    match e
    case Begin(t, p, caller) => if t !in s.txs { InvBegin(s, t, p, caller); }
    case Exec(t) => if t in s.txs { InvExec(s, t); }
    case Fail(t) => if t in s.txs { InvAbort(s, t); }
    case CreateUser(user) => InvUser(s, user);
    case ClaimNamespace(userId) => InvClaim(s, userId);
    case CreateToken(_) => InvToken(s, e);
    case RemoveToken(_) => InvToken(s, e);
    case PurgeTokens(_) => InvToken(s, e);
    case Gap(seqs) => if AtLeast(seqs, s.seqs) { InvGap(s, seqs); }
  }
}
