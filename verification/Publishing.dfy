// internal/service/service.go: the publish transaction and the lookup that reads its result.
module Publishing {
  import opened Wrappers
  import opened Tables
  import opened Registry
  import opened Store
  import Refs
  import Text

  // The calls one publish makes on the store; each happens at most once.
  datatype Call =
    | Begin | NsGet | NsCreate | PluginGet | PluginCreate | PluginUpdate
    | VersionGet | VersionCreate | VersionUpdate | Commit

  datatype Request = Request(ns: string, name: string, version: string, digest: string)

  // The calls that publishing p makes on db when none of them fails.
  ghost function NamespaceCalls(db: Db, p: Publication): set<Call> {
    if p.key.ns in Owners(db) then {NsGet} else {NsGet, NsCreate}
  }

  ghost function PluginCalls(db: Db, p: Publication): set<Call> {
    if p.Target() !in Descriptions(db) then {PluginGet, PluginCreate}
    else if Descriptions(db)[p.Target()] != p.description then {PluginGet, PluginUpdate}
    else {PluginGet}
  }

  ghost function VersionCalls(db: Db, p: Publication): set<Call> {
    if p.key in Releases(db) then {VersionGet, VersionUpdate} else {VersionGet, VersionCreate}
  }

  ghost function Path(db: Db, p: Publication): set<Call> {
    {Begin} + NamespaceCalls(db, p) + PluginCalls(db, p) + VersionCalls(db, p) + {Commit}
  }

  // Which calls are made: the five that always are, and one write for each row that is missing or differs.
  lemma PathCalls(db: Db, p: Publication)
    ensures {Begin, NsGet, PluginGet, VersionGet, Commit} <= Path(db, p)
    ensures NsCreate in Path(db, p) <==> p.key.ns !in Owners(db)
    ensures PluginCreate in Path(db, p) <==> p.Target() !in Descriptions(db)
    ensures PluginUpdate in Path(db, p) <==>
      p.Target() in Descriptions(db) && Descriptions(db)[p.Target()] != p.description
    ensures VersionCreate in Path(db, p) <==> p.key !in Releases(db)
    ensures VersionUpdate in Path(db, p) <==> p.key in Releases(db)
  {
    hide Owners, Descriptions, Releases;
  }

  lemma PathParts(db: Db, p: Publication, faults: set<Call>)
    ensures Path(db, p) !! faults <==>
      && Begin !in faults && Commit !in faults
      && NamespaceCalls(db, p) !! faults && PluginCalls(db, p) !! faults && VersionCalls(db, p) !! faults
  {
    hide NamespaceCalls, PluginCalls, VersionCalls;
  }

  // db' is db after one publish of p that answered result.
  ghost predicate Published(db: Db, db': Db, p: Publication, result: PublishResult) {
    && Consistent(db) && Consistent(db') && Extends(db, db')
    && Releases(db') == Releases(db)[p.key := p.release]
    && Descriptions(db') == Descriptions(db)[p.Target() := p.description]
    && Owners(db') == (if p.key.ns in Owners(db) then Owners(db) else Owners(db)[p.key.ns := None])
    && db'.users == db.users && db'.tokens == db.tokens
    && VersionLinked(db', result.versionId) && KeyOf(db', result.versionId) == p.key
    && db'.versions[result.versionId].pluginId == result.pluginId
    && (result.created <==> p.key !in Releases(db))
  }

  // ----- The three stages of the transaction, from the committed db to its view v -----

  ghost predicate NamespaceDone(db: Db, v: Db, p: Publication, n: int) {
    && Sound(db) && Sound(v) && Extends(db, v) && v == db.(namespaces := v.namespaces)
    && NamespaceByName(v, p.key.ns) == Ok(n)
    && Owners(v) == (if p.key.ns in Owners(db) then Owners(db) else Owners(db)[p.key.ns := None])
    && Descriptions(v) == Descriptions(db) && Releases(v) == Releases(db)
  }

  ghost predicate PluginDone(db: Db, v: Db, p: Publication, n: int, id: int) {
    && Sound(db) && Sound(v) && Extends(db, v) && v == db.(namespaces := v.namespaces, plugins := v.plugins)
    && NamespaceByName(v, p.key.ns) == Ok(n) && PluginByKey(v, n, p.key.plugin) == Ok(id)
    && (forall q | q in v.plugins :: q in db.plugins || q == id)
    && Owners(v) == (if p.key.ns in Owners(db) then Owners(db) else Owners(db)[p.key.ns := None])
    && Descriptions(v) == Descriptions(db)[p.Target() := p.description] && Releases(v) == Releases(db)
  }

  lemma NamespaceFound(db: Db, p: Publication, n: int)
    requires Sound(db) && NamespaceByName(db, p.key.ns) == Ok(n)
    ensures p.key.ns in Owners(db) && NamespaceDone(db, db, p, n)
  {
    NamespaceRead(db, p.key.ns);
  }

  lemma NamespaceMade(db: Db, seqs: Sequences, p: Publication)
    requires Sound(db) && Bounded(db, seqs) && NamespaceByName(db, p.key.ns) == Err(NotFound)
    ensures p.key.ns !in Owners(db)
    ensures var r := InsertNamespace(db, seqs, p.key.ns, "user", 0);
      && (r.Ok? <==> p.key.ns != "")
      && (r.Ok? ==>
            && NamespaceDone(db, r.value.db, p, r.value.id)
            && Bounded(r.value.db, r.value.seqs) && Bounded(db, r.value.seqs) && AtLeast(r.value.seqs, seqs))
  {
    hide KeysUnique, RefsHold, Named, Owners, Descriptions, Releases;
    NamespaceRead(db, p.key.ns);
    NamespaceInserted(db, seqs, p.key.ns, "user", 0);
    var r := InsertNamespace(db, seqs, p.key.ns, "user", 0);
    if r.Ok? {
      NamespaceWritten(db, r.value.db, r.value.id);
      PluginsKept(db, r.value.db);
      VersionsKept(db, r.value.db);
    }
  }

  lemma PluginFound(db: Db, v: Db, p: Publication, n: int, id: int)
    requires NamespaceDone(db, v, p, n) && PluginByKey(v, n, p.key.plugin) == Ok(id)
    ensures p.Target() in Descriptions(db) && Descriptions(db)[p.Target()] == v.plugins[id].description
    ensures v.plugins[id].description == p.description ==> PluginDone(db, v, p, n, id)
  {
    hide KeysUnique, RefsHold, Named, Owners, Descriptions, Releases, Extends;
    PluginRead(v, p.Target(), n);
  }

  lemma PluginChanged(db: Db, v: Db, seqs: Sequences, p: Publication, n: int, id: int)
    requires NamespaceDone(db, v, p, n) && Bounded(v, seqs) && PluginByKey(v, n, p.key.plugin) == Ok(id)
    ensures var r := UpdatePlugin(v, id, "", p.description, "");
      r.Ok? && Bounded(r.value, seqs) && PluginDone(db, r.value, p, n, id)
  {
    hide KeysUnique, RefsHold, Named, Owners, Descriptions, Releases;
    PluginRead(v, p.Target(), n);
    PluginUpdated(v, id, "", p.description, "");
    var v' := UpdatePlugin(v, id, "", p.description, "").value;
    PluginWritten(v, v', id);
    VersionsKept(v, v');
    NamespacesKept(v, v');
    NamesPersist(v, v');
    ExtendsTransitive(db, v, v');
  }

  lemma PluginMade(db: Db, v: Db, seqs: Sequences, p: Publication, n: int)
    requires NamespaceDone(db, v, p, n) && Bounded(v, seqs)
    requires PluginByKey(v, n, p.key.plugin) == Err(NotFound)
    ensures p.Target() !in Descriptions(db)
    ensures var r := InsertPlugin(v, seqs, Plugin(n, p.key.plugin, "", p.description, ""));
      && (r.Ok? <==> p.key.plugin != "")
      && (r.Ok? ==>
            && PluginDone(db, r.value.db, p, n, r.value.id)
            && Bounded(r.value.db, r.value.seqs) && Bounded(db, r.value.seqs) && AtLeast(r.value.seqs, seqs))
  {
    hide KeysUnique, RefsHold, Named, Owners, Descriptions, Releases, Extends, Only;
    PluginRead(v, p.Target(), n);
    var row := Plugin(n, p.key.plugin, "", p.description, "");
    PluginInserted(v, seqs, row);
    var r := InsertPlugin(v, seqs, row);
    if r.Ok? {
      var v' := r.value.db;
      PluginWritten(v, v', r.value.id);
      VersionsKept(v, v');
      NamespacesKept(v, v');
      ExtendsTransitive(db, v, v');
    }
  }

  // The two inner queries either find their row or report that there is none.
  lemma QueriesTotal(db: Db, v: Db, p: Publication, n: int)
    requires NamespaceDone(db, v, p, n) || exists id :: PluginDone(db, v, p, n, id)
    ensures forall name :: PluginByKey(v, n, name).Err? ==> PluginByKey(v, n, name).error == NotFound
    ensures forall id, version :: VersionByKey(v, id, version).Err? ==> VersionByKey(v, id, version).error == NotFound
  {
    hide RefsHold, Named, Extends, Owners, Descriptions, Releases;
    forall name ensures PluginByKey(v, n, name) != Err(NotSingular) { OnlyTotal(PluginKeys(v.plugins), (n, name)); }
    forall id, version ensures VersionByKey(v, id, version) != Err(NotSingular) {
      OnlyTotal(VersionKeys(v.versions), (id, version));
    }
  }

  // A version written for the ensured plugin completes the publish.
  lemma VersionDone(db: Db, v: Db, w: Db, p: Publication, n: int, id: int, vid: int)
    requires Consistent(db) && PluginDone(db, v, p, n, id)
    requires Sound(w) && Extends(v, w) && w == v.(versions := w.versions)
    requires vid in w.versions && w.versions == v.versions[vid := w.versions[vid]]
    requires w.versions[vid] == Version(id, p.key.version, p.release)
    ensures Published(db, w, p, PublishResult(id, vid, vid !in db.versions))
  {
    PluginRead(v, p.Target(), n);
    NamesPersist(v, w);
    VersionWritten(v, w, vid);
    PluginsKept(v, w);
    ExtendsTransitive(db, v, w);
    assert Released(w) by {
      forall q | q in w.plugins ensures HasVersion(w, q) {
        if q == id {
          assert w.versions[vid].pluginId == q;
        } else {
          assert HasVersion(db, q);
          var x :| x in db.versions && db.versions[x].pluginId == q;
          assert x in w.versions && w.versions[x].pluginId == q;
        }
      }
    }
  }

  lemma VersionChanged(db: Db, v: Db, seqs: Sequences, p: Publication, n: int, id: int, vid: int)
    requires Consistent(db) && PluginDone(db, v, p, n, id) && Bounded(v, seqs)
    requires VersionByKey(v, id, p.key.version) == Ok(vid)
    ensures p.key in Releases(db) && Releases(db)[p.key] == v.versions[vid].release
    ensures var r := UpdateVersion(v, vid, p.release);
      && (r.Ok? <==> p.release.digest != "")
      && (r.Ok? ==> Bounded(r.value, seqs) && Published(db, r.value, p, PublishResult(id, vid, false)))
  {
    hide KeysUnique, RefsHold, Named, Owners, Descriptions, Releases, Extends;
    VersionRead(v, p.key, n, id);
    VersionUpdated(v, vid, p.release);
    var r := UpdateVersion(v, vid, p.release);
    if r.Ok? { VersionDone(db, v, r.value, p, n, id, vid); }
  }

  lemma VersionMade(db: Db, v: Db, seqs: Sequences, p: Publication, n: int, id: int)
    requires Consistent(db) && PluginDone(db, v, p, n, id) && Bounded(db, seqs) && Bounded(v, seqs)
    requires VersionByKey(v, id, p.key.version) == Err(NotFound)
    ensures p.key !in Releases(db)
    ensures var r := InsertVersion(v, seqs, Version(id, p.key.version, p.release));
      && (r.Ok? <==> p.key.version != "" && p.release.digest != "")
      && (r.Ok? ==>
            && Published(db, r.value.db, p, PublishResult(id, r.value.id, true))
            && Bounded(r.value.db, r.value.seqs) && Bounded(db, r.value.seqs) && AtLeast(r.value.seqs, seqs))
  {
    hide KeysUnique, RefsHold, Named, Owners, Descriptions, Releases, Extends;
    VersionRead(v, p.key, n, id);
    var row := Version(id, p.key.version, p.release);
    VersionInserted(v, seqs, row);
    var r := InsertVersion(v, seqs, row);
    if r.Ok? { VersionDone(db, v, r.value.db, p, n, id, r.value.id); }
  }

  // Published, together with the ids taken from the sequences.
  ghost predicate Publishes(db: Db, seqs: Sequences, db': Db, seqs': Sequences, p: Publication, result: PublishResult) {
    && Published(db, db', p, result)
    && (if p.Target() in Descriptions(db) then seqs'.plugin == seqs.plugin
        else result.pluginId == seqs'.plugin == seqs.plugin + 1)
    && (if p.key in Releases(db) then seqs'.version == seqs.version
        else result.versionId == seqs'.version == seqs.version + 1)
  }

  // Two updates of a map under different keys commute, and so do two entries added where there is none.
  lemma UpdatesCommute<K, V>(m: map<K, V>, j: K, v: V, k: K, w: V)
    requires j != k
    ensures m[j := v][k := w] == m[k := w][j := v]
  {
  }

  function Opened<K, V>(m: map<K, V>, k: K, v: V): map<K, V> { if k in m then m else m[k := v] }

  lemma OpeningsCommute<K, V>(m: map<K, V>, j: K, k: K, v: V)
    ensures Opened(Opened(m, j, v), k, v) == Opened(Opened(m, k, v), j, v)
  {
  }

  lemma ReleasesCommute(db: Db, a: Publication, b: Publication, dbA: Db, dbAB: Db, resA: PublishResult,
                        resB: PublishResult,
                        dbB: Db, dbBA: Db, resB': PublishResult, resA': PublishResult)
    requires a.key != b.key
    requires Published(db, dbA, a, resA) && Published(dbA, dbAB, b, resB)
    requires Published(db, dbB, b, resB') && Published(dbB, dbBA, a, resA')
    ensures Releases(dbAB) == Releases(dbBA) && resA.created == resA'.created && resB.created == resB'.created
  {
    hide Consistent, Extends, Releases, Descriptions, Owners, KeyOf, VersionLinked;
    UpdatesCommute(Releases(db), a.key, a.release, b.key, b.release);
  }

  lemma DescriptionsCommute(db: Db, a: Publication, b: Publication, dbA: Db, dbAB: Db, resA: PublishResult,
                            resB: PublishResult,
                            dbB: Db, dbBA: Db, resB': PublishResult, resA': PublishResult)
    requires a.Target() != b.Target()
    requires Published(db, dbA, a, resA) && Published(dbA, dbAB, b, resB)
    requires Published(db, dbB, b, resB') && Published(dbB, dbBA, a, resA')
    ensures Descriptions(dbAB) == Descriptions(dbBA)
  {
    hide Consistent, Extends, Releases, Descriptions, Owners, KeyOf, VersionLinked;
    UpdatesCommute(Descriptions(db), a.Target(), a.description, b.Target(), b.description);
  }

  lemma OwnersCommute(db: Db, a: Publication, b: Publication, dbA: Db, dbAB: Db, resA: PublishResult,
                      resB: PublishResult,
                      dbB: Db, dbBA: Db, resB': PublishResult, resA': PublishResult)
    requires Published(db, dbA, a, resA) && Published(dbA, dbAB, b, resB)
    requires Published(db, dbB, b, resB') && Published(dbB, dbBA, a, resA')
    ensures Owners(dbAB) == Owners(dbBA)
  {
    hide Consistent, Extends, Releases, Descriptions, Owners, KeyOf, VersionLinked;
    OpeningsCommute(Owners(db), a.key.ns, b.key.ns, None);
  }

  // A publish creates no other plugin and no other version.
  lemma PublishedTarget(db: Db, db': Db, p: Publication, result: PublishResult, q: Publication)
    requires Published(db, db', p, result) && p.Target() != q.Target()
    ensures q.Target() in Descriptions(db') <==> q.Target() in Descriptions(db)
    ensures q.key in Releases(db') <==> q.key in Releases(db)
    ensures result.created <==> p.key !in Releases(db)
  {
    hide Consistent, Extends, Releases, Descriptions, Owners, KeyOf, VersionLinked;
  }

  // Publishes to different plugins commute: whichever comes first, the same releases, descriptions
  // and owners result. Only the ids tell the orders apart.
  lemma PublishesCommute(db: Db, seqs: Sequences, a: Publication, b: Publication,
                         dbA: Db, seqsA: Sequences, dbAB: Db, seqsAB: Sequences,
                         resA: PublishResult, resB: PublishResult,
                         dbB: Db, seqsB: Sequences, dbBA: Db, seqsBA: Sequences,
                         resB': PublishResult, resA': PublishResult)
    requires a.Target() != b.Target()
    requires Publishes(db, seqs, dbA, seqsA, a, resA) && Publishes(dbA, seqsA, dbAB, seqsAB, b, resB)
    requires Publishes(db, seqs, dbB, seqsB, b, resB') && Publishes(dbB, seqsB, dbBA, seqsBA, a, resA')
    ensures Releases(dbAB) == Releases(dbBA) && Descriptions(dbAB) == Descriptions(dbBA) && Owners(dbAB) == Owners(dbBA)
    ensures resA.created == resA'.created && resB.created == resB'.created
    ensures a.Target() !in Descriptions(db) && b.Target() !in Descriptions(db) ==>
      resA.pluginId != resA'.pluginId && resB.pluginId != resB'.pluginId
    ensures resA.created && resB.created ==> resA.versionId != resA'.versionId && resB.versionId != resB'.versionId
  {
    hide Releases, Descriptions, Owners, Published;
    ReleasesCommute(db, a, b, dbA, dbAB, resA, resB, dbB, dbBA, resB', resA');
    DescriptionsCommute(db, a, b, dbA, dbAB, resA, resB, dbB, dbBA, resB', resA');
    OwnersCommute(db, a, b, dbA, dbAB, resA, resB, dbB, dbBA, resB', resA');
    PublishedTarget(db, dbA, a, resA, b);
    PublishedTarget(db, dbB, b, resB', a);
  }

  function ToPublication(registryURL: string, req: Request, manifest: map<string, string>,
                         readme: string): Publication {
    var imageRef := Text.StripScheme(registryURL) + "/" + req.ns + "/" + req.name + ":" + req.version;
    Publication(Key(req.ns, req.name, req.version),
                if "description" in manifest then manifest["description"] else "",
                Release(imageRef, req.digest, readme, manifest))
  }

  // What the release of a publication holds, column by column.
  lemma PublicationFields(registryURL: string, req: Request, manifest: map<string, string>, readme: string,
                          host: string)
    ensures var p := ToPublication(registryURL, req, manifest, readme);
      && p.key == Key(req.ns, req.name, req.version)
      && p.release.digest == req.digest && p.release.readme == readme && p.release.manifest == manifest
      && ("description" in manifest ==> p.description == manifest["description"])
      && ("description" !in manifest ==> p.description == "")
    ensures registryURL == "http://" + host || (registryURL == "https://" + host && !("http://" <= host)) ==>
      ToPublication(registryURL, req, manifest, readme).release.imageRef ==
      host + "/" + Refs.Print(Refs.Ref(req.ns, req.name, req.version))
  {
    hide Text.StripScheme;
    Text.SchemeStripped(host);
    var path := req.ns + "/" + req.name + ":" + req.version;
    assert host + "/" + req.ns + "/" + req.name + ":" + req.version == host + "/" + path;
  }

  class PluginService {
    const store: Adapter
    const registryURL: string

    constructor (store: Adapter, registryURL: string)
      ensures this.store == store && this.registryURL == registryURL
    {
      this.store := store;
      this.registryURL := registryURL;
    }

    // upsertRecords, first block: get or create the namespace.
    method EnsureNamespace(tx: TxAdapter, ghost p: Publication, ns: string, faults: set<Call>) returns (r: Result<int>)
      requires tx.adapter == store && store.Valid() && tx.view == store.db && ns == p.key.ns
      modifies tx`view, store`seqs
      ensures r.Ok? <==> ns != "" && NamespaceCalls(store.db, p) !! faults
      ensures r.Ok? ==> NamespaceDone(store.db, tx.view, p, r.value) && Bounded(tx.view, store.seqs)
      ensures Bounded(store.db, store.seqs) && AtLeast(store.seqs, old(store.seqs))
      ensures store.seqs == old(store.seqs).(namespace := store.seqs.namespace)
      ensures r.Ok? && ns in Owners(store.db) ==> tx.view == store.db && store.seqs == old(store.seqs)
      ensures r.Ok? ==> Columns(store.db, tx.view)
    {
      hide Sound, Extends, Owners, Descriptions, Releases, NamespaceByName, NamespaceDone;
      ghost var db := store.db;
      NamesNotEmpty(db, p.key);
      NamespaceRead(db, ns);
      r := tx.NamespaceGetByName(ns, NsGet in faults);
      if r == Err(NotFound) {
        NamespaceMade(db, store.seqs, p);
        r := tx.NamespaceCreate(ns, "user", 0, NsCreate in faults);
      } else if r.Ok? {
        NamespaceFound(db, p, r.value);
      }
    }

    // Second block: get or create the plugin, and bring its description up to date.
    method EnsurePlugin(tx: TxAdapter, ghost p: Publication, nsId: int, name: string, description: string,
                        faults: set<Call>)
      returns (r: Result<int>)
      requires tx.adapter == store && store.Valid() && name == p.key.plugin && description == p.description
      requires NamespaceDone(store.db, tx.view, p, nsId) && Bounded(tx.view, store.seqs)
      requires Columns(store.db, tx.view)
      modifies tx`view, store`seqs
      ensures r.Ok? <==> name != "" && PluginCalls(store.db, p) !! faults
      ensures r.Ok? ==> PluginDone(store.db, tx.view, p, nsId, r.value) && Bounded(tx.view, store.seqs)
      ensures Bounded(store.db, store.seqs) && AtLeast(store.seqs, old(store.seqs))
      ensures store.seqs == old(store.seqs).(plugin := store.seqs.plugin)
      ensures r.Ok? && p.Target() !in Descriptions(store.db) ==>
        r.value == store.seqs.plugin == old(store.seqs).plugin + 1
      ensures r.Ok? && p.Target() in Descriptions(store.db) ==> store.seqs == old(store.seqs)
      ensures r.Ok? && p.Target() in Descriptions(store.db) && Descriptions(store.db)[p.Target()] == description ==>
        tx.view == old(tx.view)
      ensures r.Ok? ==> Columns(store.db, tx.view)
    {
      hide Sound, Extends, Owners, Descriptions, Releases, PluginByKey, NamespaceDone, PluginDone;
      ghost var db, v := store.db, tx.view;
      NamesNotEmpty(db, p.key);
      QueriesTotal(db, v, p, nsId);
      r := tx.PluginGetByNamespaceAndName(nsId, name, PluginGet in faults);
      var stored := description;
      if r == Err(NotFound) {
        PluginMade(db, v, store.seqs, p, nsId);
        r := tx.PluginCreate(nsId, name, "", description, "", PluginCreate in faults);
      } else if r.Ok? {
        PluginFound(db, v, p, nsId, r.value);
        stored := tx.view.plugins[r.value].description;
      }
      if r.Err? { return; }
      if stored != description {
        PluginChanged(db, v, store.seqs, p, nsId, r.value);
        var updated := tx.PluginUpdate(r.value, "", description, "", PluginUpdate in faults);
        if updated.Err? { return Err(updated.error); }
      }
    }

    // Third block: create the version row, or overwrite the one that is there.
    method PutVersion(tx: TxAdapter, ghost p: Publication, ghost nsId: int, pluginId: int, version: string,
                      release: Release, faults: set<Call>)
      returns (r: Result<(int, bool)>)
      requires tx.adapter == store && store.Valid() && version == p.key.version && release == p.release
      requires PluginDone(store.db, tx.view, p, nsId, pluginId) && Bounded(tx.view, store.seqs)
      requires Columns(store.db, tx.view)
      modifies tx`view, store`seqs
      ensures r.Ok? <==> version != "" && release.digest != "" && VersionCalls(store.db, p) !! faults
      ensures r.Ok? ==>
        Published(store.db, tx.view, p, PublishResult(pluginId, r.value.0, r.value.1)) && Bounded(tx.view, store.seqs)
      ensures Bounded(store.db, store.seqs) && AtLeast(store.seqs, old(store.seqs))
      ensures store.seqs == old(store.seqs).(version := store.seqs.version)
      ensures r.Ok? && p.key !in Releases(store.db) ==> r.value.0 == store.seqs.version == old(store.seqs).version + 1
      ensures r.Ok? && p.key in Releases(store.db) ==> store.seqs == old(store.seqs)
      ensures r.Ok? && p.key in Releases(store.db) && Releases(store.db)[p.key] == release ==> tx.view == old(tx.view)
      ensures r.Ok? ==> Columns(store.db, tx.view)
    {
      hide Sound, Released, Extends, Owners, Descriptions, Releases, VersionByKey;
      hide PluginDone, Published, Bounded, KeyOf, VersionLinked;
      ghost var db, v := store.db, tx.view;
      NamesNotEmpty(db, p.key);
      QueriesTotal(db, v, p, nsId);
      var created := false;
      var pv := tx.PluginVersionGetByPluginAndVersion(pluginId, version, VersionGet in faults);
      if pv == Err(NotFound) {
        VersionMade(db, v, store.seqs, p, nsId, pluginId);
        pv := tx.PluginVersionCreate(pluginId, version, release, VersionCreate in faults);
        created := true;
      } else if pv.Ok? {
        VersionChanged(db, v, store.seqs, p, nsId, pluginId, pv.value);
      }
      if pv.Err? { return Err(pv.error); }
      if !created {
        var updated := tx.PluginVersionUpdate(pv.value, release, VersionUpdate in faults);
        if updated.Err? { return Err(updated.error); }
      }
      return Ok((pv.value, created));
    }

    method UpsertRecords(req: Request, manifest: map<string, string>, readme: string, faults: set<Call>)
      returns (r: Result<PublishResult>)
      requires store.Valid()
      modifies store
      ensures store.Valid() && AtLeast(store.seqs, old(store.seqs))
      ensures var p := ToPublication(registryURL, req, manifest, readme);
        r.Ok? <==> p.Admissible() && Path(old(store.db), p) !! faults
      ensures r.Err? ==> store.db == old(store.db)
      ensures r.Ok? ==>
        var p := ToPublication(registryURL, req, manifest, readme);
        Publishes(old(store.db), old(store.seqs), store.db, store.seqs, p, r.value)
      // What is stored under the request's key.
      ensures r.Ok? ==>
        var key := Key(req.ns, req.name, req.version);
        && key in Releases(store.db)
        && Releases(store.db)[key].digest == req.digest && Releases(store.db)[key].readme == readme
        && Releases(store.db)[key].manifest == manifest
      ensures forall host | r.Ok?
          && (registryURL == "http://" + host || (registryURL == "https://" + host && !("http://" <= host))) ::
        Releases(store.db)[Key(req.ns, req.name, req.version)].imageRef ==
        host + "/" + Refs.Print(Refs.Ref(req.ns, req.name, req.version))
      ensures r.Ok? ==>
        var target := PluginKey(req.ns, req.name);
        && target in Descriptions(store.db)
        && Descriptions(store.db)[target] == if "description" in manifest then manifest["description"] else ""
      ensures r.Ok? ==> Columns(old(store.db), store.db)
      // Repeating a publish at once changes no table.
      ensures var p := ToPublication(registryURL, req, manifest, readme);
        && r.Ok? && p.key in Releases(old(store.db)) && Releases(old(store.db))[p.key] == p.release
        && p.Target() in Descriptions(old(store.db)) && Descriptions(old(store.db))[p.Target()] == p.description
        ==> store.db == old(store.db) && store.seqs == old(store.seqs)
    {
      hide Sound, Released, Extends, Owners, Descriptions, Releases;
      hide NamespaceDone, PluginDone, NamespaceCalls, PluginCalls, VersionCalls;
      hide KeyOf, VersionLinked, NamespaceByName, Text.StripScheme, Bounded, Path, Columns;
      ghost var p := ToPublication(registryURL, req, manifest, readme);
      PathMissing(store.db, p.key);
      PathParts(store.db, p, faults);
      var begun := store.BeginTx(Begin in faults);
      if begun.Err? { return Err(begun.error); }
      var tx := begun.value;

      var ns := EnsureNamespace(tx, p, req.ns, faults);
      if ns.Err? { tx.Rollback(); return Err(ns.error); }

      var description := if "description" in manifest then manifest["description"] else "";
      var pl := EnsurePlugin(tx, p, ns.value, req.name, description, faults);
      if pl.Err? { tx.Rollback(); return Err(pl.error); }

      var imageRef := Text.StripScheme(registryURL) + "/" + req.ns + "/" + req.name + ":" + req.version;
      var release := Release(imageRef, req.digest, readme, manifest);
      var pv := PutVersion(tx, p, ns.value, pl.value, req.version, release, faults);
      if pv.Err? { tx.Rollback(); return Err(pv.error); }

      var committed := tx.Commit(Commit in faults);
      if committed.Err? { tx.Rollback(); return Err(committed.error); }
      forall host | registryURL == "http://" + host || (registryURL == "https://" + host && !("http://" <= host))
        ensures p.release.imageRef == host + "/" + Refs.Print(Refs.Ref(req.ns, req.name, req.version))
      {
        PublicationFields(registryURL, req, manifest, readme, host);
      }
      return Ok(PublishResult(pl.value, pv.value.0, pv.value.1));
    }

    // Three lookups by id read the release map back.
    method GetPluginVersion(ns: string, name: string, version: string, faults: set<Call>) returns (r: Result<Version>)
      requires store.Valid()
      ensures var key := Key(ns, name, version);
        && (r.Ok? ==>
              key in Releases(store.db) && r.value.release == Releases(store.db)[key] && r.value.version == version)
        && (r.Err? && faults == {} ==> r.error == NotFound && key !in Releases(store.db))
        && (r.Err? && key in Releases(store.db) ==> faults * {NsGet, PluginGet, VersionGet} != {})
    {
      hide Sound, Extends, Owners, Descriptions, Releases, NamespaceByName, PluginByKey, VersionByKey;
      ghost var key := Key(ns, name, version);
      PathMissing(store.db, key);
      NamespaceRead(store.db, ns);
      var n := store.NamespaceGetByName(ns, NsGet in faults);
      if n.Err? {
        assert NsGet in faults ==> NsGet in faults * {NsGet, PluginGet, VersionGet};
        return Err(n.error);
      }
      PluginRead(store.db, PluginKey(ns, name), n.value);
      var p := store.PluginGetByNamespaceAndName(n.value, name, PluginGet in faults);
      if p.Err? {
        assert PluginGet in faults ==> PluginGet in faults * {NsGet, PluginGet, VersionGet};
        return Err(p.error);
      }
      VersionRead(store.db, key, n.value, p.value);
      var v := store.PluginVersionGetByPluginAndVersion(p.value, version, VersionGet in faults);
      if v.Err? {
        assert VersionGet in faults ==> VersionGet in faults * {NsGet, PluginGet, VersionGet};
        return Err(v.error);
      }
      return Ok(store.db.versions[v.value]);
    }
  }
}
