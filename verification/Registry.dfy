// What the registry tables mean, ids left out: which release each (namespace, plugin, version)
// holds, which description each plugin has, and who owns each namespace.
module Registry {
  import opened Wrappers
  import opened Tables

  datatype Key = Key(ns: string, plugin: string, version: string)
  datatype PluginKey = PluginKey(ns: string, plugin: string)

  // What one publish asks for.
  datatype Publication = Publication(key: Key, description: string, release: Release) {
    function Target(): PluginKey { PluginKey(key.ns, key.plugin) }

    // What the field validators demand.
    predicate Admissible() { key.ns != "" && key.plugin != "" && key.version != "" && release.digest != "" }
  }

  datatype PublishResult = PublishResult(pluginId: int, versionId: int, created: bool)

  // A row counts when the rows it refers to are there.
  ghost predicate PluginLinked(db: Db, p: int) { p in db.plugins && db.plugins[p].nsId in db.namespaces }

  ghost predicate VersionLinked(db: Db, v: int) { v in db.versions && PluginLinked(db, db.versions[v].pluginId) }

  ghost function PluginKeyOf(db: Db, p: int): PluginKey
    requires PluginLinked(db, p)
  {
    PluginKey(db.namespaces[db.plugins[p].nsId].name, db.plugins[p].name)
  }

  ghost function KeyOf(db: Db, v: int): Key
    requires VersionLinked(db, v)
  {
    var p := PluginKeyOf(db, db.versions[v].pluginId);
    Key(p.ns, p.plugin, db.versions[v].version)
  }

  // ----- The views: rows indexed by name instead of by id -----

  ghost function Range<K(!new)>(keys: map<int, K>): set<K> { set i | i in keys :: keys[i] }

  ghost function ByName<K(!new), V>(keys: map<int, K>, values: map<int, V>): map<K, V>
    requires keys.Keys <= values.Keys
  {
    map k | k in Range(keys) :: var i :| i in keys && keys[i] == k; values[i]
  }

  ghost function PluginNames(db: Db): map<int, PluginKey> {
    map p | p in db.plugins && PluginLinked(db, p) :: PluginKeyOf(db, p)
  }

  ghost function VersionNames(db: Db): map<int, Key> {
    map v | v in db.versions && VersionLinked(db, v) :: KeyOf(db, v)
  }

  ghost function Contents(versions: map<int, Version>): map<int, Release> {
    map v | v in versions :: versions[v].release
  }

  ghost function Texts(plugins: map<int, Plugin>): map<int, string> { map p | p in plugins :: plugins[p].description }

  ghost function OwnerIds(namespaces: map<int, Namespace>): map<int, Option<int>> {
    map n | n in namespaces :: namespaces[n].owner
  }

  // The columns no view shows: a new namespace is of the kind "user", and a plugin row that was written has
  // neither a display name nor a logo.
  ghost predicate Columns(db: Db, db': Db) {
    && (forall n | n in db'.namespaces && n !in db.namespaces :: db'.namespaces[n].kind == "user")
    && (forall q | q in db'.plugins ::
          || (q in db.plugins && db'.plugins[q] == db.plugins[q])
          || (db'.plugins[q].displayName == "" && db'.plugins[q].logoUrl == ""))
  }

  lemma PluginNamesUnique(db: Db)
    requires Sound(db)
    ensures Injective(PluginNames(db))
  {
    var names := PluginNames(db);
    forall p, q | p in names && q in names && names[p] == names[q] ensures p == q {
      var n, m := db.plugins[p].nsId, db.plugins[q].nsId;
      assert NamespaceKeys(db.namespaces)[n] == NamespaceKeys(db.namespaces)[m];
      assert PluginKeys(db.plugins)[p] == PluginKeys(db.plugins)[q];
    }
  }

  // Distinct version rows have distinct names, across all three tables.
  lemma VersionNamesUnique(db: Db)
    requires Sound(db)
    ensures Injective(VersionNames(db))
  {
    PluginNamesUnique(db);
    var names := VersionNames(db);
    forall v, w | v in names && w in names && names[v] == names[w] ensures v == w {
      var p, q := db.versions[v].pluginId, db.versions[w].pluginId;
      assert PluginNames(db)[p] == PluginNames(db)[q];
      assert VersionKeys(db.versions)[v] == VersionKeys(db.versions)[w];
    }
  }

  ghost function Releases(db: Db): map<Key, Release> { ByName(VersionNames(db), Contents(db.versions)) }

  ghost function Descriptions(db: Db): map<PluginKey, string> { ByName(PluginNames(db), Texts(db.plugins)) }

  ghost function Owners(db: Db): map<string, Option<int>> {
    ByName(NamespaceKeys(db.namespaces), OwnerIds(db.namespaces))
  }

  // ----- How row changes show in the views -----

  lemma ByNameAt<K(!new), V>(keys: map<int, K>, values: map<int, V>, i: int)
    requires keys.Keys <= values.Keys && Injective(keys) && i in keys
    ensures keys[i] in ByName(keys, values) && ByName(keys, values)[keys[i]] == values[i]
  {
  }

  // Writing a row under its name is one update of the view, and the row is new exactly when its name is.
  lemma ByNameWritten<K(!new), V>(keys: map<int, K>, values: map<int, V>, i: int, k: K, v: V)
    requires keys.Keys == values.Keys && (i in keys ==> keys[i] == k) && Injective(keys[i := k]) && Injective(keys)
    ensures ByName(keys[i := k], values[i := v]) == ByName(keys, values)[k := v]
    ensures i in keys <==> k in ByName(keys, values)
  {
    var keys', values' := keys[i := k], values[i := v];
    var before, after := ByName(keys, values), ByName(keys', values');
    if k in before {
      var j :| j in keys && keys[j] == k;
      assert keys'[j] == keys'[i];
    }
    forall x | x in after ensures x in before[k := v] && after[x] == before[k := v][x] {
      var j :| j in keys' && keys'[j] == x;
      ByNameAt(keys', values', j);
      if j != i { ByNameAt(keys, values, j); }
    }
    forall x | x in before[k := v] ensures x in after {
      if x == k {
        ByNameAt(keys', values', i);
      } else {
        var j :| j in keys && keys[j] == x;
        ByNameAt(keys', values', j);
      }
    }
  }

  lemma NamesPersist(db: Db, db': Db)
    requires RefsHold(db) && RefsHold(db') && Extends(db, db')
    ensures forall p | p in db.plugins :: p in db'.plugins && PluginKeyOf(db', p) == PluginKeyOf(db, p)
    ensures forall v | v in db.versions :: v in db'.versions && KeyOf(db', v) == KeyOf(db, v)
  {
  }

  lemma VersionNamesWritten(db: Db, db': Db, v: int)
    requires RefsHold(db) && RefsHold(db') && Extends(db, db') && v in db'.versions
    requires db'.versions == db.versions[v := db'.versions[v]]
    ensures VersionNames(db') == VersionNames(db)[v := KeyOf(db', v)]
    ensures Contents(db'.versions) == Contents(db.versions)[v := db'.versions[v].release]
  {
    hide KeyOf;
    NamesPersist(db, db');
  }

  lemma PluginNamesWritten(db: Db, db': Db, p: int)
    requires RefsHold(db) && RefsHold(db') && Extends(db, db') && p in db'.plugins
    requires db'.plugins == db.plugins[p := db'.plugins[p]]
    ensures PluginNames(db') == PluginNames(db)[p := PluginKeyOf(db', p)]
    ensures Texts(db'.plugins) == Texts(db.plugins)[p := db'.plugins[p].description]
  {
    NamesPersist(db, db');
  }

  lemma VersionWritten(db: Db, db': Db, v: int)
    requires Sound(db) && Sound(db') && Extends(db, db') && v in db'.versions
    requires db'.versions == db.versions[v := db'.versions[v]]
    ensures Releases(db') == Releases(db)[KeyOf(db', v) := db'.versions[v].release]
    ensures v in db.versions <==> KeyOf(db', v) in Releases(db)
  {
    hide KeysUnique, Named, ByName;
    VersionNamesWritten(db, db', v);
    VersionNamesUnique(db);
    VersionNamesUnique(db');
    NamesPersist(db, db');
    ByNameWritten(VersionNames(db), Contents(db.versions), v, KeyOf(db', v), db'.versions[v].release);
  }

  lemma VersionsKept(db: Db, db': Db)
    requires Sound(db) && Sound(db') && Extends(db, db') && db'.versions == db.versions
    ensures Releases(db') == Releases(db)
  {
    NamesPersist(db, db');
    assert VersionNames(db') == VersionNames(db);
  }

  lemma PluginWritten(db: Db, db': Db, p: int)
    requires Sound(db) && Sound(db') && Extends(db, db') && p in db'.plugins
    requires db'.plugins == db.plugins[p := db'.plugins[p]]
    ensures Descriptions(db') == Descriptions(db)[PluginKeyOf(db', p) := db'.plugins[p].description]
    ensures p in db.plugins <==> PluginKeyOf(db', p) in Descriptions(db)
  {
    hide KeysUnique, Named, ByName;
    PluginNamesWritten(db, db', p);
    PluginNamesUnique(db);
    PluginNamesUnique(db');
    NamesPersist(db, db');
    ByNameWritten(PluginNames(db), Texts(db.plugins), p, PluginKeyOf(db', p), db'.plugins[p].description);
  }

  lemma PluginsKept(db: Db, db': Db)
    requires Sound(db) && Sound(db') && Extends(db, db') && db'.plugins == db.plugins
    ensures Descriptions(db') == Descriptions(db)
  {
    NamesPersist(db, db');
    assert PluginNames(db') == PluginNames(db);
  }

  lemma NamespacesKept(db: Db, db': Db)
    requires Sound(db) && Sound(db') && db'.namespaces == db.namespaces
    ensures Owners(db') == Owners(db)
  {
  }

  lemma NamespaceWritten(db: Db, db': Db, n: int)
    requires Sound(db) && Sound(db') && n !in db.namespaces && n in db'.namespaces
    requires db'.namespaces == db.namespaces[n := db'.namespaces[n]]
    ensures Owners(db') == Owners(db)[db'.namespaces[n].name := db'.namespaces[n].owner]
    ensures db'.namespaces[n].name !in Owners(db)
  {
    var row := db'.namespaces[n];
    assert NamespaceKeys(db'.namespaces) == NamespaceKeys(db.namespaces)[n := row.name];
    assert OwnerIds(db'.namespaces) == OwnerIds(db.namespaces)[n := row.owner];
    ByNameWritten(NamespaceKeys(db.namespaces), OwnerIds(db.namespaces), n, row.name, row.owner);
  }

  // ----- The three id lookups read the views back -----

  lemma ByNameRead<K(!new), V>(keys: map<int, K>, values: map<int, V>, k: K)
    requires keys.Keys == values.Keys && Injective(keys)
    ensures Only(keys, k).Ok? <==> k in ByName(keys, values)
    ensures Only(keys, k).Ok? ==> ByName(keys, values)[k] == values[Only(keys, k).value]
  {
    OnlyTotal(keys, k);
    if i :| i in keys && keys[i] == k {
      OnlyFinds(keys, i);
      ByNameAt(keys, values, i);
    }
  }

  lemma NamespaceRead(db: Db, ns: string)
    requires Sound(db)
    ensures NamespaceByName(db, ns).Ok? <==> ns in Owners(db)
    ensures NamespaceByName(db, ns).Err? ==> NamespaceByName(db, ns).error == NotFound
    ensures ns in Owners(db) ==> Owners(db)[ns] == db.namespaces[NamespaceByName(db, ns).value].owner
  {
    OnlyTotal(NamespaceKeys(db.namespaces), ns);
    ByNameRead(NamespaceKeys(db.namespaces), OwnerIds(db.namespaces), ns);
  }

  lemma PluginRead(db: Db, key: PluginKey, n: int)
    requires Sound(db) && NamespaceByName(db, key.ns) == Ok(n)
    ensures PluginByKey(db, n, key.plugin).Ok? <==> key in Descriptions(db)
    ensures PluginByKey(db, n, key.plugin).Err? ==> PluginByKey(db, n, key.plugin).error == NotFound
    ensures key in Descriptions(db) ==>
      var p := PluginByKey(db, n, key.plugin).value;
      PluginKeyOf(db, p) == key && Descriptions(db)[key] == db.plugins[p].description
  {
    PluginNamesUnique(db);
    OnlyTotal(PluginKeys(db.plugins), (n, key.plugin));
    var r := PluginByKey(db, n, key.plugin);
    if r.Ok? {
      assert PluginNames(db)[r.value] == key;
      OnlyFinds(PluginNames(db), r.value);
    } else if p :| p in db.plugins && PluginKeyOf(db, p) == key {
      OnlyFinds(NamespaceKeys(db.namespaces), db.plugins[p].nsId);
      OnlyFinds(PluginKeys(db.plugins), p);
    }
    ByNameRead(PluginNames(db), Texts(db.plugins), key);
  }

  lemma VersionRead(db: Db, key: Key, n: int, p: int)
    requires Sound(db) && NamespaceByName(db, key.ns) == Ok(n) && PluginByKey(db, n, key.plugin) == Ok(p)
    ensures VersionByKey(db, p, key.version).Ok? <==> key in Releases(db)
    ensures VersionByKey(db, p, key.version).Err? ==> VersionByKey(db, p, key.version).error == NotFound
    ensures key in Releases(db) ==>
      var v := VersionByKey(db, p, key.version).value;
      KeyOf(db, v) == key && Releases(db)[key] == db.versions[v].release
  {
    PluginNamesUnique(db);
    VersionNamesUnique(db);
    OnlyTotal(VersionKeys(db.versions), (p, key.version));
    var r := VersionByKey(db, p, key.version);
    assert PluginNames(db)[p] == PluginKey(key.ns, key.plugin);
    if r.Ok? {
      assert VersionNames(db)[r.value] == key;
      OnlyFinds(VersionNames(db), r.value);
    } else if v :| v in db.versions && KeyOf(db, v) == key {
      assert PluginNames(db)[db.versions[v].pluginId] == PluginNames(db)[p];
      OnlyFinds(VersionKeys(db.versions), v);
    }
    ByNameRead(VersionNames(db), Contents(db.versions), key);
  }

  lemma PluginUnderNamespace(db: Db, key: PluginKey)
    requires Sound(db) && key in Descriptions(db)
    ensures key.ns in Owners(db)
  {
    PluginNamesUnique(db);
    var p :| p in db.plugins && PluginNames(db)[p] == key;
    assert NamespaceKeys(db.namespaces)[db.plugins[p].nsId] == key.ns;
  }

  lemma VersionUnderPlugin(db: Db, key: Key)
    requires Sound(db) && key in Releases(db)
    ensures PluginKey(key.ns, key.plugin) in Descriptions(db)
  {
    VersionNamesUnique(db);
    PluginNamesUnique(db);
    var v :| v in db.versions && VersionNames(db)[v] == key;
    assert PluginNames(db)[db.versions[v].pluginId] == PluginKey(key.ns, key.plugin);
  }

  // A key that a lookup misses on the way is not in the release map.
  lemma PathMissing(db: Db, key: Key)
    requires Sound(db)
    ensures key.ns !in Owners(db) ==> PluginKey(key.ns, key.plugin) !in Descriptions(db)
    ensures PluginKey(key.ns, key.plugin) !in Descriptions(db) ==> key !in Releases(db)
  {
    hide Sound, Owners, Descriptions, Releases;
    if PluginKey(key.ns, key.plugin) in Descriptions(db) { PluginUnderNamespace(db, PluginKey(key.ns, key.plugin)); }
    if key in Releases(db) { VersionUnderPlugin(db, key); }
  }

  lemma NamesNotEmpty(db: Db, key: Key)
    requires Sound(db)
    ensures key.ns in Owners(db) ==> key.ns != ""
    ensures PluginKey(key.ns, key.plugin) in Descriptions(db) ==> key.plugin != ""
    ensures key in Releases(db) ==> key.version != ""
  {
    PluginNamesUnique(db);
    VersionNamesUnique(db);
    if key.ns in Owners(db) { var n :| n in db.namespaces && NamespaceKeys(db.namespaces)[n] == key.ns; }
    if PluginKey(key.ns, key.plugin) in Descriptions(db) {
      var p :| p in db.plugins && PluginNames(db)[p] == PluginKey(key.ns, key.plugin);
    }
    if key in Releases(db) { var v :| v in db.versions && VersionNames(db)[v] == key; }
  }

  // Every linked row shows in its view.
  lemma NamespaceRow(db: Db, n: int)
    requires Sound(db) && n in db.namespaces
    ensures db.namespaces[n].name in Owners(db) && Owners(db)[db.namespaces[n].name] == db.namespaces[n].owner
  {
    ByNameAt(NamespaceKeys(db.namespaces), OwnerIds(db.namespaces), n);
  }

  lemma PluginRow(db: Db, p: int)
    requires Sound(db) && PluginLinked(db, p)
    ensures PluginKeyOf(db, p) in Descriptions(db) && Descriptions(db)[PluginKeyOf(db, p)] == db.plugins[p].description
  {
    PluginNamesUnique(db);
    ByNameAt(PluginNames(db), Texts(db.plugins), p);
  }

  lemma VersionRow(db: Db, v: int)
    requires Sound(db) && VersionLinked(db, v)
    ensures KeyOf(db, v) in Releases(db) && Releases(db)[KeyOf(db, v)] == db.versions[v].release
  {
    VersionNamesUnique(db);
    ByNameAt(VersionNames(db), Contents(db.versions), v);
  }
}
