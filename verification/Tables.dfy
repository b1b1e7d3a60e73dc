// The five tables of the registry database (internal/ent/migrate/schema.go), and the single
// statements that pkg/store/store.go runs on them. A statement is a function from the tables it
// sees to its result; it either fails and changes nothing, or changes exactly one row.
module Tables {
  import opened Wrappers

  datatype Namespace = Namespace(name: string, kind: string, owner: Option<int>)
  datatype Plugin = Plugin(nsId: int, name: string, displayName: string, description: string, logoUrl: string)
  datatype Release = Release(imageRef: string, digest: string, readme: string, manifest: map<string, string>)
  datatype Version = Version(pluginId: int, version: string, release: Release)
  datatype User = User(email: string, passwordHash: string)
  datatype Token = Token(userId: int, hash: string, expiresAt: int)

  datatype Db = Db(
    namespaces: map<int, Namespace>,
    plugins: map<int, Plugin>,
    versions: map<int, Version>,
    users: map<int, User>,
    tokens: map<int, Token>)

  // The last id each auto-increment column has handed out. The first id is 1.
  datatype Sequences = Sequences(namespace: nat, plugin: nat, version: nat, user: nat, token: nat)

  datatype Inserted = Inserted(id: int, db: Db, seqs: Sequences)

  const EMPTY := Db(map[], map[], map[], map[], map[])

  // ----- Unique indexes: the indexed columns, row by row, never repeat -----

  function NamespaceKeys(rows: map<int, Namespace>): map<int, string> { map i | i in rows :: rows[i].name }

  function PluginKeys(rows: map<int, Plugin>): map<int, (int, string)> {
    map i | i in rows :: (rows[i].nsId, rows[i].name)
  }

  function VersionKeys(rows: map<int, Version>): map<int, (int, string)> {
    map i | i in rows :: (rows[i].pluginId, rows[i].version)
  }

  function UserKeys(rows: map<int, User>): map<int, string> { map i | i in rows :: rows[i].email }

  function TokenKeys(rows: map<int, Token>): map<int, string> { map i | i in rows :: rows[i].hash }

  ghost predicate Injective<K(!new)>(keys: map<int, K>) {
    forall i, j {:trigger keys[i], keys[j]} | i in keys && j in keys && keys[i] == keys[j] :: i == j
  }

  ghost predicate KeysUnique(db: Db) {
    && Injective(NamespaceKeys(db.namespaces))
    && Injective(PluginKeys(db.plugins))
    && Injective(VersionKeys(db.versions))
    && Injective(UserKeys(db.users))
    && Injective(TokenKeys(db.tokens))
  }

  // The "exactly one row" query of the generated client, on an index.
  function Only<K(==)>(keys: map<int, K>, k: K): (r: Result<int>)
    ensures r.Ok? ==> r.value in keys && keys[r.value] == k
    ensures r.Err? ==> r.error == NotFound || r.error == NotSingular
    ensures r == Err(NotFound) <==> forall j | j in keys :: keys[j] != k
    ensures r.Ok? ==> forall j | j in keys && keys[j] == k :: j == r.value
  {
    if exists i :: i in keys && keys[i] == k && forall j | j in keys && keys[j] == k :: j == i then
      var i :| i in keys && keys[i] == k && forall j | j in keys && keys[j] == k :: j == i;
      Ok(i)
    else if exists i :: i in keys && keys[i] == k then Err(NotSingular)
    else Err(NotFound)
  }

  // On a unique index the query finds the row or reports that there is none.
  lemma OnlyFinds<K(!new)>(keys: map<int, K>, i: int)
    requires Injective(keys) && i in keys
    ensures Only(keys, keys[i]) == Ok(i)
  {
    assert forall j | j in keys && keys[j] == keys[i] :: j == i;
  }

  lemma OnlyTotal<K(!new)>(keys: map<int, K>, k: K)
    requires Injective(keys)
    ensures Only(keys, k) != Err(NotSingular)
  {
    if i :| i in keys && keys[i] == k { OnlyFinds(keys, i); }
  }

  // A row added under a key no row has, or rewritten under its own key, keeps an index unique and is found.
  lemma KeyAdded<K(!new)>(keys: map<int, K>, i: int, k: K)
    requires Injective(keys)
    requires if i in keys then keys[i] == k else Only(keys, k) == Err(NotFound)
    ensures Injective(keys[i := k]) && Only(keys[i := k], k) == Ok(i)
  {
    var keys' := keys[i := k];
    forall x, y | x in keys' && y in keys' && keys'[x] == keys'[y] ensures x == y {
      if x != i && y != i { assert keys[x] == keys[y]; }
    }
    OnlyFinds(keys', i);
  }

  lemma KeysRemoved<K(!new)>(keys: map<int, K>, keys': map<int, K>)
    requires Injective(keys) && forall i | i in keys' :: i in keys && keys'[i] == keys[i]
    ensures Injective(keys')
  {
    forall x, y | x in keys' && y in keys' && keys'[x] == keys'[y] ensures x == y {
      assert keys[x] == keys[y];
    }
  }

  // ----- What a sound database is -----

  // Every reference names a row. The schema itself does not enforce the first line: namespace_id
  // is a plain column and the foreign key sits on the unused column namespace_plugins.
  ghost predicate RefsHold(db: Db) {
    && (forall i | i in db.plugins :: db.plugins[i].nsId in db.namespaces)
    && (forall i | i in db.versions :: db.versions[i].pluginId in db.plugins)
    && (forall i | i in db.namespaces && db.namespaces[i].owner.Some? :: db.namespaces[i].owner.value in db.users)
    && (forall i | i in db.tokens :: db.tokens[i].userId in db.users)
  }

  // What the field validators keep: no empty names.
  ghost predicate Named(db: Db) {
    && (forall i | i in db.namespaces :: db.namespaces[i].name != "")
    && (forall i | i in db.plugins :: db.plugins[i].name != "")
    && (forall i | i in db.versions :: db.versions[i].version != "" && db.versions[i].release.digest != "")
  }

  // Ids lie between 1 and the last one handed out.
  ghost predicate Bounded(db: Db, seqs: Sequences) {
    && (forall i | i in db.namespaces :: 1 <= i <= seqs.namespace)
    && (forall i | i in db.plugins :: 1 <= i <= seqs.plugin)
    && (forall i | i in db.versions :: 1 <= i <= seqs.version)
    && (forall i | i in db.users :: 1 <= i <= seqs.user)
    && (forall i | i in db.tokens :: 1 <= i <= seqs.token)
  }

  ghost predicate HasVersion(db: Db, p: int) {
    exists v :: v in db.versions && db.versions[v].pluginId == p
  }

  ghost predicate Released(db: Db) {
    forall p | p in db.plugins :: HasVersion(db, p)
  }

  ghost predicate Sound(db: Db) { KeysUnique(db) && RefsHold(db) && Named(db) }

  // What holds of every committed database.
  ghost predicate Consistent(db: Db) { Sound(db) && Released(db) }

  ghost predicate AtLeast(seqs: Sequences, seqs0: Sequences) {
    && seqs0.namespace <= seqs.namespace && seqs0.plugin <= seqs.plugin && seqs0.version <= seqs.version
    && seqs0.user <= seqs.user && seqs0.token <= seqs.token
  }

  // No row of the three registry tables disappears or changes its key.
  ghost predicate Extends(db: Db, db': Db) {
    && (forall i | i in db.namespaces :: i in db'.namespaces && db'.namespaces[i] == db.namespaces[i])
    && (forall i | i in db.plugins :: i in db'.plugins
         && db'.plugins[i].nsId == db.plugins[i].nsId && db'.plugins[i].name == db.plugins[i].name)
    && (forall i | i in db.versions :: i in db'.versions
         && db'.versions[i].pluginId == db.versions[i].pluginId && db'.versions[i].version == db.versions[i].version)
  }

  // ----- Queries by unique key -----

  function NamespaceByName(db: Db, name: string): (r: Result<int>)
    ensures r.Ok? ==> r.value in db.namespaces && db.namespaces[r.value].name == name
  {
    Only(NamespaceKeys(db.namespaces), name)
  }

  function PluginByKey(db: Db, nsId: int, name: string): (r: Result<int>)
    ensures r.Ok? ==> r.value in db.plugins && db.plugins[r.value].nsId == nsId && db.plugins[r.value].name == name
  {
    Only(PluginKeys(db.plugins), (nsId, name))
  }

  function VersionByKey(db: Db, pluginId: int, version: string): (r: Result<int>)
    ensures r.Ok? ==>
      r.value in db.versions && db.versions[r.value].pluginId == pluginId && db.versions[r.value].version == version
  {
    Only(VersionKeys(db.versions), (pluginId, version))
  }

  function UserByEmail(db: Db, email: string): (r: Result<int>)
    ensures r.Ok? ==> r.value in db.users && db.users[r.value].email == email
  {
    Only(UserKeys(db.users), email)
  }

  function TokenByHash(db: Db, hash: string): (r: Result<int>)
    ensures r.Ok? ==> r.value in db.tokens && db.tokens[r.value].hash == hash
  {
    Only(TokenKeys(db.tokens), hash)
  }

  // The versions of a plugin with their ids, newest first, up to a bound.
  function Listing(db: Db, pluginId: int, last: nat): seq<(int, Version)> {
    if last == 0 then []
    else if last in db.versions && db.versions[last].pluginId == pluginId then
      [(last, db.versions[last])] + Listing(db, pluginId, last - 1)
    else Listing(db, pluginId, last - 1)
  }

  // The list holds exactly the plugin's versions up to the bound, and its ids descend.
  lemma {:induction false} ListingExact(db: Db, pluginId: int, last: nat)
    ensures forall v, row :: (v, row) in Listing(db, pluginId, last) <==>
      1 <= v <= last && v in db.versions && db.versions[v] == row && row.pluginId == pluginId
    ensures NewestFirst(Listing(db, pluginId, last))
    decreases last
  {
    if last > 0 {
      ListingExact(db, pluginId, last - 1);
      var rest := Listing(db, pluginId, last - 1);
      assert forall i | 0 <= i < |rest| :: (rest[i].0, rest[i].1) in rest;
    }
  }

  predicate NewestFirst(list: seq<(int, Version)>) { forall i, j | 0 <= i < j < |list| :: list[i].0 > list[j].0 }

  // ----- Inserts: validators, foreign keys, unique index, then the next id -----

  // An owner of 0 stands for an unowned namespace.
  function InsertNamespace(db: Db, seqs: Sequences, name: string, kind: string, userId: int): (r: Result<Inserted>)
    ensures r.Err? ==> r.error != NotFound
  {
    var owner := if userId == 0 then None else Some(userId);
    if name == "" || kind == "" then Err(Invalid)
    else if userId != 0 && userId !in db.users then Err(Dangling)
    else if NamespaceByName(db, name) != Err(NotFound) then Err(Duplicate)
    else
      var id := seqs.namespace + 1;
      Ok(Inserted(id, db.(namespaces := db.namespaces[id := Namespace(name, kind, owner)]), seqs.(namespace := id)))
  }

  // The namespace id is stored as given: no foreign key guards it.
  function InsertPlugin(db: Db, seqs: Sequences, row: Plugin): (r: Result<Inserted>)
    ensures r.Err? ==> r.error != NotFound
  {
    if row.name == "" then Err(Invalid)
    else if PluginByKey(db, row.nsId, row.name) != Err(NotFound) then Err(Duplicate)
    else
      var id := seqs.plugin + 1;
      Ok(Inserted(id, db.(plugins := db.plugins[id := row]), seqs.(plugin := id)))
  }

  function InsertVersion(db: Db, seqs: Sequences, row: Version): (r: Result<Inserted>)
    ensures r.Err? ==> r.error != NotFound
  {
    if row.version == "" || row.release.digest == "" then Err(Invalid)
    else if row.pluginId !in db.plugins then Err(Dangling)
    else if VersionByKey(db, row.pluginId, row.version) != Err(NotFound) then Err(Duplicate)
    else
      var id := seqs.version + 1;
      Ok(Inserted(id, db.(versions := db.versions[id := row]), seqs.(version := id)))
  }

  function InsertUser(db: Db, seqs: Sequences, row: User): (r: Result<Inserted>)
    ensures r.Err? ==> r.error != NotFound
  {
    if row.email == "" || row.passwordHash == "" then Err(Invalid)
    else if UserByEmail(db, row.email) != Err(NotFound) then Err(Duplicate)
    else
      var id := seqs.user + 1;
      Ok(Inserted(id, db.(users := db.users[id := row]), seqs.(user := id)))
  }

  function InsertToken(db: Db, seqs: Sequences, row: Token): (r: Result<Inserted>)
    ensures r.Err? ==> r.error != NotFound
  {
    if row.hash == "" then Err(Invalid)
    else if row.userId !in db.users then Err(Dangling)
    else if TokenByHash(db, row.hash) != Err(NotFound) then Err(Duplicate)
    else
      var id := seqs.token + 1;
      Ok(Inserted(id, db.(tokens := db.tokens[id := row]), seqs.(token := id)))
  }

  // ----- Updates and deletes by id -----

  function UpdatePlugin(db: Db, id: int, displayName: string, description: string, logoUrl: string): (r: Result<Db>)
    ensures r.Err? ==> r.error != NotFound
  {
    if id !in db.plugins then Err(Dangling)
    else Ok(db.(plugins := db.plugins[id :=
      db.plugins[id].(displayName := displayName, description := description, logoUrl := logoUrl)]))
  }

  function UpdateVersion(db: Db, id: int, release: Release): (r: Result<Db>)
    ensures r.Err? ==> r.error != NotFound
  {
    if release.digest == "" then Err(Invalid)
    else if id !in db.versions then Err(Dangling)
    else Ok(db.(versions := db.versions[id := db.versions[id].(release := release)]))
  }

  function DeleteToken(db: Db, id: int): Result<Db> {
    if id !in db.tokens then Err(Dangling) else Ok(db.(tokens := db.tokens - {id}))
  }

  // Deletes the rows whose expiry lies strictly before now.
  function DeleteExpired(db: Db, now: int): Db {
    db.(tokens := map i | i in db.tokens && !(db.tokens[i].expiresAt < now) :: db.tokens[i])
  }

  // ----- When a statement is accepted, and the one row it writes -----

  lemma NamespaceAccepted(db: Db, seqs: Sequences, name: string, kind: string, userId: int)
    ensures InsertNamespace(db, seqs, name, kind, userId).Ok? <==>
      && name != "" && kind != "" && (userId == 0 || userId in db.users)
      && forall i | i in db.namespaces :: db.namespaces[i].name != name
    ensures InsertNamespace(db, seqs, name, kind, userId).Ok? ==>
      var row := Namespace(name, kind, if userId == 0 then None else Some(userId));
      InsertNamespace(db, seqs, name, kind, userId).value ==
      Inserted(seqs.namespace + 1, db.(namespaces := db.namespaces[seqs.namespace + 1 := row]),
               seqs.(namespace := seqs.namespace + 1))
  {
    forall i | i in db.namespaces ensures NamespaceKeys(db.namespaces)[i] == db.namespaces[i].name {}
  }

  lemma PluginAccepted(db: Db, seqs: Sequences, row: Plugin)
    ensures InsertPlugin(db, seqs, row).Ok? <==>
      && row.name != ""
      && forall i | i in db.plugins :: !(db.plugins[i].nsId == row.nsId && db.plugins[i].name == row.name)
    ensures InsertPlugin(db, seqs, row).Ok? ==>
      InsertPlugin(db, seqs, row).value ==
      Inserted(seqs.plugin + 1, db.(plugins := db.plugins[seqs.plugin + 1 := row]), seqs.(plugin := seqs.plugin + 1))
  {
    forall i | i in db.plugins ensures PluginKeys(db.plugins)[i] == (db.plugins[i].nsId, db.plugins[i].name) {}
  }

  lemma VersionAccepted(db: Db, seqs: Sequences, row: Version)
    ensures InsertVersion(db, seqs, row).Ok? <==>
      && row.version != "" && row.release.digest != "" && row.pluginId in db.plugins
      && forall i | i in db.versions ::
           !(db.versions[i].pluginId == row.pluginId && db.versions[i].version == row.version)
    ensures InsertVersion(db, seqs, row).Ok? ==>
      InsertVersion(db, seqs, row).value ==
      Inserted(seqs.version + 1, db.(versions := db.versions[seqs.version + 1 := row]),
               seqs.(version := seqs.version + 1))
  {
    forall i | i in db.versions
      ensures VersionKeys(db.versions)[i] == (db.versions[i].pluginId, db.versions[i].version) {}
  }

  lemma UserAccepted(db: Db, seqs: Sequences, row: User)
    ensures InsertUser(db, seqs, row).Ok? <==>
      row.email != "" && row.passwordHash != "" && forall i | i in db.users :: db.users[i].email != row.email
    ensures InsertUser(db, seqs, row).Ok? ==>
      InsertUser(db, seqs, row).value ==
      Inserted(seqs.user + 1, db.(users := db.users[seqs.user + 1 := row]), seqs.(user := seqs.user + 1))
  {
    forall i | i in db.users ensures UserKeys(db.users)[i] == db.users[i].email {}
  }

  lemma TokenAccepted(db: Db, seqs: Sequences, row: Token)
    ensures InsertToken(db, seqs, row).Ok? <==>
      row.hash != "" && row.userId in db.users && forall i | i in db.tokens :: db.tokens[i].hash != row.hash
    ensures InsertToken(db, seqs, row).Ok? ==>
      InsertToken(db, seqs, row).value ==
      Inserted(seqs.token + 1, db.(tokens := db.tokens[seqs.token + 1 := row]), seqs.(token := seqs.token + 1))
  {
    forall i | i in db.tokens ensures TokenKeys(db.tokens)[i] == db.tokens[i].hash {}
  }

  // A purge leaves exactly the rows whose expiry has not passed, as they are, and touches nothing else.
  lemma ExpiredDeleted(db: Db, now: int)
    ensures forall i :: i in DeleteExpired(db, now).tokens <==> i in db.tokens && now <= db.tokens[i].expiresAt
    ensures forall i | i in DeleteExpired(db, now).tokens :: DeleteExpired(db, now).tokens[i] == db.tokens[i]
    ensures DeleteExpired(db, now) == db.(tokens := DeleteExpired(db, now).tokens)
  {
  }

  // ----- Statements keep a database sound -----

  // A row that fits an index: a new key, or a row kept under its key.
  ghost predicate Fits<K(!new)>(keys: map<int, K>, last: nat, id: int, k: K) {
    1 <= id <= last && if id in keys then keys[id] == k else Only(keys, k) == Err(NotFound)
  }

  lemma NamespaceKeysPut(rows: map<int, Namespace>, id: int, row: Namespace)
    ensures NamespaceKeys(rows[id := row]) == NamespaceKeys(rows)[id := row.name]
  {
  }

  lemma PluginKeysPut(rows: map<int, Plugin>, id: int, row: Plugin)
    ensures PluginKeys(rows[id := row]) == PluginKeys(rows)[id := (row.nsId, row.name)]
  {
  }

  lemma VersionKeysPut(rows: map<int, Version>, id: int, row: Version)
    ensures VersionKeys(rows[id := row]) == VersionKeys(rows)[id := (row.pluginId, row.version)]
  {
  }

  lemma UserKeysPut(rows: map<int, User>, id: int, row: User)
    ensures UserKeys(rows[id := row]) == UserKeys(rows)[id := row.email]
  {
  }

  lemma TokenKeysPut(rows: map<int, Token>, id: int, row: Token)
    ensures TokenKeys(rows[id := row]) == TokenKeys(rows)[id := row.hash]
  {
  }

  lemma NamespacePut(db: Db, seqs: Sequences, id: int, row: Namespace)
    requires Sound(db) && Bounded(db, seqs) && Fits(NamespaceKeys(db.namespaces), seqs.namespace, id, row.name)
    requires row.name != "" && id !in db.namespaces && (row.owner.Some? ==> row.owner.value in db.users)
    ensures var db' := db.(namespaces := db.namespaces[id := row]); Sound(db') && Bounded(db', seqs) && Extends(db, db')
  {
    hide Injective, Only, NamespaceKeys, PluginKeys, VersionKeys, UserKeys, TokenKeys;
    KeyAdded(NamespaceKeys(db.namespaces), id, row.name);
    NamespaceKeysPut(db.namespaces, id, row);
  }

  lemma PluginPut(db: Db, seqs: Sequences, id: int, row: Plugin)
    requires Sound(db) && Bounded(db, seqs) && Fits(PluginKeys(db.plugins), seqs.plugin, id, (row.nsId, row.name))
    requires row.name != "" && row.nsId in db.namespaces
    ensures var db' := db.(plugins := db.plugins[id := row]); Sound(db') && Bounded(db', seqs) && Extends(db, db')
  {
    hide Injective, Only, NamespaceKeys, VersionKeys, UserKeys, TokenKeys;
    KeyAdded(PluginKeys(db.plugins), id, (row.nsId, row.name));
    PluginKeysPut(db.plugins, id, row);
  }

  lemma VersionPut(db: Db, seqs: Sequences, id: int, row: Version)
    requires Sound(db) && Bounded(db, seqs)
    requires Fits(VersionKeys(db.versions), seqs.version, id, (row.pluginId, row.version))
    requires row.version != "" && row.release.digest != "" && row.pluginId in db.plugins
    ensures var db' := db.(versions := db.versions[id := row]); Sound(db') && Bounded(db', seqs) && Extends(db, db')
  {
    hide Injective, Only, NamespaceKeys, PluginKeys, UserKeys, TokenKeys;
    KeyAdded(VersionKeys(db.versions), id, (row.pluginId, row.version));
    VersionKeysPut(db.versions, id, row);
  }

  lemma UserPut(db: Db, seqs: Sequences, id: int, row: User)
    requires Sound(db) && Bounded(db, seqs) && Fits(UserKeys(db.users), seqs.user, id, row.email)
    requires id !in db.users
    ensures var db' := db.(users := db.users[id := row]); Sound(db') && Bounded(db', seqs) && Extends(db, db')
  {
    hide Injective, Only, NamespaceKeys, PluginKeys, VersionKeys, UserKeys, TokenKeys;
    KeyAdded(UserKeys(db.users), id, row.email);
    UserKeysPut(db.users, id, row);
  }

  lemma TokenPut(db: Db, seqs: Sequences, id: int, row: Token)
    requires Sound(db) && Bounded(db, seqs) && Fits(TokenKeys(db.tokens), seqs.token, id, row.hash)
    requires row.userId in db.users
    ensures var db' := db.(tokens := db.tokens[id := row]); Sound(db') && Bounded(db', seqs) && Extends(db, db')
  {
    hide Injective, Only, NamespaceKeys, PluginKeys, VersionKeys, UserKeys, TokenKeys;
    KeyAdded(TokenKeys(db.tokens), id, row.hash);
    TokenKeysPut(db.tokens, id, row);
  }

  lemma ExtendsTransitive(db: Db, v: Db, w: Db)
    requires Extends(db, v) && Extends(v, w)
    ensures Extends(db, w)
  {
  }

  lemma UniqueIndexes(db: Db)
    requires Sound(db)
    ensures Injective(NamespaceKeys(db.namespaces)) && Injective(PluginKeys(db.plugins))
    ensures Injective(VersionKeys(db.versions))
    ensures Injective(UserKeys(db.users)) && Injective(TokenKeys(db.tokens))
  {
  }

  lemma NamespaceInserted(db: Db, seqs: Sequences, name: string, kind: string, userId: int)
    requires Sound(db) && Bounded(db, seqs)
    ensures var r := InsertNamespace(db, seqs, name, kind, userId); r.Ok? ==>
      && Sound(r.value.db) && Bounded(r.value.db, r.value.seqs) && Extends(db, r.value.db)
      && r.value.id !in db.namespaces && NamespaceByName(r.value.db, name) == Ok(r.value.id)
  {
    hide Injective, Only, KeysUnique, RefsHold, Named;
    var r := InsertNamespace(db, seqs, name, kind, userId);
    if r.Ok? {
      assert r.value.id !in db.namespaces;
      assert Injective(NamespaceKeys(db.namespaces)) by { UniqueIndexes(db); }
      KeyAdded(NamespaceKeys(db.namespaces), r.value.id, name);
      NamespaceKeysPut(db.namespaces, r.value.id, Namespace(name, kind, if userId == 0 then None else Some(userId)));
      NamespacePut(db, r.value.seqs, r.value.id, Namespace(name, kind, if userId == 0 then None else Some(userId)));
    }
  }

  lemma PluginInserted(db: Db, seqs: Sequences, row: Plugin)
    requires Sound(db) && Bounded(db, seqs) && row.nsId in db.namespaces
    ensures var r := InsertPlugin(db, seqs, row); r.Ok? ==>
      && Sound(r.value.db) && Bounded(r.value.db, r.value.seqs) && Extends(db, r.value.db)
      && r.value.id !in db.plugins && PluginByKey(r.value.db, row.nsId, row.name) == Ok(r.value.id)
  {
    hide Injective, Only, KeysUnique, RefsHold, Named;
    var r := InsertPlugin(db, seqs, row);
    if r.Ok? {
      assert r.value.id !in db.plugins;
      assert Injective(PluginKeys(db.plugins)) by { UniqueIndexes(db); }
      KeyAdded(PluginKeys(db.plugins), r.value.id, (row.nsId, row.name));
      PluginKeysPut(db.plugins, r.value.id, row);
      PluginPut(db, r.value.seqs, r.value.id, row);
    }
  }

  lemma VersionInserted(db: Db, seqs: Sequences, row: Version)
    requires Sound(db) && Bounded(db, seqs)
    ensures var r := InsertVersion(db, seqs, row); r.Ok? ==>
      && Sound(r.value.db) && Bounded(r.value.db, r.value.seqs) && Extends(db, r.value.db)
      && r.value.id !in db.versions && VersionByKey(r.value.db, row.pluginId, row.version) == Ok(r.value.id)
  {
    hide Injective, Only, KeysUnique, RefsHold, Named;
    var r := InsertVersion(db, seqs, row);
    if r.Ok? {
      assert r.value.id !in db.versions;
      assert Injective(VersionKeys(db.versions)) by { UniqueIndexes(db); }
      KeyAdded(VersionKeys(db.versions), r.value.id, (row.pluginId, row.version));
      VersionKeysPut(db.versions, r.value.id, row);
      VersionPut(db, r.value.seqs, r.value.id, row);
    }
  }

  lemma UserInserted(db: Db, seqs: Sequences, row: User)
    requires Sound(db) && Bounded(db, seqs)
    ensures var r := InsertUser(db, seqs, row); r.Ok? ==>
      && Sound(r.value.db) && Bounded(r.value.db, r.value.seqs) && Extends(db, r.value.db)
      && r.value.id !in db.users && UserByEmail(r.value.db, row.email) == Ok(r.value.id)
  {
    hide Injective, Only, KeysUnique, RefsHold, Named;
    var r := InsertUser(db, seqs, row);
    if r.Ok? {
      assert r.value.id !in db.users;
      assert Injective(UserKeys(db.users)) by { UniqueIndexes(db); }
      KeyAdded(UserKeys(db.users), r.value.id, row.email);
      UserKeysPut(db.users, r.value.id, row);
      UserPut(db, r.value.seqs, r.value.id, row);
    }
  }

  lemma TokenInserted(db: Db, seqs: Sequences, row: Token)
    requires Sound(db) && Bounded(db, seqs)
    ensures var r := InsertToken(db, seqs, row); r.Ok? ==>
      && Sound(r.value.db) && Bounded(r.value.db, r.value.seqs) && Extends(db, r.value.db)
      && r.value.id !in db.tokens && TokenByHash(r.value.db, row.hash) == Ok(r.value.id)
  {
    hide Injective, Only, KeysUnique, RefsHold, Named;
    var r := InsertToken(db, seqs, row);
    if r.Ok? {
      assert r.value.id !in db.tokens;
      assert Injective(TokenKeys(db.tokens)) by { UniqueIndexes(db); }
      KeyAdded(TokenKeys(db.tokens), r.value.id, row.hash);
      TokenKeysPut(db.tokens, r.value.id, row);
      TokenPut(db, r.value.seqs, r.value.id, row);
    }
  }

  lemma PluginUpdated(db: Db, id: int, displayName: string, description: string, logoUrl: string)
    requires Sound(db)
    ensures var r := UpdatePlugin(db, id, displayName, description, logoUrl); r.Ok? ==>
      && Sound(r.value) && Extends(db, r.value)
      && forall n, name :: PluginByKey(r.value, n, name) == PluginByKey(db, n, name)
    ensures var r := UpdatePlugin(db, id, displayName, description, logoUrl);
      && (r.Ok? <==> id in db.plugins)
      && (r.Ok? ==>
            var row := Plugin(db.plugins[id].nsId, db.plugins[id].name, displayName, description, logoUrl);
            r.value == db.(plugins := db.plugins[id := row]))
  {
    var r := UpdatePlugin(db, id, displayName, description, logoUrl);
    if r.Ok? { assert PluginKeys(r.value.plugins) == PluginKeys(db.plugins); }
  }

  lemma VersionUpdated(db: Db, id: int, release: Release)
    requires Sound(db)
    ensures var r := UpdateVersion(db, id, release); r.Ok? ==> Sound(r.value) && Extends(db, r.value)
    ensures var r := UpdateVersion(db, id, release);
      && (r.Ok? <==> release.digest != "" && id in db.versions)
      && (r.Ok? ==>
            var row := Version(db.versions[id].pluginId, db.versions[id].version, release);
            r.value == db.(versions := db.versions[id := row]))
  {
    var r := UpdateVersion(db, id, release);
    if r.Ok? { assert VersionKeys(r.value.versions) == VersionKeys(db.versions); }
  }

  lemma TokensRemoved(db: Db, tokens: map<int, Token>)
    requires Sound(db) && forall i | i in tokens :: i in db.tokens && tokens[i] == db.tokens[i]
    ensures Sound(db.(tokens := tokens)) && Extends(db, db.(tokens := tokens))
  {
    KeysRemoved(TokenKeys(db.tokens), TokenKeys(tokens));
  }
}
