// pkg/store/store.go: the adapter over the committed tables and the adapter bound to one
// transaction. Every call may fail for reasons of its own; the caller of a model method says
// whether this one does by its last argument.
module Store {
  import opened Wrappers
  import opened Tables

  class Adapter {
    var db: Db
    var seqs: Sequences

    ghost predicate Valid()
      reads this
    {
      Consistent(db) && Bounded(db, seqs)
    }

    constructor ()
      ensures Valid() && db == EMPTY
    {
      db := EMPTY;
      seqs := Sequences(0, 0, 0, 0, 0);
    }

    method BeginTx(fault: bool) returns (r: Result<TxAdapter>)
      ensures r.Err? <==> fault
      ensures r.Ok? ==> fresh(r.value) && r.value.adapter == this && r.value.view == db && !r.value.closed
    {
      if fault { return Err(Fault); }
      var tx := new TxAdapter(this);
      return Ok(tx);
    }

    method NamespaceGetByName(name: string, fault: bool) returns (r: Result<int>)
      ensures r == if fault then Err(Fault) else NamespaceByName(db, name)
    {
      return if fault then Err(Fault) else NamespaceByName(db, name);
    }

    method PluginGetByNamespaceAndName(nsId: int, name: string, fault: bool) returns (r: Result<int>)
      ensures r == if fault then Err(Fault) else PluginByKey(db, nsId, name)
    {
      return if fault then Err(Fault) else PluginByKey(db, nsId, name);
    }

    method PluginVersionGetByPluginAndVersion(pluginId: int, version: string, fault: bool) returns (r: Result<int>)
      ensures r == if fault then Err(Fault) else VersionByKey(db, pluginId, version)
    {
      return if fault then Err(Fault) else VersionByKey(db, pluginId, version);
    }

    // The query answers newest first, whose rows are copied one by one: all versions of the plugin.
    method PluginVersionListByPlugin(pluginId: int, fault: bool) returns (r: Result<seq<(int, Version)>>)
      ensures r.Err? <==> fault
      ensures r.Ok? ==> NewestFirst(r.value)
      ensures r.Ok? && Valid() ==> forall v, row :: (v, row) in r.value <==>
        v in db.versions && db.versions[v] == row && row.pluginId == pluginId
    {
      hide KeysUnique, RefsHold, Named, Released;
      if fault { return Err(Fault); }
      var pvs := Listing(db, pluginId, seqs.version);
      ListingExact(db, pluginId, seqs.version);
      var records := [];
      for i := 0 to |pvs|
        invariant records == pvs[..i]
      {
        records := records + [pvs[i]];
      }
      assert records == pvs;
      return Ok(records);
    }

    method NamespaceCreate(name: string, kind: string, userId: int, fault: bool) returns (r: Result<int>)
      modifies this
      ensures r.Ok? ==>
        !fault && InsertNamespace(old(db), old(seqs), name, kind, userId) == Ok(Inserted(r.value, db, seqs))
      ensures r.Err? ==>
        db == old(db) && seqs == old(seqs) && (fault || InsertNamespace(db, seqs, name, kind, userId) == Err(r.error))
    {
      if fault { return Err(Fault); }
      match InsertNamespace(db, seqs, name, kind, userId) {
        case Err(e) => return Err(e);
        case Ok(row) =>
          db, seqs := row.db, row.seqs;
          return Ok(row.id);
      }
    }

    method UserCreate(email: string, passwordHash: string, fault: bool) returns (r: Result<int>)
      modifies this
      ensures r.Ok? ==>
        !fault && InsertUser(old(db), old(seqs), User(email, passwordHash)) == Ok(Inserted(r.value, db, seqs))
      ensures r.Err? ==>
        db == old(db) && seqs == old(seqs) && (fault || InsertUser(db, seqs, User(email, passwordHash)) == Err(r.error))
    {
      if fault { return Err(Fault); }
      match InsertUser(db, seqs, User(email, passwordHash)) {
        case Err(e) => return Err(e);
        case Ok(row) =>
          db, seqs := row.db, row.seqs;
          return Ok(row.id);
      }
    }

    method UserGetByEmail(email: string, fault: bool) returns (r: Result<int>)
      ensures r == if fault then Err(Fault) else UserByEmail(db, email)
    {
      return if fault then Err(Fault) else UserByEmail(db, email);
    }

    method UserGetByID(id: int, fault: bool) returns (r: Result<User>)
      ensures r == if fault then Err(Fault) else if id in db.users then Ok(db.users[id]) else Err(NotFound)
    {
      return if fault then Err(Fault) else if id in db.users then Ok(db.users[id]) else Err(NotFound);
    }

    method RefreshTokenCreate(userId: int, hash: string, expiresAt: int, fault: bool) returns (r: Result<int>)
      modifies this
      ensures r.Ok? ==>
        !fault && InsertToken(old(db), old(seqs), Token(userId, hash, expiresAt)) == Ok(Inserted(r.value, db, seqs))
      ensures r.Err? ==>
        && db == old(db) && seqs == old(seqs)
        && (fault || InsertToken(db, seqs, Token(userId, hash, expiresAt)) == Err(r.error))
    {
      if fault { return Err(Fault); }
      match InsertToken(db, seqs, Token(userId, hash, expiresAt)) {
        case Err(e) => return Err(e);
        case Ok(row) =>
          db, seqs := row.db, row.seqs;
          return Ok(row.id);
      }
    }

    method RefreshTokenGetByHash(hash: string, fault: bool) returns (r: Result<int>)
      ensures r == if fault then Err(Fault) else TokenByHash(db, hash)
    {
      return if fault then Err(Fault) else TokenByHash(db, hash);
    }

    method RefreshTokenDeleteByID(id: int, fault: bool) returns (r: Result<()>)
      modifies this`db
      ensures r.Ok? <==> !fault && id in old(db).tokens
      ensures db == if r.Ok? then old(db).(tokens := old(db).tokens - {id}) else old(db)
    {
      if fault { return Err(Fault); }
      match DeleteToken(db, id) {
        case Err(e) => return Err(e);
        case Ok(db') =>
          db := db';
          return Ok(());
      }
    }

    // Counts the rows it removes.
    method RefreshTokenDeleteExpired(now: int, fault: bool) returns (r: Result<int>)
      modifies this`db
      ensures r.Err? <==> fault
      ensures db == if fault then old(db) else DeleteExpired(old(db), now)
      ensures r.Ok? ==> forall i :: i in db.tokens <==> i in old(db).tokens && now <= old(db).tokens[i].expiresAt
      ensures r.Ok? ==> r.value == |old(db).tokens| - |db.tokens|
    {
      if fault { return Err(Fault); }
      var before := |db.tokens|;
      db := DeleteExpired(db, now);
      return Ok(before - |db.tokens|);
    }
  }

  // A transaction sees the committed tables as they were when it began, plus its own writes, and
  // nobody else sees the writes before Commit. Ids come from sequences that no rollback rewinds.
  class TxAdapter {
    const adapter: Adapter
    var view: Db
    var closed: bool

    constructor (adapter: Adapter)
      ensures this.adapter == adapter && view == adapter.db && !closed
    {
      this.adapter := adapter;
      view := adapter.db;
      closed := false;
    }

    method Commit(fault: bool) returns (r: Result<()>)
      modifies this`closed, adapter`db
      ensures r.Ok? <==> !fault && !old(closed)
      ensures adapter.db == if r.Ok? then view else old(adapter.db)
      ensures closed == (old(closed) || r.Ok?)
    {
      if fault || closed { return Err(Fault); }
      closed := true;
      adapter.db := view;
      return Ok(());
    }

    // After Commit a rollback does nothing.
    method Rollback()
      modifies this`closed, this`view
      ensures closed
    {
      if !closed { view := adapter.db; }
      closed := true;
    }

    method NamespaceGetByName(name: string, fault: bool) returns (r: Result<int>)
      ensures r == if fault then Err(Fault) else NamespaceByName(view, name)
    {
      return if fault then Err(Fault) else NamespaceByName(view, name);
    }

    method NamespaceCreate(name: string, kind: string, userId: int, fault: bool) returns (r: Result<int>)
      modifies this`view, adapter`seqs
      ensures r.Ok? ==>
        var row := Inserted(r.value, view, adapter.seqs);
        !fault && InsertNamespace(old(view), old(adapter.seqs), name, kind, userId) == Ok(row)
      ensures r.Err? ==> view == old(view) && adapter.seqs == old(adapter.seqs)
      ensures r.Err? ==>
        r.error != NotFound && (fault || InsertNamespace(view, adapter.seqs, name, kind, userId) == Err(r.error))
    {
      if fault { return Err(Fault); }
      match InsertNamespace(view, adapter.seqs, name, kind, userId) {
        case Err(e) => return Err(e);
        case Ok(row) =>
          view, adapter.seqs := row.db, row.seqs;
          return Ok(row.id);
      }
    }

    method PluginGetByNamespaceAndName(nsId: int, name: string, fault: bool) returns (r: Result<int>)
      ensures r == if fault then Err(Fault) else PluginByKey(view, nsId, name)
    {
      return if fault then Err(Fault) else PluginByKey(view, nsId, name);
    }

    method PluginCreate(nsId: int, name: string, displayName: string, description: string, logoUrl: string, fault: bool)
      returns (r: Result<int>)
      modifies this`view, adapter`seqs
      ensures r.Ok? ==> !fault
      ensures var row := Plugin(nsId, name, displayName, description, logoUrl);
        r.Ok? ==> InsertPlugin(old(view), old(adapter.seqs), row) == Ok(Inserted(r.value, view, adapter.seqs))
      ensures r.Err? ==> view == old(view) && adapter.seqs == old(adapter.seqs) && r.error != NotFound
      ensures r.Err? ==>
        fault || InsertPlugin(view, adapter.seqs, Plugin(nsId, name, displayName, description, logoUrl)) == Err(r.error)
    {
      if fault { return Err(Fault); }
      match InsertPlugin(view, adapter.seqs, Plugin(nsId, name, displayName, description, logoUrl)) {
        case Err(e) => return Err(e);
        case Ok(row) =>
          view, adapter.seqs := row.db, row.seqs;
          return Ok(row.id);
      }
    }

    method PluginUpdate(id: int, displayName: string, description: string, logoUrl: string, fault: bool)
      returns (r: Result<()>)
      modifies this`view
      ensures r.Ok? ==> !fault && UpdatePlugin(old(view), id, displayName, description, logoUrl) == Ok(view)
      ensures r.Err? ==>
        view == old(view) && (fault || UpdatePlugin(view, id, displayName, description, logoUrl) == Err(r.error))
    {
      if fault { return Err(Fault); }
      match UpdatePlugin(view, id, displayName, description, logoUrl) {
        case Err(e) => return Err(e);
        case Ok(view') =>
          view := view';
          return Ok(());
      }
    }

    method PluginVersionGetByPluginAndVersion(pluginId: int, version: string, fault: bool) returns (r: Result<int>)
      ensures r == if fault then Err(Fault) else VersionByKey(view, pluginId, version)
    {
      return if fault then Err(Fault) else VersionByKey(view, pluginId, version);
    }

    method PluginVersionCreate(pluginId: int, version: string, release: Release, fault: bool) returns (r: Result<int>)
      modifies this`view, adapter`seqs
      ensures var row := Version(pluginId, version, release);
        r.Ok? ==>
          !fault && InsertVersion(old(view), old(adapter.seqs), row) == Ok(Inserted(r.value, view, adapter.seqs))
      ensures r.Err? ==> view == old(view) && adapter.seqs == old(adapter.seqs)
      ensures r.Err? ==>
        && r.error != NotFound
        && (fault || InsertVersion(view, adapter.seqs, Version(pluginId, version, release)) == Err(r.error))
    {
      if fault { return Err(Fault); }
      match InsertVersion(view, adapter.seqs, Version(pluginId, version, release)) {
        case Err(e) => return Err(e);
        case Ok(row) =>
          view, adapter.seqs := row.db, row.seqs;
          return Ok(row.id);
      }
    }

    method PluginVersionUpdate(id: int, release: Release, fault: bool) returns (r: Result<()>)
      modifies this`view
      ensures r.Ok? ==> !fault && UpdateVersion(old(view), id, release) == Ok(view)
      ensures r.Err? ==> view == old(view) && (fault || UpdateVersion(view, id, release) == Err(r.error))
    {
      if fault { return Err(Fault); }
      match UpdateVersion(view, id, release) {
        case Err(e) => return Err(e);
        case Ok(view') =>
          view := view';
          return Ok(());
      }
    }
  }
}
