// internal/middleware/auth.go: the two handlers in front of the publish route.
module Gate {
  import opened Wrappers
  import opened Registry
  import opened Store
  import opened Server
  import opened Tables

  datatype Claims = Claims(userId: int, email: string)

  datatype Verdict = Pass | Unauthorized | Forbidden

  // What the handlers of one request share.
  class Locals {
    var claims: Option<Claims>

    constructor ()
      ensures claims.None?
    {
      claims := None;
    }
  }

  // parse stands for the check of an access token. Only what follows the scheme is checked, and only a
  // header that passes sets the caller.
  method AuthRequired(c: Locals, header: string, parse: string -> Option<Claims>) returns (r: Verdict)
    modifies c
    ensures forall t | t != "" && header == "Bearer " + t :: r == if parse(t).Some? then Pass else Unauthorized
    ensures forall t | t != "" && header == "Bearer " + t :: r == Pass ==> c.claims == parse(t)
    ensures (forall t: string :: t == "" || header != "Bearer " + t) ==> r == Unauthorized
    ensures r != Pass ==> r == Unauthorized && c.claims == old(c.claims)
  {
    forall t | header == "Bearer " + t ensures header[..7] == "Bearer " && header[7..] == t {}
    if |header| < 7 || header[..7] != "Bearer " { return Unauthorized; }
    var token := header[7..];
    if token == "" { return Unauthorized; }
    var claims := parse(token);
    if claims.None? { return Unauthorized; }
    assert header == "Bearer " + token;
    c.claims := claims;
    return Pass;
  }

  // The gate asks for ownership, no more and no less.
  lemma GateIsOwnership(db: Db, ns: string, userId: int)
    requires Sound(db)
    ensures MayPublish(db, ns, userId) <==> ns in Owners(db) && Owners(db)[ns] == Some(userId)
    ensures MayPublish(db, ns, userId) <==>
      exists n :: n in db.namespaces && db.namespaces[n] == Namespace(ns, db.namespaces[n].kind, Some(userId))
  {
    hide RefsHold, Named, Owners, Only;
    NamespaceRead(db, ns);
    forall n | n in db.namespaces && db.namespaces[n].name == ns ensures NamespaceByName(db, ns) == Ok(n) {
      OnlyFinds(NamespaceKeys(db.namespaces), n);
    }
  }

  method RequireNamespace(c: Locals, nsName: string, store: Adapter, fault: bool) returns (r: Verdict)
    ensures r == Unauthorized <==> c.claims.None?
    ensures r == Pass <==> c.claims.Some? && !fault && MayPublish(store.db, nsName, c.claims.value.userId)
  {
    if c.claims.None? { return Unauthorized; }
    var ns := store.NamespaceGetByName(nsName, fault);
    if ns.Err? { return Forbidden; }
    var owner := store.db.namespaces[ns.value].owner;
    if owner.None? || owner.value != c.claims.value.userId { return Forbidden; }
    return Pass;
  }

  // The publish route starts a transaction only for a caller with a valid token who owns the namespace:
  // exactly when the server machine lets that caller's publish begin.
  method PublishRoute(header: string, p: Publication, parse: string -> Option<Claims>, store: Adapter, fault: bool)
    returns (caller: Option<int>)
    ensures forall t | t != "" && header == "Bearer " + t ::
      caller == if parse(t).Some? && !fault && MayPublish(store.db, p.key.ns, parse(t).value.userId)
                then Some(parse(t).value.userId) else None
    ensures (forall t: string :: t == "" || header != "Bearer " + t) ==> caller == None
    ensures caller.Some? ==> forall s: State, t | s.db == store.db && t !in s.txs ::
      Next(s, Begin(t, p, caller)) == s.(txs := s.txs[t := Begun(p, caller)])
  {
    var c := new Locals();
    var auth := AuthRequired(c, header, parse);
    if auth != Pass { return None; }
    var gate := RequireNamespace(c, p.key.ns, store, fault);
    if gate != Pass { return None; }
    return Some(c.claims.value.userId);
  }
}
