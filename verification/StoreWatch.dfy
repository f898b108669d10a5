/** From a store event to the ExternalSecrets it concerns
    (pkg/controller/externalsecret/store_watch.go). */
module StoreWatch {
  import opened ClientKeys
  import opened ExternalSecrets

  datatype Request = Request(namespace: string, name: string)

  /** Does any source of the object resolve to this registry key? */
  predicate Uses(es: ExternalSecret, storeKey: string) {
    exists d :: d in Sources(es.spec) && ResolveClientName(d.storeRef, es.namespace) == storeKey
  }

  predicate LegalKinds(es: ExternalSecret) {
    forall d | d in Sources(es.spec) :: LegalKind(d.storeRef)
  }

  /** utils.IsNamespaceWatched: include mode as soon as one entry is true. */
  predicate Watched(watch: map<string, bool>, namespace: string) {
    if exists n :: n in watch && watch[n] then namespace in watch && watch[namespace]
    else namespace in watch ==> watch[namespace]
  }

  method IsNamespaceWatched(watch: map<string, bool>, namespace: string) returns (w: bool)
    ensures w == Watched(watch, namespace)
  {
    var rest := watch.Keys;
    while rest != {}
      invariant rest <= watch.Keys
      invariant forall n | n in watch && n !in rest :: !watch[n]
      decreases |rest|
    {
      var n :| n in rest;
      if watch[n] {
        return namespace in watch && watch[namespace];
      }
      rest := rest - {n};
    }
    return namespace !in watch || watch[namespace];
  }

  /** The non-empty index keys of some sources. */
  function IndexKeys(ds: seq<DataSource>, ns: string): set<string> {
    set d | d in ds && StoreRefKey(d.storeRef, ns) != "" :: StoreRefKey(d.storeRef, ns)
  }

  lemma IndexKeysSnoc(ds: seq<DataSource>, d: DataSource, ns: string)
    ensures IndexKeys(ds + [d], ns)
         == IndexKeys(ds, ns) + (if StoreRefKey(d.storeRef, ns) != "" then {StoreRefKey(d.storeRef, ns)} else {})
  {
    forall e | e in ds ensures e in ds + [d] {
    }
    assert d in ds + [d];
  }

  /** storeRefIndexKeys: the distinct non-empty index keys of an object. */
  method StoreRefIndexKeys(es: ExternalSecret) returns (seen: set<string>)
    ensures seen == IndexKeys(Sources(es.spec), es.namespace)
  {
    seen := {};
    var ns := es.namespace;
    var data := es.spec.data;
    for i := 0 to |data|
      invariant seen == IndexKeys(data[..i], ns)
    {
      assert data[..i + 1] == data[..i] + [data[i]];
      IndexKeysSnoc(data[..i], data[i], ns);
      var key := StoreRefKey(data[i].storeRef, ns);
      if key != "" {
        seen := seen + {key};
      }
    }
    assert data[..|data|] == data;
    var ps := es.spec.dataProcess;
    assert data + Extracts(ps[..0]) == data;
    for i := 0 to |ps|
      invariant seen == IndexKeys(data + Extracts(ps[..i]), ns)
    {
      assert ps[..i + 1] == ps[..i] + [ps[i]];
      ExtractsSnoc(ps[..i], ps[i]);
      ghost var before := data + Extracts(ps[..i]);
      match ps[i].extract
      case None =>
        assert data + Extracts(ps[..i + 1]) == before;
      case Some(extract) =>
        assert data + Extracts(ps[..i + 1]) == before + [extract];
        IndexKeysSnoc(before, extract, ns);
        var key := StoreRefKey(extract.storeRef, ns);
        if key != "" {
          seen := seen + {key};
        }
    }
    assert ps[..|ps|] == ps;
  }

  /** Membership in the index is use of the store's client, for every store key. */
  lemma IndexedIffUses(es: ExternalSecret, storeKey: string)
    requires LegalKinds(es) && storeKey != "" && storeKey != ENV_CLIENT
    ensures storeKey in IndexKeys(Sources(es.spec), es.namespace) <==> Uses(es, storeKey)
  {
    forall d | d in Sources(es.spec)
      ensures StoreRefKey(d.storeRef, es.namespace) == storeKey
         <==> ResolveClientName(d.storeRef, es.namespace) == storeKey
    {
      RefKeysAgree(d.storeRef, es.namespace);
    }
  }

  function RequestOf(es: ExternalSecret): Request {
    Request(es.namespace, es.name)
  }

  predicate Concerns(es: ExternalSecret, watch: map<string, bool>, storeKey: string) {
    Watched(watch, es.namespace) && Uses(es, storeKey)
  }

  /** Object names are unique within a namespace. */
  predicate DistinctNames(list: seq<ExternalSecret>) {
    forall i, j | 0 <= i < j < |list| :: RequestOf(list[i]) != RequestOf(list[j])
  }

  /** mapStoreToExternalSecrets / mapClusterStoreToExternalSecrets: a store event
      enqueues exactly the watched objects one of whose sources resolves to that
      store's client key, each of them once. */
  method EnqueueReferencing(list: seq<ExternalSecret>, watch: map<string, bool>, store: Owner)
    returns (requests: seq<Request>)
    requires !store.Env? && DistinctNames(list)
    requires forall i | 0 <= i < |list| :: LegalKinds(list[i])
    ensures forall q :: q in requests <==>
      exists i :: 0 <= i < |list| && RequestOf(list[i]) == q && Concerns(list[i], watch, OwnerKey(store))
    ensures forall i, j | 0 <= i < j < |requests| :: requests[i] != requests[j]
  {
    hide Concerns, Watched, Uses, Sources, IndexKeys, LegalKinds, OwnerKey;
    var storeKey := OwnerKey(store);
    StoreKeyIsNotEnv(store);
    requests := [];
    for i := 0 to |list|
      invariant forall q :: q in requests <==>
        exists k :: 0 <= k < i && RequestOf(list[k]) == q && Concerns(list[k], watch, storeKey)
      invariant forall a, b | 0 <= a < b < |requests| :: requests[a] != requests[b]
    {
      var es := list[i];
      var index := StoreRefIndexKeys(es);
      var w := IsNamespaceWatched(watch, es.namespace);
      var concerned := storeKey in index && w;
      ConcernsMeans(es, watch, storeKey);
      if concerned {
        assert RequestOf(es) !in requests;
        requests := requests + [RequestOf(es)];
      }
    }
  }

  lemma ConcernsMeans(es: ExternalSecret, watch: map<string, bool>, storeKey: string)
    requires LegalKinds(es) && storeKey != "" && storeKey != ENV_CLIENT
    ensures Concerns(es, watch, storeKey)
       <==> storeKey in IndexKeys(Sources(es.spec), es.namespace) && Watched(watch, es.namespace)
  {
    IndexedIffUses(es, storeKey);
  }

  lemma StoreKeyIsNotEnv(store: Owner)
    requires !store.Env?
    ensures OwnerKey(store) != "" && OwnerKey(store) != ENV_CLIENT
  {
    match store
    case NamespacedStore(ns, n) => assert OwnerKey(store)[0] == 'n';
    case ClusterStore(n) => assert OwnerKey(store)[0] == 'c';
  }

  /** The two modes, case by case: an excluded namespace is never watched, a listed one
      always, and one that is not mentioned exactly when none is listed. */
  lemma WatchScopes(watch: map<string, bool>, namespace: string)
    ensures namespace in watch && !watch[namespace] ==> !Watched(watch, namespace)
    ensures namespace in watch && watch[namespace] ==> Watched(watch, namespace)
    ensures namespace !in watch ==> (Watched(watch, namespace) <==> true !in watch.Values)
  {
  }
}
