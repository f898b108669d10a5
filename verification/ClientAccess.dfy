/** From an entry's store reference to the client its document is fetched with
    (getOrCreateClient and the checks it calls), and what that means for the values a
    sync round delivers. */
module ClientAccess {
  import opened Wrappers
  import opened ClientKeys
  import opened ExternalSecrets
  import opened SyncFetch
  import StoreProtocol
  import StoreReconciler
  import StoreStatus
  import StoreTheorems

  datatype Flags = Flags(enableCrossNamespace: bool, processClusterStores: bool)

  /** The stores that exist, under their client keys. */
  type Stores = map<string, StoreProtocol.Store>

  type Clients = StoreProtocol.Registry

  /** What the environment decides: the namespace conditions of a cluster store, whether
      a client can be constructed, from which credentials, and the ENV client. */
  datatype Outcome = Outcome(allowed: bool, buildOk: bool, epoch: nat, env: Option<StoreProtocol.Client>)

  datatype Access = Served(client: StoreProtocol.Client) | Refused(error: Error)

  predicate IsCluster(r: SecretStoreRef) {
    r.kind == KIND_CLUSTER_STORE
  }

  function StoreKey(r: SecretStoreRef, ns: string): string {
    ResolveClientName(Some(r), ns)
  }

  function AccessKey(ref: Option<SecretStoreRef>, ns: string, endpoint: string): string {
    CompositeClientKey(ResolveClientName(ref, ns), NormalizeEndpoint(endpoint))
  }

  /** The store exists and this namespace may use it through this reference. */
  predicate Accessible(f: Flags, allowed: bool, stores: Stores, r: SecretStoreRef, ns: string) {
    && LegalKind(Some(r))
    && StoreKey(r, ns) in stores
    && (if IsCluster(r) then allowed else f.enableCrossNamespace || r.namespace == "" || r.namespace == ns)
  }

  /** The freshness guard, with its exemption for a disabled cluster store controller. */
  predicate Admits(f: Flags, stores: Stores, r: SecretStoreRef, ns: string)
    requires StoreKey(r, ns) in stores
  {
    StoreTheorems.GuardAdmits(stores[StoreKey(r, ns)], !(IsCluster(r) && !f.processClusterStores))
  }

  predicate Serves(f: Flags, o: Outcome, clients: Clients, stores: Stores,
                   ref: Option<SecretStoreRef>, ns: string, endpoint: string)
  {
    var key := AccessKey(ref, ns, endpoint);
    match ref
    case None => key in clients || (if NormalizeEndpoint(endpoint) == "" then o.env.Some? else o.buildOk)
    case Some(r) =>
      && Accessible(f, o.allowed, stores, r, ns)
      && (if key in clients then Admits(f, stores, r, ns) else o.buildOk)
  }

  /** What a call may leave: a served client is the cached one or one built from the
      store as it is now, and registered; a refusal registers nothing, and is the stale
      one exactly when only the freshness guard stands in the way. */
  predicate IsAccess(f: Flags, o: Outcome, before: Clients, after: Clients, stores: Stores,
                     ref: Option<SecretStoreRef>, ns: string, endpoint: string, access: Access)
  {
    var key := AccessKey(ref, ns, endpoint);
    && (access.Served? <==> Serves(f, o, before, stores, ref, ns, endpoint))
    && (access.Served? && key in before ==> access.client == before[key] && after == before)
    && (access.Served? && key !in before ==> after == before[key := access.client])
    && (access.Served? && key !in before && ref.Some? ==>
          var store := stores[StoreKey(ref.value, ns)];
          access.client == StoreProtocol.Client(store.uid, store.generation, o.epoch))
    && (access.Served? && key !in before && ref.None? ==>
          access.client == if o.env.Some? && NormalizeEndpoint(endpoint) == "" then o.env.value
                           else StoreProtocol.Client(0, 0, o.epoch))
    && (access.Refused? ==>
          && after == before
          && (access.error.StaleClient? <==>
                && ref.Some? && key in before && Accessible(f, o.allowed, stores, ref.value, ns)
                && !Admits(f, stores, ref.value, ns)))
  }

  // ---------------------------------------------------------- imperative form

  /** The reconciler's provider and its view of the stores. */
  class Source {
    const flags: Flags
    var clients: Clients
    var stores: Stores

    constructor (flags: Flags, stores: Stores)
      ensures this.flags == flags && this.stores == stores && clients == map[]
    {
      this.flags, this.stores, clients := flags, stores, map[];
    }

    /** validateSecretStoreAccess. */
    method ValidateSecretStoreAccess(r: SecretStoreRef, ns: string, allowed: bool) returns (error: Option<Error>)
      ensures error.None? <==> Accessible(flags, allowed, stores, r, ns)
      ensures error.Some? ==> error.value.Failure?
    {
      var kind := if r.kind == "" then KIND_STORE else r.kind;
      if kind == KIND_CLUSTER_STORE {
        if ClusterStoreKey(r.name) !in stores {
          return Some(Failure("failed to get ClusterSecretStore"));
        }
        return if allowed then None else Some(Failure("namespace not allowed"));
      }
      if kind == KIND_STORE {
        var namespace := if r.namespace != "" then r.namespace else ns;
        if !flags.enableCrossNamespace && r.namespace != "" && r.namespace != ns {
          return Some(Failure("cross namespace reference is disabled"));
        }
        return if SecretStoreKey(namespace, r.name) in stores then None else Some(Failure("failed to get SecretStore"));
      }
      return Some(Failure("unsupported kind"));
    }

    /** ensureStoreClientFresh. */
    method EnsureStoreClientFresh(r: SecretStoreRef, ns: string) returns (error: Option<Error>)
      ensures error.None? <==> LegalKind(Some(r)) && StoreKey(r, ns) in stores && Admits(flags, stores, r, ns)
      ensures error == Some(StaleClient)
         <==> LegalKind(Some(r)) && StoreKey(r, ns) in stores && !Admits(flags, stores, r, ns)
    {
      var kind := if r.kind == "" then KIND_STORE else r.kind;
      if kind != KIND_CLUSTER_STORE && kind != KIND_STORE {
        return Some(Failure("unsupported kind"));
      }
      if StoreKey(r, ns) !in stores {
        return Some(Failure("failed to get store"));
      }
      var store := stores[StoreKey(r, ns)];
      if kind == KIND_CLUSTER_STORE && !flags.processClusterStores {
        return None;
      }
      var observed := StoreStatus.ReadyObserved(store.status);
      if observed.None? {
        return None;
      }
      if observed.value != store.generation {
        return Some(StaleClient);
      }
      return if store.trigger != 0 then Some(StaleClient) else None;
    }

    /** getSecretStore: its checks are written out a second time and agree with those of
        the cached path. */
    method GetSecretStore(r: SecretStoreRef, ns: string, allowed: bool)
      returns (store: Result<StoreProtocol.Store, Error>)
      ensures store.Ok? <==> Accessible(flags, allowed, stores, r, ns)
      ensures store.Ok? ==> store.value == stores[StoreKey(r, ns)]
      ensures store.Err? ==> store.error.Failure?
    {
      if !flags.enableCrossNamespace && r.namespace != "" && r.namespace != ns && r.kind != KIND_CLUSTER_STORE {
        return Err(Failure("cross namespace reference is disabled"));
      }
      var kind := if r.kind == "" then KIND_STORE else r.kind;
      if kind != KIND_CLUSTER_STORE && kind != KIND_STORE {
        return Err(Failure("unsupported kind"));
      }
      if StoreKey(r, ns) !in stores {
        return Err(Failure("failed to get store"));
      }
      if kind == KIND_CLUSTER_STORE && !allowed {
        return Err(Failure("namespace not allowed"));
      }
      return Ok(stores[StoreKey(r, ns)]);
    }

    method GetOrCreateClient(ref: Option<SecretStoreRef>, ns: string, kmsEndpoint: string, o: Outcome)
      returns (access: Access)
      modifies this`clients
      ensures IsAccess(flags, o, old(clients), clients, stores, ref, ns, kmsEndpoint, access)
    {
      hide Accessible, Admits, LegalKind;
      var endpoint := NormalizeEndpoint(kmsEndpoint);
      var clientKey := CompositeClientKey(ResolveClientName(ref, ns), endpoint);
      AccessibleMeans(flags, o.allowed, stores, ref, ns);
      if clientKey in clients {
        if ref.Some? {
          var invalid := ValidateSecretStoreAccess(ref.value, ns, o.allowed);
          if invalid.Some? {
            return Refused(invalid.value);
          }
          var stale := EnsureStoreClientFresh(ref.value, ns);
          if stale.Some? {
            return Refused(stale.value);
          }
        }
        return Served(clients[clientKey]);
      }
      if ref.None? {
        if endpoint == "" {
          if o.env.None? {
            return Refused(Failure("generic ENV client not available"));
          }
          clients := clients[clientKey := o.env.value];
          return Served(o.env.value);
        }
        if !o.buildOk {
          return Refused(Failure("init ENV client failed"));
        }
        var client := StoreProtocol.Client(0, 0, o.epoch);
        clients := clients[clientKey := client];
        return Served(client);
      }
      var store := GetSecretStore(ref.value, ns, o.allowed);
      if store.Err? {
        return Refused(store.error);
      }
      if !o.buildOk {
        return Refused(Failure("init client failed"));
      }
      var client := StoreProtocol.Client(store.value.uid, store.value.generation, o.epoch);
      clients := clients[clientKey := client];
      return Served(client);
    }
  }

  lemma AccessibleMeans(f: Flags, allowed: bool, stores: Stores, ref: Option<SecretStoreRef>, ns: string)
    ensures ref.Some? && Accessible(f, allowed, stores, ref.value, ns) ==>
              LegalKind(ref) && StoreKey(ref.value, ns) in stores
  {
  }

  /** Which references lead to a store, spelled out by kind. */
  lemma AccessRules(f: Flags, allowed: bool, stores: Stores, r: SecretStoreRef, ns: string)
    ensures r.kind == "ClusterSecretStore" ==>
              (Accessible(f, allowed, stores, r, ns) <==> "cluster/" + r.name in stores && allowed)
    ensures r.kind == "" || r.kind == "SecretStore" ==>
              (Accessible(f, allowed, stores, r, ns) <==>
                 if r.namespace == "" then "namespace/" + ns + "/" + r.name in stores
                 else "namespace/" + r.namespace + "/" + r.name in stores
                      && (f.enableCrossNamespace || r.namespace == ns))
    ensures r.kind !in {"", "SecretStore", "ClusterSecretStore"} ==> !Accessible(f, allowed, stores, r, ns)
  {
  }

  /** The ways to be served. A cached client of an accessible store is used when a round
      has settled the store, and always when the store is a cluster store whose controller
      is disabled; without a cached client, one that can be built is. */
  lemma AccessServes(f: Flags, o: Outcome, before: Clients, after: Clients, stores: Stores,
                     r: SecretStoreRef, ns: string, endpoint: string, access: Access)
    requires IsAccess(f, o, before, after, stores, Some(r), ns, endpoint, access)
    requires Accessible(f, o.allowed, stores, r, ns)
    ensures var key := AccessKey(Some(r), ns, endpoint); var store := stores[StoreKey(r, ns)];
      && (key in before && IsCluster(r) && !f.processClusterStores ==> access == Served(before[key]))
      && (key in before && StoreStatus.ReadyObserved(store.status) == Some(store.generation) && store.trigger == 0 ==>
            access == Served(before[key]))
      && (key in before && StoreStatus.Ready(store.status).None? ==> access == Served(before[key]))
      && (key !in before && o.buildOk ==>
            access.Served? && after == before[key := StoreProtocol.Client(store.uid, store.generation, o.epoch)])
  {
    hide Accessible, AccessKey;
  }

  /** An entry without a store reference uses the ENV client, which is registered when it is
      first needed, or a client of its endpoint built from the same environment. */
  lemma EnvironmentServes(f: Flags, o: Outcome, before: Clients, after: Clients, stores: Stores,
                          ns: string, endpoint: string, access: Access)
    requires IsAccess(f, o, before, after, stores, None, ns, endpoint, access)
    ensures var plain := NormalizeEndpoint(endpoint) == "";
            var key := if plain then ENV_CLIENT else ENV_CLIENT + "#" + NormalizeEndpoint(endpoint);
      && (key in before ==> access == Served(before[key]) && after == before)
      && (key !in before && plain && o.env.Some? ==>
            access == Served(o.env.value) && after == before[ENV_CLIENT := o.env.value])
      && (key !in before && !plain && o.buildOk ==> access.Served? && after == before[key := access.client])
      && (key !in before && (if plain then o.env.None? else !o.buildOk) ==> access.Refused? && after == before)
      && access != Refused(StaleClient)
  {
  }

  /** Each endpoint has its own client, under a key the object answers for; entries of one
      store share a client exactly when their endpoints agree but for the space around them. */
  lemma EndpointsHaveTheirOwnClients(es: ExternalSecret, d: DataSource, endpoint: string)
    requires d in Sources(es.spec)
    ensures var key := AccessKey(d.storeRef, es.namespace, d.kmsEndpoint);
      && (if NormalizeEndpoint(d.kmsEndpoint) == "" then key == ResolveClientName(d.storeRef, es.namespace)
          else key in CompositeKeys(es))
      && (AccessKey(d.storeRef, es.namespace, endpoint) == key
          <==> NormalizeEndpoint(endpoint) == NormalizeEndpoint(d.kmsEndpoint))
  {
    SuffixesDiffer(ResolveClientName(d.storeRef, es.namespace), endpoint, d.kmsEndpoint);
    hide NormalizeEndpoint, ResolveClientName, Sources;
  }

  lemma SuffixesDiffer(name: string, a: string, b: string)
    ensures CompositeClientKey(name, NormalizeEndpoint(a)) == CompositeClientKey(name, NormalizeEndpoint(b))
       <==> NormalizeEndpoint(a) == NormalizeEndpoint(b)
  {
    var x, y := CompositeClientKey(name, NormalizeEndpoint(a)), CompositeClientKey(name, NormalizeEndpoint(b));
    hide NormalizeEndpoint;
    if NormalizeEndpoint(a) != "" {
      assert x[|name| + 1..] == NormalizeEndpoint(a);
    }
    if NormalizeEndpoint(b) != "" {
      assert y[|name| + 1..] == NormalizeEndpoint(b);
    }
    assert |x| == |name| <==> NormalizeEndpoint(a) == "";
    assert |y| == |name| <==> NormalizeEndpoint(b) == "";
  }

  /** The way back: after one undisturbed, fault-free round over a valid spec, from any
      reachable state of the store, every accessible entry is served, from the cache or
      by building a client. */
  lemma RoundRestoresAccess(key: string, sp: StoreProtocol.Spec, ls: seq<StoreProtocol.Label>,
                            g: StoreReconciler.Outcome, p: StoreProtocol.Provider, f: Flags, o: Outcome, after: Clients,
                            r: SecretStoreRef, ns: string, endpoint: string, access: Access)
    requires StoreProtocol.IsRun(StoreProtocol.Init(key, sp), ls, true) && StoreReconciler.FaultFree(g)
    requires StoreKey(r, ns) == key && o.buildOk
    requires var s := StoreProtocol.Exec(StoreProtocol.Init(key, sp), ls);
      && |s.log| > 0 && s.round.Idle? && !StoreProtocol.Cur(s).gone && !StoreProtocol.Cur(s).deleting
      && StoreProtocol.ValidSpec(StoreProtocol.Cur(s).spec)
      && var t := StoreReconciler.RunRound(s, g);
         && Accessible(f, o.allowed, StoresIn(t), r, ns)
         && IsAccess(f, o, StoreProtocol.Get(t, p), after, StoresIn(t), Some(r), ns, endpoint, access)
    ensures access.Served?
  {
    StoreReconciler.RoundReopensGuard(key, sp, ls, g);
    hide StoreProtocol.Exec, StoreProtocol.IsRun, StoreReconciler.RunRound, NormalizeEndpoint, Accessible;
    hide StoreTheorems.GuardAdmits;
    var t := StoreReconciler.RunRound(StoreProtocol.Exec(StoreProtocol.Init(key, sp), ls), g);
    AccessibleMeans(f, o.allowed, StoresIn(t), Some(r), ns);
    StoreTheorems.GuardWithoutController(StoreProtocol.Cur(t));
  }

  // ------------------------------------------------------------ unindexed entries

  /** Leaving a reference out of the store index loses nothing: the references without
      an index key are exactly those no call ever serves, whatever is cached, exists or
      is configured. */
  lemma UnindexedIsNeverServed(r: SecretStoreRef, ns: string)
    ensures StoreRefKey(Some(r), ns) == ""
       <==> forall f, o, clients, stores, endpoint :: !Serves(f, o, clients, stores, Some(r), ns, endpoint)
  {
    RefKeysAgree(Some(r), ns);
    if LegalKind(Some(r)) {
      var store := StoreProtocol.Fresh(0, StoreProtocol.Spec(true, false, true, ""));
      var stores: Stores := map[StoreKey(r, ns) := store];
      assert StoreKey(r, ns) in stores;
      assert Serves(Flags(true, true), Outcome(true, true, 0, None), map[], stores, Some(r), ns, "");
    }
  }

  // ------------------------------------------------- the protocol's cache miss

  /** What the reconciler sees of one store in a state of the protocol. */
  function StoresIn(s: StoreProtocol.State): Stores
    requires |s.log| > 0
  {
    if StoreProtocol.Cur(s).gone then map[] else map[s.key := StoreProtocol.Cur(s)]
  }

  /** A call for one of the store's clients is a step of the protocol: it registers
      nothing, or it is the cache-miss step. */
  lemma AccessIsProtocolStep(s: StoreProtocol.State, p: StoreProtocol.Provider, f: Flags, o: Outcome, after: Clients,
                             r: SecretStoreRef, ns: string, endpoint: string, access: Access)
    requires |s.log| > 0 && StoreKey(r, ns) == s.key && o.epoch == s.epoch
    requires IsAccess(f, o, StoreProtocol.Get(s, p), after, StoresIn(s), Some(r), ns, endpoint, access)
    ensures var miss := StoreProtocol.Miss(p, AccessKey(Some(r), ns, endpoint));
      || after == StoreProtocol.Get(s, p)
      || (StoreProtocol.Enabled(s, miss) && after == StoreProtocol.Get(StoreProtocol.Apply(s, miss), p))
  {
    var key := AccessKey(Some(r), ns, endpoint);
    assert IsVariant(s.key, key);
    hide NormalizeEndpoint, LegalKind, Admits;
  }

  lemma {:induction false} KeyStays(s: StoreProtocol.State, ls: seq<StoreProtocol.Label>)
    requires StoreProtocol.IsRun(s, ls, true)
    ensures StoreProtocol.Exec(s, ls).key == s.key
    decreases |ls|
  {
    if ls != [] {
      KeyStep(s, ls[0]);
      KeyStays(StoreProtocol.Apply(s, ls[0]), ls[1..]);
      hide StoreProtocol.Apply, StoreProtocol.Enabled;
    }
  }

  lemma KeyStep(s: StoreProtocol.State, l: StoreProtocol.Label)
    requires StoreProtocol.Enabled(s, l)
    ensures StoreProtocol.Apply(s, l).key == s.key
  {
    hide StoreProtocol.Wanted, StoreStatus.ShouldWrite, StoreProtocol.MustRebuild, StoreProtocol.ValidSpec;
  }

  /** A state of the store `key` that some run with own-write reads leads to. */
  ghost predicate Reached(key: string, s: StoreProtocol.State) {
    && |s.log| > 0
    && exists sp, ls :: StoreProtocol.IsRun(StoreProtocol.Init(key, sp), ls, true)
                        && StoreProtocol.Exec(StoreProtocol.Init(key, sp), ls) == s
  }

  /** Built from the store object as it is now. */
  predicate Current(client: StoreProtocol.Client, s: StoreProtocol.State)
    requires |s.log| > 0
  {
    client.uid == StoreProtocol.Cur(s).uid && client.generation == StoreProtocol.Cur(s).generation
  }

  /** In every run, a client served for a managed store while its controller is enabled
      was built from that very store at its current generation, and if it was cached no
      trigger is pending. */
  lemma ServedClientIsCurrent(s: StoreProtocol.State, p: StoreProtocol.Provider, f: Flags, o: Outcome, after: Clients,
                              r: SecretStoreRef, ns: string, endpoint: string, access: Access)
    requires Reached(StoreKey(r, ns), s) && (IsCluster(r) ==> f.processClusterStores)
    requires IsAccess(f, o, StoreProtocol.Get(s, p), after, StoresIn(s), Some(r), ns, endpoint, access)
    requires access.Served? && StoreTheorems.Managed(StoreProtocol.Cur(s))
    ensures Current(access.client, s)
    ensures AccessKey(Some(r), ns, endpoint) in StoreProtocol.Get(s, p) ==> StoreProtocol.Cur(s).trigger == 0
  {
    var key := StoreKey(r, ns);
    var sp, ls :| StoreProtocol.IsRun(StoreProtocol.Init(key, sp), ls, true)
                  && StoreProtocol.Exec(StoreProtocol.Init(key, sp), ls) == s;
    KeyStays(StoreProtocol.Init(key, sp), ls);
    StoreTheorems.GuardedClientsAreCurrent(key, sp, ls);
    assert IsVariant(s.key, AccessKey(Some(r), ns, endpoint));
    hide StoreProtocol.Exec, StoreProtocol.IsRun, StoreTheorems.Managed;
    hide NormalizeEndpoint, LegalKind, AccessKey, IsVariant;
  }
}
