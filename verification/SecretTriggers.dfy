/** The Secret controller: which stores a changed Secret triggers, and what its
    whole-loop retries may repeat (secret_controller.go). */
module SecretTriggers {
  import opened Wrappers
  import opened ClientKeys

  datatype SecretRef = SecretRef(name: string, namespace: string)

  /** The credential references of one provider's auth block. */
  datatype Auth = Auth(accessKey: Option<SecretRef>, accessKeySecret: Option<SecretRef>)

  /** Each provider block may be absent, or present without an auth block. */
  datatype StoreSpec = StoreSpec(kms: Option<Option<Auth>>, oos: Option<Option<Auth>>)

  /** A store as the controller's List returned it; it may be stale. */
  datatype Listed = Listed(name: string, namespace: string, cluster: bool, spec: StoreSpec, trigger: nat)

  function Id(s: Listed): string {
    if s.cluster then ClusterStoreKey(s.name) else SecretStoreKey(s.namespace, s.name)
  }

  // ------------------------------------------------------------------ matching

  predicate CheckSecret(secret: SecretRef, ref: Option<SecretRef>, storeNamespace: string) {
    if ref.None? then false
    else
      var expected := if ref.value.namespace == "" then storeNamespace else ref.value.namespace;
      secret.name == ref.value.name && secret.namespace == expected
  }

  predicate AuthMatches(secret: SecretRef, provider: Option<Option<Auth>>, storeNamespace: string) {
    && provider.Some? && provider.value.Some?
    && (|| CheckSecret(secret, provider.value.value.accessKey, storeNamespace)
        || CheckSecret(secret, provider.value.value.accessKeySecret, storeNamespace))
  }

  /** secretIsReferenced and its cluster twin, which passes no namespace. */
  predicate SecretIsReferenced(secret: SecretRef, s: Listed) {
    var ns := if s.cluster then "" else s.namespace;
    AuthMatches(secret, s.spec.kms, ns) || AuthMatches(secret, s.spec.oos, ns)
  }

  function RefsOf(provider: Option<Option<Auth>>): set<SecretRef> {
    if provider.None? || provider.value.None? then {}
    else
      (if provider.value.value.accessKey.Some? then {provider.value.value.accessKey.value} else {})
      + (if provider.value.value.accessKeySecret.Some? then {provider.value.value.accessKeySecret.value} else {})
  }

  /** The Secrets a store's credentials live in. */
  function Credentials(s: Listed): set<SecretRef> {
    set ref | ref in RefsOf(s.spec.kms) + RefsOf(s.spec.oos) ::
      SecretRef(ref.name, if ref.namespace != "" then ref.namespace else if s.cluster then "" else s.namespace)
  }

  /** The matcher finds exactly the stores whose credentials the Secret holds. A
      cluster store's reference without a namespace matches no namespaced Secret. */
  lemma ReferencedIffCredential(secret: SecretRef, s: Listed)
    ensures SecretIsReferenced(secret, s) <==> secret in Credentials(s)
    ensures secret.namespace != "" && s.cluster
            && (forall ref | ref in RefsOf(s.spec.kms) + RefsOf(s.spec.oos) :: ref.namespace == "") ==>
              !SecretIsReferenced(secret, s)
  {
    var refs := RefsOf(s.spec.kms) + RefsOf(s.spec.oos);
    var ns := if s.cluster then "" else s.namespace;
    assert SecretIsReferenced(secret, s) <==> exists ref :: ref in refs && CheckSecret(secret, Some(ref), ns);
  }

  // ------------------------------------------------------------------ patching

  /** The live annotations and the clock behind their values. The books say how often
      each store was patched, how often its trigger was cleared, and how often a patch
      replaced a trigger that was still pending. */
  datatype World = World(
    triggers: map<string, nat>, clock: nat,
    patches: multiset<string>, clears: multiset<string>, overwrites: multiset<string>)

  datatype Sweep = Sweep(world: World, completed: bool)

  /** A listing, and which patches of its stores the API accepts. */
  datatype Batch = Batch(stores: seq<Listed>, ok: seq<bool>)

  predicate WellFormed(b: Batch) {
    |b.ok| == |b.stores|
  }

  predicate Due(secret: SecretRef, s: Listed) {
    SecretIsReferenced(secret, s) && s.trigger == 0
  }

  predicate Pending(w: World, id: string) {
    id in w.triggers && w.triggers[id] != 0
  }

  function Patch(w: World, id: string): World {
    World(w.triggers[id := w.clock + 1], w.clock + 1, w.patches + multiset{id}, w.clears,
          if Pending(w, id) then w.overwrites + multiset{id} else w.overwrites)
  }

  /** One pass over a listing. A store that is gone is skipped, any other failure ends
      the pass. */
  function SweepOver(w: World, secret: SecretRef, b: Batch): Sweep
    requires WellFormed(b)
    decreases |b.stores|
  {
    if b.stores == [] then Sweep(w, true)
    else
      var n := |b.stores| - 1;
      var before := SweepOver(w, secret, Prefix(b, n));
      var id := Id(b.stores[n]);
      if !before.completed || !Due(secret, b.stores[n]) || id !in before.world.triggers then before
      else if b.ok[n] then Sweep(Patch(before.world, id), true)
      else Sweep(before.world, false)
  }

  function Prefix(b: Batch, n: nat): Batch
    requires WellFormed(b) && n <= |b.stores|
  {
    Batch(b.stores[..n], b.ok[..n])
  }

  /** A round: the Secret cannot be read, a listing fails, or the passes run; the cluster
      pass may be switched off. */
  function RoundOf(processClusterStores: bool, w: World, secret: SecretRef, readable: bool,
                   stores: Option<Batch>, clusterStores: Option<Batch>): Sweep
    requires stores.Some? ==> WellFormed(stores.value)
    requires clusterStores.Some? ==> WellFormed(clusterStores.value)
  {
    if !readable || stores.None? then Sweep(w, false)
    else
      var first := SweepOver(w, secret, stores.value);
      if !first.completed || !processClusterStores then first
      else if clusterStores.None? then Sweep(first.world, false)
      else SweepOver(first.world, secret, clusterStores.value)
  }

  class Controller {
    const processClusterStores: bool
    var triggers: map<string, nat>
    var clock: nat
    ghost var patches: multiset<string>
    ghost var clears: multiset<string>
    ghost var overwrites: multiset<string>

    constructor (processClusterStores: bool)
      ensures this.processClusterStores == processClusterStores
      ensures Model() == World(map[], 0, multiset{}, multiset{}, multiset{})
    {
      this.processClusterStores := processClusterStores;
      triggers, clock := map[], 0;
      patches, clears, overwrites := multiset{}, multiset{}, multiset{};
    }

    ghost function Model(): World
      reads this
    {
      World(triggers, clock, patches, clears, overwrites)
    }

    /** PatchTriggerAnnotation on a store that exists. */
    method PatchTrigger(id: string)
      modifies this
      ensures Model() == Patch(old(Model()), id)
    {
      overwrites := if Pending(Model(), id) then overwrites + multiset{id} else overwrites;
      patches := patches + multiset{id};
      clock := clock + 1;
      triggers := triggers[id := clock];
    }

    method TriggerStores(secret: SecretRef, b: Batch) returns (completed: bool)
      requires WellFormed(b)
      modifies this
      ensures Sweep(Model(), completed) == SweepOver(old(Model()), secret, b)
    {
      hide SecretIsReferenced, Id, Patch, SweepOver;
      assert SweepOver(Model(), secret, Prefix(b, 0)) == Sweep(Model(), true) by {
        EmptySweep(Model(), secret, b);
      }
      ghost var w := Model();
      for i := 0 to |b.stores|
        invariant Sweep(Model(), true) == SweepOver(w, secret, Prefix(b, i))
      {
        SweepStep(w, secret, b, i);
        if !SecretIsReferenced(secret, b.stores[i]) || b.stores[i].trigger != 0 || Id(b.stores[i]) !in triggers {
          continue;
        }
        if !b.ok[i] {
          StoppedSweep(w, secret, b, i + 1);
          return false;
        }
        PatchTrigger(Id(b.stores[i]));
      }
      assert Prefix(b, |b.stores|) == b;
      return true;
    }

    method Reconcile(secret: SecretRef, readable: bool, stores: Option<Batch>, clusterStores: Option<Batch>)
      returns (completed: bool)
      requires stores.Some? ==> WellFormed(stores.value)
      requires clusterStores.Some? ==> WellFormed(clusterStores.value)
      modifies this
      ensures Sweep(Model(), completed)
           == RoundOf(processClusterStores, old(Model()), secret, readable, stores, clusterStores)
    {
      if !readable || stores.None? {
        return false;
      }
      completed := TriggerStores(secret, stores.value);
      if !completed || !processClusterStores {
        return;
      }
      if clusterStores.None? {
        return false;
      }
      completed := TriggerStores(secret, clusterStores.value);
    }
  }

  lemma EmptySweep(w: World, secret: SecretRef, b: Batch)
    requires WellFormed(b)
    ensures SweepOver(w, secret, Prefix(b, 0)) == Sweep(w, true)
  {
  }

  lemma SweepStep(w: World, secret: SecretRef, b: Batch, i: nat)
    requires WellFormed(b) && i < |b.stores|
    ensures var before := SweepOver(w, secret, Prefix(b, i)); var id := Id(b.stores[i]);
      SweepOver(w, secret, Prefix(b, i + 1))
      == if !before.completed || !Due(secret, b.stores[i]) || id !in before.world.triggers then before
         else if b.ok[i] then Sweep(Patch(before.world, id), true)
         else Sweep(before.world, false)
  {
    hide Patch, Due, Id;
    assert b.stores[..i + 1][..i] == b.stores[..i] && b.ok[..i + 1][..i] == b.ok[..i];
  }

  lemma {:induction false} StoppedSweep(w: World, secret: SecretRef, b: Batch, i: nat)
    requires WellFormed(b) && i <= |b.stores| && !SweepOver(w, secret, Prefix(b, i)).completed
    ensures SweepOver(w, secret, b) == SweepOver(w, secret, Prefix(b, i))
    decreases |b.stores|
  {
    hide Patch, Due, Id;
    if i < |b.stores| {
      var shorter := Prefix(b, |b.stores| - 1);
      assert shorter.stores[..i] == b.stores[..i] && shorter.ok[..i] == b.ok[..i];
      StoppedSweep(w, secret, shorter, i);
    } else {
      assert Prefix(b, i) == b;
    }
  }

  /** A pass touches exactly the due stores; when it completes, every due store that
      still exists carries a trigger stamped during the pass. */
  lemma {:induction false} SweepIsExact(w: World, secret: SecretRef, b: Batch, id: string)
    requires WellFormed(b)
    ensures var r := SweepOver(w, secret, b);
      && r.world.triggers.Keys == w.triggers.Keys && r.world.clock >= w.clock
      && (id in w.triggers ==>
            r.world.triggers[id] == w.triggers[id] || w.clock < r.world.triggers[id] <= r.world.clock)
      && ((forall s | s in b.stores && Id(s) == id :: !Due(secret, s)) && id in w.triggers ==>
            r.world.triggers[id] == w.triggers[id])
      && (r.completed && id in w.triggers && (exists s :: s in b.stores && Id(s) == id && Due(secret, s)) ==>
            w.clock < r.world.triggers[id])
    decreases |b.stores|
  {
    if b.stores != [] {
      var n := |b.stores| - 1;
      SweepIsExact(w, secret, Prefix(b, n), id);
      assert b.stores == b.stores[..n] + [b.stores[n]];
      assert b.stores[n] in b.stores;
      hide SecretIsReferenced, Id;
    }
  }

  // -------------------------------------------------------------- amplification

  /** The work queue's attempts, in between which the store controllers clear triggers. */
  datatype Event = Attempt(secret: SecretRef, batch: Batch) | Clear(id: string)

  predicate Possible(e: Event) {
    e.Attempt? ==> WellFormed(e.batch)
  }

  function Step(w: World, e: Event): World
    requires Possible(e)
  {
    match e
    case Attempt(secret, b) => SweepOver(w, secret, b).world
    case Clear(id) =>
      if Pending(w, id) then w.(triggers := w.triggers[id := 0], clears := w.clears + multiset{id}) else w
  }

  function After(w: World, es: seq<Event>): World
    requires forall e | e in es :: Possible(e)
  {
    if es == [] then w
    else
      assert es[|es| - 1] in es;
      Step(After(w, es[..|es| - 1]), es[|es| - 1])
  }

  /** Patches not yet paid for by a clear, an overwritten trigger or a pending one. */
  function Balance(w: World, id: string): int {
    w.patches[id] - w.clears[id] as int - w.overwrites[id] as int - (if Pending(w, id) then 1 else 0)
  }

  lemma {:induction false} SweepBalances(w: World, secret: SecretRef, b: Batch, id: string)
    requires WellFormed(b)
    ensures Balance(SweepOver(w, secret, b).world, id) == Balance(w, id)
    ensures SweepOver(w, secret, b).world.clears == w.clears
    decreases |b.stores|
  {
    if b.stores != [] {
      SweepBalances(w, secret, Prefix(b, |b.stores| - 1), id);
      hide SecretIsReferenced, Id;
    }
  }

  /** Conservation, over every sequence of attempts and clears, however stale the
      listings and whatever fails: each patch of a store is cleared once, overwritten
      by a later patch while still pending, or pending now. */
  lemma {:induction false} PatchesAreConserved(w: World, es: seq<Event>, id: string)
    requires forall e | e in es :: Possible(e)
    ensures Balance(After(w, es), id) == Balance(w, id)
  {
    if es != [] {
      var n := |es| - 1;
      assert es[n] in es;
      PatchesAreConserved(w, es[..n], id);
      if es[n].Attempt? {
        SweepBalances(After(w, es[..n]), es[n].secret, es[n].batch, id);
      }
      hide SweepOver;
    }
  }

  /** The listing shows the annotations as they are. */
  ghost predicate Accurate(w: World, b: Batch) {
    && (forall s | s in b.stores && Id(s) in w.triggers :: s.trigger == w.triggers[Id(s)])
    && (forall i, j | 0 <= i < j < |b.stores| :: Id(b.stores[i]) != Id(b.stores[j]))
  }

  lemma {:induction false} AccurateSweep(w: World, secret: SecretRef, b: Batch)
    requires WellFormed(b) && Accurate(w, b)
    ensures var r := SweepOver(w, secret, b);
      && r.world.overwrites == w.overwrites && r.world.triggers.Keys == w.triggers.Keys
      && (forall id | id in w.triggers && (forall s | s in b.stores :: Id(s) != id) ::
            r.world.triggers[id] == w.triggers[id])
    decreases |b.stores|
  {
    hide SecretIsReferenced, Id;
    if b.stores != [] {
      var n := |b.stores| - 1;
      assert b.stores == b.stores[..n] + [b.stores[n]];
      assert b.stores[n] in b.stores;
      forall i | 0 <= i < n
        ensures Id(b.stores[..n][i]) != Id(b.stores[n])
      {
      }
      AccurateSweep(w, secret, Prefix(b, n));
    }
  }

  ghost predicate AccurateEvents(w: World, es: seq<Event>)
    requires forall e | e in es :: Possible(e)
  {
    forall n | 0 <= n < |es| && es[n].Attempt? :: Accurate(After(w, es[..n]), es[n].batch)
  }

  lemma {:induction false} NothingOverwritten(w: World, es: seq<Event>)
    requires forall e | e in es :: Possible(e)
    requires AccurateEvents(w, es)
    ensures After(w, es).overwrites == w.overwrites
  {
    if es != [] {
      var n := |es| - 1;
      assert es[n] in es;
      forall m | 0 <= m < n && es[..n][m].Attempt?
        ensures Accurate(After(w, es[..n][..m]), es[..n][m].batch)
      {
        assert es[..n][..m] == es[..m];
      }
      NothingOverwritten(w, es[..n]);
      if es[n].Attempt? {
        AccurateSweep(After(w, es[..n]), es[n].secret, es[n].batch);
      }
      hide SweepOver, Accurate;
    }
  }

  /** No amplification: with accurate listings, however often failing passes are
      retried and whichever Secrets they are for, a store is patched at most once more
      than its trigger is cleared; each further forced rebuild follows a finished one. */
  lemma RetriesPatchOnce(w: World, es: seq<Event>, id: string)
    requires forall e | e in es :: Possible(e)
    requires AccurateEvents(w, es)
    ensures var t := After(w, es);
      t.patches[id] - w.patches[id] as int
      == t.clears[id] - w.clears[id] as int + (if Pending(t, id) then 1 else 0) - (if Pending(w, id) then 1 else 0)
  {
    PatchesAreConserved(w, es, id);
    NothingOverwritten(w, es);
  }

  // ------------------------------------------------------------- whole rounds

  /** When a round runs through, every due store that exists carries a trigger stamped by
      it; cluster stores count only while their controller is enabled. */
  lemma CompletedRoundTriggers(enabled: bool, w: World, secret: SecretRef, stores: Batch, clusterStores: Batch,
                               s: Listed)
    requires WellFormed(stores) && WellFormed(clusterStores) && Id(s) in w.triggers
    requires SecretIsReferenced(secret, s) && s.trigger == 0
    requires s in stores.stores || (enabled && s in clusterStores.stores)
    ensures var r := RoundOf(enabled, w, secret, true, Some(stores), Some(clusterStores));
      r.completed ==> Id(s) in r.world.triggers && r.world.triggers[Id(s)] > w.clock
  {
    SweepIsExact(w, secret, stores, Id(s));
    var first := SweepOver(w, secret, stores);
    SweepIsExact(first.world, secret, clusterStores, Id(s));
    assert Due(secret, s);
    hide SecretIsReferenced, Id, SweepOver;
  }

  /** What a round may not touch: a store it has no due listing of, any cluster store
      while their controller is disabled, and anything when the Secret cannot be read or
      the stores cannot be listed. */
  lemma RoundTouchesOnlyDue(enabled: bool, w: World, secret: SecretRef, readable: bool,
                            stores: Option<Batch>, clusterStores: Option<Batch>, id: string)
    requires stores.Some? ==> WellFormed(stores.value)
    requires clusterStores.Some? ==> WellFormed(clusterStores.value)
    requires id in w.triggers
    ensures var r := RoundOf(enabled, w, secret, readable, stores, clusterStores);
      && id in r.world.triggers
      && (r.world.triggers[id] != w.triggers[id] ==>
            && readable && stores.Some?
            && (|| (exists s :: s in stores.value.stores && Id(s) == id && Due(secret, s))
                || (enabled && clusterStores.Some?
                    && exists s :: s in clusterStores.value.stores && Id(s) == id && Due(secret, s))))
  {
    if readable && stores.Some? {
      SweepIsExact(w, secret, stores.value, id);
      if clusterStores.Some? {
        SweepIsExact(SweepOver(w, secret, stores.value).world, secret, clusterStores.value, id);
      }
    }
    hide Due, Id, SweepOver;
  }

  /** A round reports completion exactly when nothing failed on the way. */
  lemma RoundCompletes(enabled: bool, w: World, secret: SecretRef, readable: bool,
                       stores: Option<Batch>, clusterStores: Option<Batch>)
    requires stores.Some? ==> WellFormed(stores.value)
    requires clusterStores.Some? ==> WellFormed(clusterStores.value)
    requires stores.Some? ==> forall n | 0 <= n < |stores.value.ok| :: stores.value.ok[n]
    requires clusterStores.Some? ==> forall n | 0 <= n < |clusterStores.value.ok| :: clusterStores.value.ok[n]
    ensures RoundOf(enabled, w, secret, readable, stores, clusterStores).completed
       <==> readable && stores.Some? && (enabled ==> clusterStores.Some?)
  {
    if readable && stores.Some? {
      AcceptedSweep(w, secret, stores.value);
      if clusterStores.Some? {
        AcceptedSweep(SweepOver(w, secret, stores.value).world, secret, clusterStores.value);
      }
    }
    hide SweepOver;
  }

  lemma {:induction false} AcceptedSweep(w: World, secret: SecretRef, b: Batch)
    requires WellFormed(b) && forall n | 0 <= n < |b.ok| :: b.ok[n]
    ensures SweepOver(w, secret, b).completed
    decreases |b.stores|
  {
    hide Patch, Due, Id;
    if b.stores != [] {
      AcceptedSweep(w, secret, Prefix(b, |b.stores| - 1));
    }
  }
}
