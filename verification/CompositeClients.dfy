/** Lifecycle of the endpoint-specific ("clientName#endpoint") clients: who tracks
    them, who reclaims them, and why none leaks
    (pkg/controller/externalsecret/externalsecret_controller.go). */
module CompositeClients {
  import opened Wrappers
  import opened ClientKeys
  import opened ClientRegistry
  import opened ExternalSecrets

  type Keys = set<string>

  /** The keys of the other active objects of a listing. */
  function Referenced(list: seq<ExternalSecret>, uid: nat): Keys {
    set es, k | es in list && es.uid != uid && !es.deleting && k in CompositeKeys(es) :: k
  }

  /** What tracking a key set does to the tracker. */
  function Track(tracked: map<nat, Keys>, uid: nat, keys: Keys): map<nat, Keys> {
    if keys == {} then tracked - {uid} else tracked[uid := keys]
  }

  function TrackedBy(tracked: map<nat, Keys>, uid: nat): Keys {
    if uid in tracked then tracked[uid] else {}
  }

  /** The keys a reconcile round gives up. */
  function Stale(tracked: map<nat, Keys>, uid: nat, current: Keys): Keys {
    TrackedBy(tracked, uid) - current
  }

  // ---------------------------------------------------------- imperative form

  /** The reconciler's tracker beside the provider it reclaims clients from. */
  class Tracker {
    const provider: Manager
    var compositeKeysByES: map<nat, Keys>

    constructor (provider: Manager)
      ensures this.provider == provider && compositeKeysByES == map[]
    {
      this.provider, compositeKeysByES := provider, map[];
    }

    /** storeCompositeKeys: afterwards the object is tracked with these keys, only objects
        that hold keys take up tracker state, and nobody else's entry moved. */
    method StoreCompositeKeys(uid: nat, keys: Keys)
      modifies this
      ensures TrackedBy(compositeKeysByES, uid) == keys
      ensures uid in compositeKeysByES <==> keys != {}
      ensures compositeKeysByES - {uid} == old(compositeKeysByES) - {uid}
    {
      if keys == {} {
        compositeKeysByES := compositeKeysByES - {uid};
        return;
      }
      compositeKeysByES := compositeKeysByES[uid := keys];
    }

    /** The reference scan over the other active objects. */
    static method CollectReferenced(all: seq<ExternalSecret>, uid: nat) returns (referenced: Keys)
      ensures referenced == Referenced(all, uid)
    {
      hide CompositeKeys, Referenced;
      referenced := {};
      NothingReferenced(uid);
      for i := 0 to |all|
        invariant referenced == Referenced(all[..i], uid)
      {
        assert all[..i + 1] == all[..i] + [all[i]];
        ReferencedSnoc(all[..i], all[i], uid);
        var other := all[i];
        if other.uid == uid || other.deleting {
          continue;
        }
        var theirs := CollectCompositeKeys(other);
        referenced := referenced + theirs;
      }
      assert all[..|all|] == all;
    }

    /** deleteUnreferencedCompositeClients: a failed listing deletes nothing. */
    method DeleteUnreferenced(es: ExternalSecret, list: Option<seq<ExternalSecret>>, keys: Keys) returns (ok: bool)
      modifies provider
      ensures ok <==> keys == {} || list.Some?
      ensures provider.clients
           == old(provider.clients) - (if list.Some? then keys - Referenced(list.value, es.uid) else {})
    {
      hide CompositeKeys, Referenced;
      if keys == {} {
        return true;
      }
      if list.None? {
        return false;
      }
      var referenced := CollectReferenced(list.value, es.uid);
      var rest := keys;
      assert keys - rest - referenced == {};
      while rest != {}
        invariant rest <= keys
        invariant provider.clients == old(provider.clients) - (keys - rest - referenced)
        decreases |rest|
      {
        var key :| key in rest;
        rest := rest - {key};
        if key !in referenced {
          provider.Delete(key);
        }
      }
      return true;
    }

    /** reconcileStaleCompositeClients. */
    method ReconcileStale(es: ExternalSecret, list: Option<seq<ExternalSecret>>) returns (ok: bool)
      modifies this, provider
      ensures var stale := Stale(old(compositeKeysByES), es.uid, CompositeKeys(es));
        && (ok <==> stale == {} || list.Some?)
        && compositeKeysByES
           == (if ok then Track(old(compositeKeysByES), es.uid, CompositeKeys(es)) else old(compositeKeysByES))
        && provider.clients
           == old(provider.clients) - (if list.Some? then stale - Referenced(list.value, es.uid) else {})
    {
      var current := CollectCompositeKeys(es);
      if es.uid !in compositeKeysByES {
        StoreCompositeKeys(es.uid, current);
        TrackDetermined(old(compositeKeysByES), compositeKeysByES, es.uid, current);
        return true;
      }
      var stale := compositeKeysByES[es.uid] - current;
      ok := true;
      if stale != {} {
        ok := DeleteUnreferenced(es, list, stale);
      }
      if ok {
        StoreCompositeKeys(es.uid, current);
        TrackDetermined(old(compositeKeysByES), compositeKeysByES, es.uid, current);
      }
    }

    /** cleanupEndpointClients, on deletion of the object. */
    method Cleanup(es: ExternalSecret, list: Option<seq<ExternalSecret>>) returns (ok: bool)
      modifies this, provider
      ensures var mine := CompositeKeys(es) + TrackedBy(old(compositeKeysByES), es.uid);
        && (ok <==> mine == {} || list.Some?)
        && compositeKeysByES == (if ok then old(compositeKeysByES) - {es.uid} else old(compositeKeysByES))
        && provider.clients
           == old(provider.clients) - (if list.Some? then mine - Referenced(list.value, es.uid) else {})
    {
      var mine := CollectCompositeKeys(es);
      if es.uid in compositeKeysByES {
        mine := mine + compositeKeysByES[es.uid];
      }
      if mine != {} {
        ok := DeleteUnreferenced(es, list, mine);
        if !ok {
          return;
        }
      }
      compositeKeysByES := compositeKeysByES - {es.uid};
      ok := true;
    }
  }

  /** The tracker after storing a key set is determined by what it says of each object. */
  lemma TrackDetermined(before: map<nat, Keys>, after: map<nat, Keys>, uid: nat, keys: Keys)
    requires TrackedBy(after, uid) == keys && (uid in after <==> keys != {}) && after - {uid} == before - {uid}
    ensures after == Track(before, uid, keys)
  {
    forall v | v != uid
      ensures v in after <==> v in before
      ensures v in after ==> after[v] == before[v]
    {
      assert v in after - {uid} <==> v in before - {uid};
      if v in after {
        assert (after - {uid})[v] == (before - {uid})[v];
      }
    }
  }

  lemma NothingReferenced(uid: nat)
    ensures Referenced([], uid) == {}
  {
  }

  lemma ReferencedSnoc(list: seq<ExternalSecret>, es: ExternalSecret, uid: nat)
    ensures Referenced(list + [es], uid)
         == Referenced(list, uid) + (if es.uid == uid || es.deleting then {} else CompositeKeys(es))
  {
    forall e | e in list ensures e in list + [es] {
    }
    assert es in list + [es];
  }

  // ------------------------------------------------------------------ machine

  /** The objects in the cluster, the tracker, the registered composite keys, the
      snapshot each running round works on and whether it is past its collection
      stage, and the deleted objects whose clients were already cleaned up. */
  datatype State = State(
    objects: map<nat, ExternalSecret>, tracked: map<nat, Keys>, clients: Keys,
    rounds: map<nat, ExternalSecret>, collected: set<nat>, cleaned: set<nat>)

  const EMPTY := State(map[], map[], {}, map[], {}, {})

  datatype Label =
    // users and the rest of the process
    | Create(es: ExternalSecret)
    | Edit(uid: nat, spec: Spec)
    | RequestDelete(uid: nat)
    | StorePurge(keys: Keys)
    | Restart
    // one ExternalSecret's serial rounds
    | Begin(uid: nat)
    | Collect(uid: nat, listed: bool)
    | Register(uid: nat, key: string)
    | End(uid: nat)
    | Finalize(uid: nat, listed: bool)
    | Remove(uid: nat)

  /** The keys of the active objects other than `uid`. */
  function InUse(s: State, uid: nat): Keys {
    set u, k | u in s.objects && u != uid && !s.objects[u].deleting && k in CompositeKeys(s.objects[u]) :: k
  }

  predicate Enabled(s: State, l: Label) {
    match l
    case Create(es) =>
      es.uid !in s.objects && es.uid !in s.tracked && es.uid !in s.rounds && es.uid !in s.cleaned
      && es.uid !in s.collected && !es.finalizer && !es.deleting
    case Edit(u, sp) => u in s.objects
    case RequestDelete(u) => u in s.objects && !s.objects[u].deleting
    case StorePurge(ks) => true
    case Restart => true
    case Begin(u) => u in s.objects && u !in s.rounds && !s.objects[u].deleting
    case Collect(u, _) => u in s.rounds && u !in s.collected && u in s.objects
    case Register(u, k) => u in s.rounds && u in s.collected && k in CompositeKeys(s.rounds[u])
    case End(u) => u in s.rounds
    case Finalize(u, _) => u in s.objects && s.objects[u].deleting && s.objects[u].finalizer && u !in s.rounds
    case Remove(u) => u in s.objects && u in s.cleaned && s.objects[u].deleting && u !in s.rounds
  }

  /** The scheduling hypothesis: a spec is reconciled (since the last restart)
      before the object is edited again, or deleted without ever having been seen. */
  predicate Orderly(s: State, l: Label) {
    match l
    case Edit(u, _) => u in s.objects ==> CompositeKeys(s.objects[u]) <= TrackedBy(s.tracked, u)
    case RequestDelete(u) => u in s.objects && !s.objects[u].finalizer ==> CompositeKeys(s.objects[u]) == {}
    case _ => true
  }

  function CollectStep(s: State, u: nat, listed: bool): State
    requires u in s.rounds
  {
    var current := CompositeKeys(s.rounds[u]);
    var stale := Stale(s.tracked, u, current);
    if stale != {} && !listed then s.(rounds := s.rounds - {u}, collected := s.collected - {u})
    else s.(tracked := Track(s.tracked, u, current), collected := s.collected + {u},
            clients := s.clients - (stale - InUse(s, u)))
  }

  function FinalizeStep(s: State, u: nat, listed: bool): State
    requires u in s.objects
  {
    var mine := CompositeKeys(s.objects[u]) + TrackedBy(s.tracked, u);
    if mine != {} && !listed then s
    else s.(tracked := s.tracked - {u}, cleaned := s.cleaned + {u}, clients := s.clients - (mine - InUse(s, u)))
  }

  function Apply(s: State, l: Label): State
    requires Enabled(s, l)
  {
    match l
    case Create(es) => s.(objects := s.objects[es.uid := es])
    case Edit(u, sp) => s.(objects := s.objects[u := s.objects[u].(spec := sp)])
    case RequestDelete(u) =>
      if s.objects[u].finalizer then s.(objects := s.objects[u := s.objects[u].(deleting := true)])
      else s.(objects := s.objects - {u}, rounds := s.rounds - {u}, collected := s.collected - {u})
    case StorePurge(ks) => s.(clients := s.clients - ks)
    case Restart => s.(tracked := map[], clients := {}, rounds := map[], collected := {})
    case Begin(u) =>
      var es := s.objects[u].(finalizer := true);
      s.(objects := s.objects[u := es], rounds := s.rounds[u := es], collected := s.collected - {u})
    case Collect(u, listed) => CollectStep(s, u, listed)
    case Register(u, k) => s.(clients := s.clients + {k})
    case End(u) => s.(rounds := s.rounds - {u}, collected := s.collected - {u})
    case Finalize(u, listed) => FinalizeStep(s, u, listed)
    case Remove(u) => s.(objects := s.objects - {u})
  }

  predicate IsRun(s: State, ls: seq<Label>, orderly: bool)
    decreases |ls|
  {
    ls == [] ||
    (Enabled(s, ls[0]) && (orderly ==> Orderly(s, ls[0])) && IsRun(Apply(s, ls[0]), ls[1..], orderly))
  }

  function Exec(s: State, ls: seq<Label>): State
    requires IsRun(s, ls, false) || IsRun(s, ls, true)
    decreases |ls|
  {
    if ls == [] then s else Exec(Apply(s, ls[0]), ls[1..])
  }

  // --------------------------------------------------------------- invariants

  /** Object `u` is still answerable for `k`. */
  predicate Holds(s: State, u: nat, k: string) {
    u in s.objects && u !in s.cleaned && (k in CompositeKeys(s.objects[u]) || k in TrackedBy(s.tracked, u))
  }

  ghost predicate Covered(s: State) {
    forall k | k in s.clients :: exists u :: Holds(s, u, k)
  }

  ghost predicate RoundsOk(s: State) {
    && (forall u | u in s.rounds :: u in s.objects && u !in s.cleaned && s.objects[u].finalizer)
    && (forall u | u in s.rounds && u in s.collected :: CompositeKeys(s.rounds[u]) <= TrackedBy(s.tracked, u))
    && (forall u | u in s.cleaned && u in s.objects :: s.objects[u].deleting)
    && (forall u | u in s.tracked :: u in s.objects && u !in s.cleaned && s.objects[u].finalizer)
  }

  ghost predicate Inv(s: State) {
    Covered(s) && RoundsOk(s)
  }

  lemma RoundsStep(s: State, l: Label)
    requires RoundsOk(s) && Enabled(s, l)
    ensures RoundsOk(Apply(s, l))
  {
    hide CompositeKeys, InUse;
  }

  /** Another object is answerable for `k`. */
  predicate HeldElsewhere(s: State, u: nat, k: string) {
    exists v :: v in s.objects && v != u && Holds(s, v, k)
  }

  /** The steps after which every registered client still has somebody answerable for
      it. Only two kinds of step can fail: an edit that drops a key which only this
      object's untracked spec answers for, and the deletion of an object that never
      got its finalizer while only it answers for a key. */
  predicate Safe(s: State, l: Label)
    requires Enabled(s, l)
  {
    match l
    case Edit(u, sp) =>
      forall k | k in s.clients && Holds(s, u, k) && k !in TrackedBy(s.tracked, u) ::
        k in CompositeKeys(s.objects[u].(spec := sp)) || HeldElsewhere(s, u, k)
    case RequestDelete(u) =>
      !s.objects[u].finalizer ==> forall k | k in s.clients && Holds(s, u, k) :: HeldElsewhere(s, u, k)
    case _ => true
  }

  lemma MetadataKeepsKeys(es: ExternalSecret)
    ensures CompositeKeys(es.(finalizer := true)) == CompositeKeys(es)
    ensures CompositeKeys(es.(deleting := true)) == CompositeKeys(es)
  {
  }

  /** Objects the step is not about are as answerable as before. */
  lemma OthersKeepHolding(s: State, l: Label, v: nat, k: string)
    requires RoundsOk(s) && Enabled(s, l) && !l.Restart?
    requires (l.Create? ==> v != l.es.uid) && (!l.Create? && !l.StorePurge? ==> v != l.uid)
    ensures Holds(Apply(s, l), v, k) <==> Holds(s, v, k)
  {
    hide CompositeKeys, InUse, RoundsOk;
  }

  /** Whoever was answerable for a surviving key still is, or has handed it to an
      active object that uses it. */
  lemma KeepsHolding(s: State, l: Label, u: nat, k: string)
    requires Inv(s) && Enabled(s, l) && Safe(s, l) && Holds(s, u, k) && k in s.clients && k in Apply(s, l).clients
    ensures exists v :: Holds(Apply(s, l), v, k)
  {
    hide CompositeKeys, Covered, InUse;
    var t := Apply(s, l);
    if !Holds(t, u, k) {
      match l
      case Collect(w, listed) => HandedOver(s, t, u, k);
      case Finalize(w, listed) => HandedOver(s, t, u, k);
      case Edit(w, sp) => ElsewhereStays(s, l, u, k);
      case RequestDelete(w) =>
        MetadataKeepsKeys(s.objects[w]);
        ElsewhereStays(s, l, u, k);
      case StorePurge(ks) =>
      case Restart =>
      case Create(es) =>
      case Begin(w) => MetadataKeepsKeys(s.objects[w]);
      case Register(w, k') =>
      case End(w) =>
      case Remove(w) =>
    }
  }

  lemma HandedOver(s: State, t: State, u: nat, k: string)
    requires RoundsOk(s) && k in InUse(s, u) && t.objects == s.objects
    requires t.cleaned <= s.cleaned + {u}
    ensures exists v :: Holds(t, v, k)
  {
    hide CompositeKeys;
    var v :| v in s.objects && v != u && !s.objects[v].deleting && k in CompositeKeys(s.objects[v]);
    assert Holds(t, v, k);
  }

  lemma ElsewhereStays(s: State, l: Label, u: nat, k: string)
    requires RoundsOk(s) && Enabled(s, l) && (l.Edit? || l.RequestDelete?) && l.uid == u && HeldElsewhere(s, u, k)
    ensures exists v :: Holds(Apply(s, l), v, k)
  {
    hide Holds, RoundsOk;
    var v :| v in s.objects && v != u && Holds(s, v, k);
    OthersKeepHolding(s, l, v, k);
  }

  /** An unsafe step leaves a key nobody is answerable for. */
  lemma UnsafeUncovers(s: State, l: Label)
    requires Inv(s) && Enabled(s, l) && !Safe(s, l)
    ensures !Covered(Apply(s, l))
  {
    hide CompositeKeys, Covered, InUse;
    var t := Apply(s, l);
    var u := l.uid;
    var k :| k in s.clients && Holds(s, u, k) && !HeldElsewhere(s, u, k) && !Holds(t, u, k);
    forall v
      ensures !Holds(t, v, k)
    {
      if v != u {
        OthersKeepHolding(s, l, v, k);
        assert v in s.objects && Holds(s, v, k) ==> HeldElsewhere(s, u, k);
      }
    }
    assert k in t.clients;
    StillUncovered(t, k);
  }

  lemma StillUncovered(t: State, k: string)
    requires k in t.clients && forall v :: !Holds(t, v, k)
    ensures !Covered(t)
  {
    hide Holds;
  }

  /** One step keeps every client accounted for exactly when it is safe. */
  lemma CoverStep(s: State, l: Label)
    requires Inv(s) && Enabled(s, l)
    ensures Covered(Apply(s, l)) <==> Safe(s, l)
  {
    hide CompositeKeys, Safe;
    var t := Apply(s, l);
    if Safe(s, l) {
      forall k | k in t.clients
        ensures exists u :: Holds(t, u, k)
      {
        if k in s.clients {
          var u :| Holds(s, u, k);
          KeepsHolding(s, l, u, k);
        } else {
          RegisteredIsHeld(s, l, k);
        }
      }
    } else {
      UnsafeUncovers(s, l);
    }
  }

  lemma RegisteredIsHeld(s: State, l: Label, k: string)
    requires RoundsOk(s) && Enabled(s, l) && k !in s.clients && k in Apply(s, l).clients
    ensures exists u :: Holds(Apply(s, l), u, k)
  {
    hide CompositeKeys, InUse;
    assert l.Register? && l.key == k;
    assert Holds(Apply(s, l), l.uid, k);
  }

  /** In every state of the run each registered client has an object answerable for it. */
  ghost predicate NeverLeaks(s: State, ls: seq<Label>)
    requires IsRun(s, ls, false)
    decreases |ls|
  {
    Covered(s) && (ls != [] ==> NeverLeaks(Apply(s, ls[0]), ls[1..]))
  }

  predicate AllSafe(s: State, ls: seq<Label>)
    requires IsRun(s, ls, false)
    decreases |ls|
  {
    ls != [] ==> Safe(s, ls[0]) && AllSafe(Apply(s, ls[0]), ls[1..])
  }

  lemma {:induction false} LeaksExactly(s: State, ls: seq<Label>)
    requires Inv(s) && IsRun(s, ls, false)
    ensures NeverLeaks(s, ls) <==> AllSafe(s, ls)
    decreases |ls|
  {
    hide RoundsOk, Enabled, Apply, Safe, Covered;
    if ls != [] {
      RoundsStep(s, ls[0]);
      CoverStep(s, ls[0]);
      if Safe(s, ls[0]) {
        LeaksExactly(Apply(s, ls[0]), ls[1..]);
      } else {
        assert !NeverLeaks(Apply(s, ls[0]), ls[1..]);
      }
    }
  }

  /** When exactly no client leaks, over every run, failed cleanups, deletions, store
      purges and restarts included: each registered endpoint-specific client is all
      along in the tracked set or the current spec of an object whose cleanup is still
      to come, if and only if every step is safe. */
  lemma NoCompositeClientLeaks(ls: seq<Label>)
    requires IsRun(EMPTY, ls, false)
    ensures NeverLeaks(EMPTY, ls) <==> AllSafe(EMPTY, ls)
  {
    LeaksExactly(EMPTY, ls);
  }

  /** The scheduling hypothesis makes every step safe. */
  lemma OrderlyIsSafe(s: State, l: Label)
    requires Inv(s) && Enabled(s, l) && Orderly(s, l)
    ensures Safe(s, l)
  {
    hide CompositeKeys, Covered;
  }

  lemma {:induction false} OrderlyRun(s: State, ls: seq<Label>)
    requires Inv(s) && IsRun(s, ls, true)
    ensures IsRun(s, ls, false) && AllSafe(s, ls)
    ensures Exec(s, ls).clients == {} || Covered(Exec(s, ls))
    decreases |ls|
  {
    hide RoundsOk, Enabled, Apply, Safe, Covered, Orderly;
    if ls != [] {
      RoundsStep(s, ls[0]);
      OrderlyIsSafe(s, ls[0]);
      CoverStep(s, ls[0]);
      OrderlyRun(Apply(s, ls[0]), ls[1..]);
    }
  }

  /** The orderly case, in a caller's terms: specs that hold endpoints are reconciled
      before they are edited, or deleted unseen; then each registered client is tracked
      by, or in the spec of, an object that still exists. */
  lemma OrderlyRunsDoNotLeak(ls: seq<Label>, k: string)
    requires IsRun(EMPTY, ls, true) && k in Exec(EMPTY, ls).clients
    ensures var s := Exec(EMPTY, ls);
      exists u :: u in s.objects && (k in CompositeKeys(s.objects[u]) || k in TrackedBy(s.tracked, u))
  {
    hide CompositeKeys;
    OrderlyRun(EMPTY, ls);
    var s := Exec(EMPTY, ls);
    var u :| Holds(s, u, k);
  }

  /** The collector never takes a client away from another active object. */
  lemma CollectorSparesOthers(s: State, l: Label, k: string, u: nat)
    requires Enabled(s, l) && (l.Collect? || l.Finalize?) && u != l.uid
    requires u in s.objects && !s.objects[u].deleting && k in CompositeKeys(s.objects[u]) && k in s.clients
    ensures k in Apply(s, l).clients
  {
    hide CompositeKeys;
    assert k in InUse(s, l.uid);
  }

  /** Nor one its own round is about to use. */
  lemma CollectorSparesOwn(s: State, u: nat, listed: bool, k: string)
    requires Enabled(s, Collect(u, listed)) && k in CompositeKeys(s.rounds[u]) && k in s.clients
    ensures k in Apply(s, Collect(u, listed)).clients
  {
    hide CompositeKeys;
  }

  /** The machine's collection steps are what the imperative code does when its
      listing shows the cluster's objects. */
  lemma ListingIsInUse(s: State, list: seq<ExternalSecret>, u: nat)
    requires forall es :: es in list <==> es.uid in s.objects && s.objects[es.uid] == es
    requires forall v | v in s.objects :: s.objects[v].uid == v
    ensures Referenced(list, u) == InUse(s, u)
  {
    hide CompositeKeys;
    forall k | k in InUse(s, u)
      ensures k in Referenced(list, u)
    {
      var v :| v in s.objects && v != u && !s.objects[v].deleting && k in CompositeKeys(s.objects[v]);
      assert s.objects[v] in list;
    }
  }

  // ------------------------------------------------ why the hypothesis is there

  /** The last step of a run. */
  lemma {:induction false} RunSnoc(s: State, ls: seq<Label>, l: Label)
    requires IsRun(s, ls, false) && Enabled(Exec(s, ls), l)
    ensures IsRun(s, ls + [l], false) && Exec(s, ls + [l]) == Apply(Exec(s, ls), l)
    decreases |ls|
  {
    hide Enabled, Apply, Orderly;
    if ls == [] {
      assert (ls + [l])[1..] == [];
    } else {
      assert (ls + [l])[1..] == ls[1..] + [l];
      RunSnoc(Apply(s, ls[0]), ls[1..], l);
    }
  }

  predicate Reaches(ls: seq<Label>, s: State) {
    IsRun(EMPTY, ls, false) && Exec(EMPTY, ls) == s
  }

  lemma Extend(ls: seq<Label>, s: State, l: Label) returns (more: seq<Label>)
    requires Reaches(ls, s) && Enabled(s, l)
    ensures Reaches(more, Apply(s, l))
  {
    hide Enabled, Apply;
    RunSnoc(EMPTY, ls, l);
    more := ls + [l];
  }

  /** One object's first round registers its client. */
  lemma FirstRound(a: ExternalSecret, b: ExternalSecret, k: string) returns (ls: seq<Label>)
    requires a.uid == 0 && b.uid == 1 && !a.finalizer && !a.deleting && !b.finalizer && !b.deleting
    requires CompositeKeys(a) == {k}
    ensures Reaches(ls, State(map[0 := a.(finalizer := true), 1 := b], map[0 := {k}], {k}, map[], {}, {}))
  {
    hide CompositeKeys, Reaches;
    MetadataKeepsKeys(a);
    EmptyRun();
    var a' := a.(finalizer := true);
    ls := Extend([], EMPTY, Create(a));
    ls := Extend(ls, State(map[0 := a], map[], {}, map[], {}, {}), Create(b));
    ls := Extend(ls, State(map[0 := a, 1 := b], map[], {}, map[], {}, {}), Begin(0));
    var s := State(map[0 := a', 1 := b], map[], {}, map[0 := a'], {}, {});
    assert map[0 := a, 1 := b][0 := a'] == s.objects && s.collected - {0} == {};
    ls := Extend(ls, s, Collect(0, true));
    var t := State(s.objects, map[0 := {k}], {}, map[0 := a'], {0}, {});
    assert CollectStep(s, 0, true) == t;
    ls := Extend(ls, t, Register(0, k));
    assert t.clients + {k} == {k};
    ls := Extend(ls, t.(clients := {k}), End(0));
    assert t.rounds - {0} == map[] && t.collected - {0} == {};
  }

  /** Two objects share an endpoint. The first gives it up and its collector spares the
      client, because the second, which no round has reached yet, uses it. */
  lemma HandedToUnseen(a: ExternalSecret, b: ExternalSecret, none: Spec, k: string) returns (ls: seq<Label>)
    requires a.uid == 0 && b.uid == 1 && !a.finalizer && !a.deleting && !b.finalizer && !b.deleting
    requires CompositeKeys(a) == {k} && CompositeKeys(b) == {k} && CompositeKeys(a.(spec := none)) == {}
    ensures var a0 := a.(finalizer := true, spec := none);
      Reaches(ls, State(map[0 := a0, 1 := b], map[], {k}, map[0 := a0], {0}, {}))
  {
    hide CompositeKeys, Reaches;
    ls := FirstRound(a, b, k);
    var a' := a.(finalizer := true);
    var a0 := a'.(spec := none);
    assert a0 == a.(spec := none).(finalizer := true);
    MetadataKeepsKeys(a.(spec := none));
    var s := State(map[0 := a', 1 := b], map[0 := {k}], {k}, map[], {}, {});
    ls := Extend(ls, s, Edit(0, none));
    var t := s.(objects := map[0 := a0, 1 := b]);
    assert s.objects[0 := a0] == t.objects;
    ls := Extend(ls, t, Begin(0));
    assert t.objects[0 := a0] == t.objects && a0.(finalizer := true) == a0;
    var r := t.(rounds := map[0 := a0]);
    assert Apply(t, Begin(0)) == r by {
      assert t.collected - {0} == {} && t.rounds[0 := a0] == map[0 := a0];
    }
    ls := Extend(ls, r, Collect(0, true));
    assert r.objects[1] == b && k in InUse(r, 0);
    assert CollectStep(r, 0, true) == r.(tracked := map[], collected := {0}) by {
      assert r.tracked - {0} == map[];
      assert {k} - InUse(r, 0) == {};
    }
  }

  const ENDPOINT_ENTRY := DataSource(None, "doc", "", [], "e")
  const SHARING_SPEC := Spec([ENDPOINT_ENTRY], [], false)
  const EMPTY_SPEC := Spec([], [], false)
  const FIRST := ExternalSecret(0, "ns", "first", false, false, SHARING_SPEC)
  const SECOND := ExternalSecret(1, "ns", "second", false, false, SHARING_SPEC)
  const SHARED_KEY := ENV_CLIENT + "#e"

  lemma SharedKeys()
    ensures CompositeKeys(FIRST) == {SHARED_KEY} && CompositeKeys(SECOND) == {SHARED_KEY}
    ensures CompositeKeys(FIRST.(spec := EMPTY_SPEC)) == {} && CompositeKeys(SECOND.(spec := EMPTY_SPEC)) == {}
  {
    assert !IsSpace('e');
    assert TrimLeft("e") == "e" && TrimRight("e") == "e";
    assert Sources(SHARING_SPEC) == [ENDPOINT_ENTRY];
    assert ENDPOINT_ENTRY in [ENDPOINT_ENTRY];
    assert ClientKey(ENDPOINT_ENTRY, "ns") == SHARED_KEY;
  }

  /** If the second object is now edited before its first round, the client stays
      registered with nobody left to reclaim it. */
  lemma UnreconciledEditLeaks() returns (ls: seq<Label>)
    ensures IsRun(EMPTY, ls, false) && SHARED_KEY in Exec(EMPTY, ls).clients
    ensures forall u :: !Holds(Exec(EMPTY, ls), u, SHARED_KEY)
    ensures ls != [] && ls[|ls| - 1] == Edit(1, EMPTY_SPEC)
  {
    SharedKeys();
    MetadataKeepsKeys(FIRST.(spec := EMPTY_SPEC));
    hide CompositeKeys, IsRun, Exec, SHARED_KEY;
    var before := HandedToUnseen(FIRST, SECOND, EMPTY_SPEC, SHARED_KEY);
    var a0 := FIRST.(finalizer := true, spec := EMPTY_SPEC);
    assert a0 == FIRST.(spec := EMPTY_SPEC).(finalizer := true);
    var s := State(map[0 := a0, 1 := SECOND], map[], {SHARED_KEY}, map[0 := a0], {0}, {});
    RunSnoc(EMPTY, before, Edit(1, EMPTY_SPEC));
    ls := before + [Edit(1, EMPTY_SPEC)];
    assert Exec(EMPTY, ls) == Apply(s, Edit(1, EMPTY_SPEC));
  }

  /** Deleting the second object before its first round does the same: without a
      finalizer it is gone at once and no cleanup runs. */
  lemma UnseenDeletionLeaks() returns (ls: seq<Label>)
    ensures IsRun(EMPTY, ls, false) && SHARED_KEY in Exec(EMPTY, ls).clients
    ensures forall u :: !Holds(Exec(EMPTY, ls), u, SHARED_KEY)
    ensures ls != [] && ls[|ls| - 1] == RequestDelete(1)
  {
    SharedKeys();
    MetadataKeepsKeys(FIRST.(spec := EMPTY_SPEC));
    hide CompositeKeys, IsRun, Exec, SHARED_KEY;
    var before := HandedToUnseen(FIRST, SECOND, EMPTY_SPEC, SHARED_KEY);
    var a0 := FIRST.(finalizer := true, spec := EMPTY_SPEC);
    assert a0 == FIRST.(spec := EMPTY_SPEC).(finalizer := true);
    var s := State(map[0 := a0, 1 := SECOND], map[], {SHARED_KEY}, map[0 := a0], {0}, {});
    RunSnoc(EMPTY, before, RequestDelete(1));
    ls := before + [RequestDelete(1)];
    assert Exec(EMPTY, ls) == Apply(s, RequestDelete(1));
  }

  lemma EmptyRun()
    ensures Reaches([], EMPTY)
  {
  }
}
