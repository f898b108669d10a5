/** What the store protocol promises its users, over every interleaving. */
module StoreTheorems {
  import opened Wrappers
  import opened StoreStatus
  import opened StoreProtocol
  import opened StoreSafety

  // ---------------------------------------------------------------- freshness

  /** ensureStoreClientFresh for an existing store: may the cached client be used? */
  predicate GuardAdmits(o: Store, controllerEnabled: bool) {
    if !controllerEnabled then true
    else
      match ReadyObserved(o.status)
      case None => true
      case Some(observed) => observed == o.generation && o.trigger == 0
  }

  /** The store has been through a reconcile round and its spec was accepted. */
  predicate Managed(o: Store) {
    Ready(o.status).Some? && Ready(o.status).value.reason != VALIDATION_FAILED
  }

  /** Freshness: whenever the guard lets a managed store's client through, every
      client cached for that store, plain or per endpoint and with either
      provider, was built from this very store object at its current generation,
      and no trigger is pending. */
  lemma GuardedClientsAreCurrent(key: string, sp: Spec, ls: seq<Label>)
    requires IsRun(Init(key, sp), ls, true)
    ensures var s := Exec(Init(key, sp), ls);
      |s.log| > 0 && (!Cur(s).gone && Managed(Cur(s)) && GuardAdmits(Cur(s), true) ==>
        Cur(s).trigger == 0 && AllBuiltFrom(s, Cur(s).uid, Cur(s).generation, Cur(s).generation))
  {
    SoundInit(key, sp);
    TimedInit(key, sp);
    TimedRun(Init(key, sp), ls);
  }

  /** No false alarm: while the controller runs, the guard refuses the client of a store
      that a round has accepted exactly as long as that controller still has a rebuild
      to do for it. */
  lemma GuardRefusesOnlyUnfinishedRebuilds(s: State)
    requires |s.log| > 0 && !Cur(s).gone && Ready(Cur(s).status).Some?
    requires s.key in Get(s, Configured(Cur(s).spec)) && ValidSpec(Cur(s).spec)
    ensures GuardAdmits(Cur(s), true) <==> !MustRebuild(s, Cur(s))
  {
    assert Cur(s).spec.kms || Cur(s).spec.oos;
  }

  /** Degraded mode: with the controller disabled nothing would ever clear a trigger or
      catch a generation up, so no status makes the guard refuse; a store without a
      Ready condition is likewise let through. */
  lemma GuardWithoutController(o: Store)
    ensures GuardAdmits(o, false)
    ensures Ready(o.status).None? ==> GuardAdmits(o, true)
  {
  }

  // --------------------------------------------------------- trigger handling

  /** Clearing is exact, even with arbitrarily stale reads: the annotation of a
      store disappears only in the guarded patch of a round whose snapshot carried
      that very value, after that round persisted its clientGeneration bump. */
  lemma TriggerClearedOnlyByItsRound(key: string, sp: Spec, ls: seq<Label>, l: Label)
    requires IsRun(Init(key, sp), ls, false) && Enabled(Exec(Init(key, sp), ls), l)
    ensures var s := Exec(Init(key, sp), ls); var t := Apply(s, l); var r := s.round;
      Cur(s).trigger != 0 && Cur(t).trigger == 0 && Cur(t).uid == Cur(s).uid ==>
        && l == ClearTrigger(true) && r.Clearing? && r.i < |s.log|
        && s.log[r.i].trigger == Cur(s).trigger
        && BumpPersisted(s, r.i, r.w)
        && r.j == |s.log| - 1
  {
    SoundInit(key, sp);
    SoundRun(Init(key, sp), ls, false);
  }

  /** Credential epoch: at the moment a trigger is cleared, every client cached for
      the store was built from credentials at least as new as those in force when
      that trigger was patched. */
  lemma ClearedTriggerMeansRotatedClients(key: string, sp: Spec, ls: seq<Label>, l: Label)
    requires IsRun(Init(key, sp), ls, false) && Enabled(Exec(Init(key, sp), ls), l)
    ensures var s := Exec(Init(key, sp), ls); var t := Apply(s, l);
      Cur(s).trigger != 0 && Cur(t).trigger == 0 && Cur(t).uid == Cur(s).uid ==>
        Cur(s).trigger in s.stamps && AllSince(t, s.stamps[Cur(s).trigger])
  {
    SoundInit(key, sp);
    SoundRun(Init(key, sp), ls, false);
    TriggerClearedOnlyByItsRound(key, sp, ls, l);
  }

  predicate Superseding(l: Label) {
    l.Trigger? || l.Create? || l.Begin?
  }

  /** The store carries trigger `v`, and no round that may still clear it does. */
  predicate Unseen(s: State, v: nat) {
    && |s.log| > 0 && Cur(s).trigger == v
    && (s.round.Idle? || s.round.Deleting? || s.round.Unfinalizing?
        || (HasSnapshot(s.round) && s.round.i < |s.log| && s.log[s.round.i].trigger != v))
    && (s.round.Clearing? ==> s.round.j < |s.log| && s.log[s.round.j].trigger != v)
  }

  lemma UnseenStep(s: State, l: Label, v: nat)
    requires v != 0 && Unseen(s, v) && Enabled(s, l) && !Superseding(l)
    ensures Unseen(Apply(s, l), v)
  {
  }

  /** A trigger value that appears while a round holds a snapshot without it
      outlives that round, whatever else happens meanwhile. */
  lemma {:induction false} LateTriggerSurvives(s: State, ls: seq<Label>, v: nat)
    requires v != 0 && Unseen(s, v) && IsRun(s, ls, false)
    requires forall k | 0 <= k < |ls| :: !Superseding(ls[k])
    ensures Unseen(Exec(s, ls), v)
    decreases |ls|
  {
    if ls != [] {
      UnseenStep(s, ls[0], v);
      LateTriggerSurvives(Apply(s, ls[0]), ls[1..], v);
    }
  }

  // --------------------------------------------------------- clientGeneration

  /** The step that persists a rebuild. */
  predicate PersistsRebuild(s: State, l: Label) {
    l == WriteStatus(true) && s.round.HaveFresh? && s.round.kind.Rebuilt? && s.round.j == |s.log| - 1
  }

  lemma ClientGenerationStep(s: State, l: Label)
    requires Enabled(s, l) && !l.Create?
    requires s.round.HaveFresh? && s.round.j == |s.log| - 1 ==>
      s.round.st.clientGeneration == Cur(s).status.clientGeneration + (if s.round.kind.Rebuilt? then 1 else 0)
    ensures Cur(Apply(s, l)).status.clientGeneration
         == Cur(s).status.clientGeneration + (if PersistsRebuild(s, l) then 1 else 0)
  {
  }

  /** status.clientGeneration counts persisted rebuilds: over every run it equals
      their number since the store was created, and one step changes it only by
      persisting one more rebuild. */
  lemma ClientGenerationCountsRebuilds(key: string, sp: Spec, ls: seq<Label>, l: Label)
    requires IsRun(Init(key, sp), ls, true)
    requires Enabled(Exec(Init(key, sp), ls), l) && Timely(Exec(Init(key, sp), ls), l)
    ensures var s := Exec(Init(key, sp), ls); var t := Apply(s, l);
      && Cur(s).status.clientGeneration == s.rebuilds
      && (!l.Create? ==>
            Cur(t).status.clientGeneration
            == Cur(s).status.clientGeneration + (if PersistsRebuild(s, l) then 1 else 0))
  {
    SoundInit(key, sp);
    TimedInit(key, sp);
    TimedRun(Init(key, sp), ls);
    if !l.Create? {
      ClientGenerationStep(Exec(Init(key, sp), ls), l);
    }
  }

  /** Once the client is registered the bumped status is always sent: the equality
      debounce cannot swallow it. */
  lemma RebuildAlwaysReported(s: State, now: int)
    requires Enabled(s, Register(now))
    ensures var t := Apply(s, Register(now));
      t.round.Writing? && t.round.kind.Rebuilt?
      && t.round.st.clientGeneration == s.log[s.round.i].status.clientGeneration + 1
  {
    var o := s.log[s.round.i];
    BumpAlwaysWritten(Base(o, Rebuilt), Verdict(Rebuilt, ""), o.generation, now);
  }

  /** The initial-status branch of Reconcile is never taken: a round that keeps its
      client has already found a Ready condition. */
  lemma KeptClientHasConditions(o: Store, key: string, kms: Registry, oos: Registry)
    requires !NeedRecreate(o, key, kms, oos)
    ensures |o.status.conditions| > 0
  {
  }
}
