/** SecretStoreReconciler.Reconcile as one uninterrupted round, and what such
    rounds converge to. ClusterSecretStoreReconciler is the same code on the
    cluster-scoped object. */
module StoreReconciler {
  import opened Wrappers
  import opened ClientKeys
  import opened StoreStatus
  import opened StoreProtocol
  import opened StoreSafety
  import opened StoreTheorems

  /** Which API calls succeed, and the free inputs of a round. */
  datatype Outcome = Outcome(
    finalizerOk: bool, refetchOk: bool, buildOk: bool, getOk: bool, writeOk: bool,
    rereadOk: bool, clearOk: bool, unfinalizeOk: bool, note: string, now: int)

  /** Every API call succeeds; building the client may still fail. */
  predicate Undisturbed(f: Outcome) {
    f.finalizerOk && f.refetchOk && f.getOk && f.writeOk && f.rereadOk && f.clearOk && f.unfinalizeOk
  }

  predicate FaultFree(f: Outcome) {
    Undisturbed(f) && f.buildOk
  }

  predicate Placed(s: State) {
    var r := s.round;
    && |s.log| > 0
    && (!r.Idle? && !r.ReadBack? ==> r.i < |s.log|)
    && (r.HaveFresh? || r.Clearing? ==> r.j < |s.log|)
  }

  function Rank(r: Round): nat {
    match r
    case Idle => 0
    case Unfinalizing(_) => 1
    case Deleting(_) => 2
    case Clearing(_, _, _, _) => 1
    case Persisted(_, _, _) => 2
    case HaveFresh(_, _, _, _, _) => 3
    case Writing(_, _, _, _) => 4
    case Built(_, _, _) => 5
    case Purged(_, _) => 6
    case Checked(_) => 7
    case ReadBack => 8
    case NeedFinalizer(_) => 9
  }

  /** The round's next step when nobody else moves: every read returns the newest
      version. */
  function NextStep(s: State, f: Outcome): (l: Label)
    requires Placed(s) && !s.round.Idle?
    ensures Enabled(s, l) && IsRoundStep(l) && (s.lastOwn < |s.log| ==> Timely(s, l))
  {
    var last := |s.log| - 1;
    match s.round
    case NeedFinalizer(_) => AddFinalizer(f.finalizerOk)
    case ReadBack => Refetch(last, f.refetchOk)
    case Checked(_) => Decide(f.note, f.now)
    case Purged(_, _) => Build(f.buildOk, f.note, f.now)
    case Built(_, _, _) => Register(f.now)
    case Writing(_, _, _, _) => GetFresh(last, f.getOk)
    case HaveFresh(_, _, _, _, _) => WriteStatus(f.writeOk)
    case Persisted(_, _, _) => Reread(last, f.rereadOk)
    case Clearing(_, _, _, _) => ClearTrigger(f.clearOk)
    case Deleting(_) => Retract
    case Unfinalizing(_) => RemoveFinalizer(f.unfinalizeOk)
  }

  /** A round step appends at most one version, and never touches the spec. */
  lemma RoundStepShape(s: State, l: Label)
    requires Enabled(s, l) && IsRoundStep(l)
    ensures var t := Apply(s, l);
      && (t.log == s.log || (|t.log| == |s.log| + 1 && t.log == s.log + [Cur(t)] && t.lastOwn == |s.log|))
      && (t.log == s.log ==> t.rebuilds == s.rebuilds && t.lastOwn == s.lastOwn)
      && Cur(t).spec == Cur(s).spec && Cur(t).generation == Cur(s).generation
      && t.rebuilds == s.rebuilds + (if PersistsRebuild(s, l) then 1 else 0)
  {
    match l
    case AddFinalizer(ok) =>
    case Refetch(i, ok) =>
    case Decide(note, now) =>
    case Build(ok, note, now) =>
    case Register(now) =>
    case GetFresh(j, ok) =>
    case WriteStatus(ok) =>
    case Reread(j, ok) =>
    case ClearTrigger(ok) =>
    case Retract =>
    case RemoveFinalizer(ok) =>
  }

  /** Every round step brings the round closer to its end. */
  lemma RoundStepRanks(s: State, l: Label)
    requires Placed(s) && Enabled(s, l) && IsRoundStep(l)
    ensures Placed(Apply(s, l)) && Rank(Apply(s, l).round) < Rank(s.round)
  {
    if l.Decide? || l.Build? || l.Register? {
      DraftingRanks(s, l);
    } else if l.GetFresh? || l.WriteStatus? || l.Reread? || l.ClearTrigger? {
      WritingRanks(s, l);
    }
  }

  lemma DraftingRanks(s: State, l: Label)
    requires Placed(s) && Enabled(s, l) && (l.Decide? || l.Build? || l.Register?)
    ensures Placed(Apply(s, l)) && Rank(Apply(s, l).round) < Rank(s.round)
  {
    hide Wanted, ShouldWrite, MustRebuild, Retire, ValidSpec;
  }

  lemma WritingRanks(s: State, l: Label)
    requires Placed(s) && Enabled(s, l) && (l.GetFresh? || l.WriteStatus? || l.Reread? || l.ClearTrigger?)
    ensures Placed(Apply(s, l)) && Rank(Apply(s, l).round) < Rank(s.round)
  {
  }

  function StepOnce(s: State, f: Outcome): (t: State)
    requires Placed(s) && !s.round.Idle?
    ensures Placed(t) && Rank(t.round) < Rank(s.round)
    ensures s.lastOwn < |s.log| ==> t.lastOwn < |t.log|
    ensures Cur(t).spec == Cur(s).spec && Cur(t).generation == Cur(s).generation
  {
    hide Apply, NextStep;
    RoundStepRanks(s, NextStep(s, f));
    RoundStepShape(s, NextStep(s, f));
    Apply(s, NextStep(s, f))
  }

  /** Runs the round at hand to its end. */
  function Drive(s: State, f: Outcome): (t: State)
    requires Placed(s)
    ensures t.round.Idle? && |t.log| > 0
    ensures Cur(t).spec == Cur(s).spec && Cur(t).generation == Cur(s).generation
    decreases Rank(s.round)
  {
    hide StepOnce;
    if s.round.Idle? then s else Drive(StepOnce(s, f), f)
  }

  function BeginNewest(s: State): (t: State)
    requires |s.log| > 0
    ensures Placed(t) && t.log == s.log && t.lastOwn == s.lastOwn
  {
    BeginRound(s, |s.log| - 1)
  }

  function RunRound(s: State, f: Outcome): (t: State)
    requires |s.log| > 0 && s.round.Idle?
    ensures t.round.Idle? && |t.log| > 0
    ensures Cur(t).spec == Cur(s).spec && Cur(t).generation == Cur(s).generation
  {
    Drive(BeginNewest(s), f)
  }

  /** The same round as a sequence of labels. */
  function Schedule(s: State, f: Outcome): seq<Label>
    requires Placed(s)
    decreases Rank(s.round)
  {
    hide StepOnce, NextStep;
    if s.round.Idle? then [] else [NextStep(s, f)] + Schedule(StepOnce(s, f), f)
  }

  /** Refinement: an uninterrupted round is one of the runs the safety theorems
      speak about. */
  lemma {:induction false} DriveIsRun(s: State, f: Outcome)
    requires Placed(s) && s.lastOwn < |s.log|
    ensures IsRun(s, Schedule(s, f), true) && Exec(s, Schedule(s, f)) == Drive(s, f)
    decreases Rank(s.round)
  {
    hide Apply, NextStep;
    if !s.round.Idle? {
      var l := NextStep(s, f);
      var t := StepOnce(s, f);
      DriveIsRun(t, f);
      assert Schedule(s, f)[1..] == Schedule(t, f);
    }
  }

  lemma TimedHasWindow(s: State)
    requires Timed(s)
    ensures |s.log| > 0 && s.lastOwn < |s.log|
  {
  }

  lemma RoundKeepsInvariants(s: State, f: Outcome)
    requires Sound(s) && Timed(s) && s.round.Idle?
    ensures Sound(RunRound(s, f)) && Timed(RunRound(s, f))
  {
    hide Sound, Timed, Drive, Schedule;
    TimedHasWindow(s);
    var l := Begin(|s.log| - 1);
    SoundRound(s, l);
    TimedRound(s, l);
    var t := BeginNewest(s);
    assert Apply(s, l) == t;
    DriveIsRun(t, f);
    TimedRun(t, Schedule(t, f));
  }

  // ------------------------------------------------------------------- events

  /** SecretStorePredicate: a store that appears or vanishes always passes. On updates
      deletion timestamps are compared as pointers of two separately decoded objects,
      so two set timestamps always differ. */
  predicate StoreEventPasses(o: Store, n: Store) {
    if o.gone != n.gone then true
    else
      || o.spec != n.spec
      || o.deleting || n.deleting
      || o.generation != n.generation
      || (o.trigger != n.trigger && n.trigger != 0)
  }

  /** The filter of the ExternalSecret reverse watch: creations and deletions pass,
      updates go through storeUpdateRelevant. */
  predicate WatchEventPasses(o: Store, n: Store) {
    if o.gone != n.gone then true
    else
      || o.spec != n.spec
      || o.generation != n.generation
      || o.deleting != n.deleting
      || o.status.clientGeneration != n.status.clientGeneration
  }

  /** The step after which the store no longer exists. */
  predicate Vanishes(s: State, t: State)
    requires |s.log| > 0 && |t.log| > 0
  {
    !Cur(s).gone && Cur(t).gone
  }

  /** The four steps that write, and what each writes. */
  lemma WritingSteps(s: State, l: Label)
    requires Enabled(s, l) && IsRoundStep(l) && |Apply(s, l).log| > |s.log|
    ensures l.AddFinalizer? || l.WriteStatus? || l.ClearTrigger? || l.RemoveFinalizer?
    ensures Apply(s, l).log == s.log + [Cur(Apply(s, l))]
    ensures Cur(Apply(s, l)) ==
      match l
      case AddFinalizer(_) => Cur(s).(finalizer := true)
      case WriteStatus(_) => Cur(s).(status := s.round.st)
      case ClearTrigger(_) => Cur(s).(trigger := 0)
      case _ => Cur(s).(finalizer := false, gone := true)
    ensures PersistsRebuild(s, l) <==> l.WriteStatus? && s.round.kind.Rebuilt?
  {
    if !(l.AddFinalizer? || l.WriteStatus? || l.ClearTrigger? || l.RemoveFinalizer?) {
      QuietSteps(s, l);
    }
  }

  lemma QuietSteps(s: State, l: Label)
    requires Enabled(s, l) && IsRoundStep(l)
    requires !l.AddFinalizer? && !l.WriteStatus? && !l.ClearTrigger? && !l.RemoveFinalizer?
    ensures Apply(s, l).log == s.log
  {
    hide Wanted, ShouldWrite, MustRebuild, Retire, ValidSpec;
  }

  /** What the invariants say about a step that writes: it writes over a live store,
      takes the finalizer only off a store being deleted, and bumps by one. */
  lemma WriteContext(s: State, l: Label)
    requires Sound(s) && Timed(s) && Enabled(s, l) && IsRoundStep(l) && |Apply(s, l).log| > |s.log|
    ensures !Cur(s).gone
    ensures l.RemoveFinalizer? ==> Cur(s).deleting
    ensures l.WriteStatus? ==>
              s.round.st.clientGeneration == Cur(s).status.clientGeneration + (if s.round.kind.Rebuilt? then 1 else 0)
  {
    hide WindowOk, NoneAhead, FreshClients, FailuresReal;
  }

  lemma OwnWrite(s: State, l: Label)
    requires Sound(s) && Timed(s) && Enabled(s, l) && IsRoundStep(l) && |Apply(s, l).log| > |s.log|
    ensures var t := Apply(s, l);
      && t.log == s.log + [Cur(t)]
      && !Cur(s).gone
      && (Cur(t).gone <==> l.RemoveFinalizer?)
      && (StoreEventPasses(Cur(s), Cur(t)) <==> Cur(s).deleting)
      && (WatchEventPasses(Cur(s), Cur(t)) <==> PersistsRebuild(s, l) || Cur(t).gone)
  {
    hide Sound, Timed, Apply;
    WriteContext(s, l);
    WritingSteps(s, l);
  }

  /** No self-triggering, over every interleaving: what a round itself writes to a
      store that is not being deleted never wakes the store controller again. It wakes
      the ExternalSecret controller exactly when it persists a rebuild, or takes the
      last finalizer off so that the store vanishes. */
  lemma OwnWritesDoNotSelfTrigger(key: string, sp: Spec, ls: seq<Label>, l: Label)
    requires IsRun(Init(key, sp), ls, true)
    requires Enabled(Exec(Init(key, sp), ls), l) && IsRoundStep(l)
    ensures var s := Exec(Init(key, sp), ls); var t := Apply(s, l);
      |t.log| > |s.log| ==>
        && (StoreEventPasses(Cur(s), Cur(t)) <==> Cur(s).deleting)
        && (WatchEventPasses(Cur(s), Cur(t)) <==> PersistsRebuild(s, l) || Cur(t).gone)
        && (Cur(t).gone <==> l.RemoveFinalizer?)
  {
    SoundInit(key, sp);
    TimedInit(key, sp);
    TimedRun(Init(key, sp), ls);
    var s := Exec(Init(key, sp), ls);
    if |Apply(s, l).log| > |s.log| {
      OwnWrite(s, l);
    }
    hide Sound, Timed, Apply, StoreEventPasses, WatchEventPasses;
  }

  /** What users and the trigger controllers do to a store. */
  predicate Changes(l: Label) {
    l.Edit? || l.Trigger? || l.RequestDelete? || l.Create?
  }

  /** Everybody else's changes are seen, in every run: each one wakes the store controller,
      and each one but a trigger wakes the ExternalSecret controller, which is to wait for
      the rebuild. */
  lemma OutsideChangesAreSeen(key: string, sp: Spec, ls: seq<Label>, l: Label)
    requires IsRun(Init(key, sp), ls, false) && Enabled(Exec(Init(key, sp), ls), l) && Changes(l)
    ensures var s := Exec(Init(key, sp), ls); var t := Apply(s, l);
      && |t.log| == |s.log| + 1
      && StoreEventPasses(Cur(s), Cur(t))
      && (WatchEventPasses(Cur(s), Cur(t)) <==> !l.Trigger?)
  {
    SoundInit(key, sp);
    SoundRun(Init(key, sp), ls, false);
    ChangeIsSeen(Exec(Init(key, sp), ls), l);
    hide Exec, IsRun, Sound, Apply;
  }

  lemma ChangeIsSeen(s: State, l: Label)
    requires Sound(s) && Enabled(s, l) && Changes(l)
    ensures var t := Apply(s, l);
      && |t.log| == |s.log| + 1
      && StoreEventPasses(Cur(s), Cur(t))
      && (WatchEventPasses(Cur(s), Cur(t)) <==> !l.Trigger?)
  {
    hide RoundOk;
    if Cur(s).trigger != 0 {
      assert s.log[|s.log| - 1].trigger in s.stamps;
    }
  }

  /** No lost wake-up, over every interleaving: whenever a new version of a live store
      leaves the controller with a rebuild it did not have to do before, whoever wrote
      that version, its event wakes the controller. */
  lemma NoLostWakeUp(key: string, sp: Spec, ls: seq<Label>, l: Label)
    requires IsRun(Init(key, sp), ls, true) && Enabled(Exec(Init(key, sp), ls), l)
    ensures var s := Exec(Init(key, sp), ls); var t := Apply(s, l);
      |t.log| > |s.log| && !MustRebuild(s, Cur(s)) && MustRebuild(t, Cur(t)) ==> StoreEventPasses(Cur(s), Cur(t))
  {
    SoundInit(key, sp);
    TimedInit(key, sp);
    TimedRun(Init(key, sp), ls);
    var s := Exec(Init(key, sp), ls);
    if |Apply(s, l).log| > |s.log| {
      if Changes(l) {
        ChangeIsSeen(s, l);
      } else {
        OnlyRoundsWriteElse(s, l);
        OwnWriteAddsNoWork(s, l);
      }
    }
    hide Exec, IsRun, Sound, Timed, Apply, MustRebuild, StoreEventPasses;
  }

  lemma OnlyRoundsWriteElse(s: State, l: Label)
    requires Enabled(s, l) && !Changes(l) && |Apply(s, l).log| > |s.log|
    ensures IsRoundStep(l)
  {
  }

  lemma OwnWriteAddsNoWork(s: State, l: Label)
    requires Sound(s) && Timed(s) && Enabled(s, l) && IsRoundStep(l) && |Apply(s, l).log| > |s.log|
    ensures var t := Apply(s, l); MustRebuild(t, Cur(t)) && !MustRebuild(s, Cur(s)) ==> StoreEventPasses(Cur(s), Cur(t))
  {
    WriteContext(s, l);
    WritingSteps(s, l);
    WrittenVerdict(s, l);
    RegistryStays(s, l);
    hide Sound, Timed, Apply, ReadyObserved;
  }

  lemma RegistryStays(s: State, l: Label)
    requires Enabled(s, l) && IsRoundStep(l) && |Apply(s, l).log| > |s.log|
    ensures var t := Apply(s, l); t.key == s.key && t.kms == s.kms && t.oos == s.oos
  {
    WritingSteps(s, l);
  }

  /** A status write never sets the observed generation back: if it trails the store's,
      so did the one it replaces. */
  lemma WrittenVerdict(s: State, l: Label)
    requires Sound(s) && Timed(s) && Enabled(s, l) && IsRoundStep(l) && |Apply(s, l).log| > |s.log|
    ensures l.WriteStatus? && ReadyObserved(s.round.st) != Some(Cur(s).generation) ==>
              ReadyObserved(Cur(s).status) != Some(Cur(s).generation)
  {
    hide WindowOk, NoneAhead, FreshClients, FailuresReal, RoundOk, StampsOk;
  }

  /** Watch events between version `k` and the newest one. */
  function WatchEvents(log: seq<Store>, k: nat): nat
    decreases |log| - k
  {
    if k + 1 >= |log| then 0
    else (if WatchEventPasses(log[k], log[k + 1]) then 1 else 0) + WatchEvents(log, k + 1)
  }

  lemma {:induction false} WatchEventsAppend(log: seq<Store>, o: Store, k: nat)
    requires k < |log|
    ensures WatchEvents(log + [o], k)
         == WatchEvents(log, k) + (if WatchEventPasses(log[|log| - 1], o) then 1 else 0)
    decreases |log| - k
  {
    if k + 1 < |log| {
      WatchEventsAppend(log, o, k + 1);
    } else {
      assert WatchEvents(log + [o], k + 1) == 0;
    }
  }

  lemma StepEvents(s: State, l: Label, k: nat)
    requires Sound(s) && Timed(s) && Enabled(s, l) && IsRoundStep(l) && k < |s.log|
    ensures var t := Apply(s, l);
      t.rebuilds >= s.rebuilds && |t.log| >= |s.log| && (Cur(s).gone ==> Cur(t).gone)
      && WatchEvents(t.log, k) == WatchEvents(s.log, k) + (t.rebuilds - s.rebuilds) + (if Vanishes(s, t) then 1 else 0)
  {
    hide Apply, Sound, Timed, WatchEventPasses;
    var t := Apply(s, l);
    RoundStepShape(s, l);
    if |t.log| > |s.log| {
      OwnWrite(s, l);
      WatchEventsAppend(s.log, Cur(t), k);
    }
  }

  lemma {:induction false} DriveEvents(s: State, f: Outcome, k: nat)
    requires Placed(s) && Sound(s) && Timed(s) && k < |s.log|
    ensures var t := Drive(s, f);
      t.rebuilds >= s.rebuilds && (Cur(s).gone ==> Cur(t).gone)
      && WatchEvents(t.log, k) == WatchEvents(s.log, k) + (t.rebuilds - s.rebuilds) + (if Vanishes(s, t) then 1 else 0)
    decreases Rank(s.round)
  {
    hide Sound, Timed, NextStep, Apply;
    if !s.round.Idle? {
      var l := NextStep(s, f);
      var t := StepOnce(s, f);
      TimedHasWindow(s);
      SoundRound(s, l);
      TimedRound(s, l);
      StepEvents(s, l, k);
      DriveEvents(t, f, k);
    }
  }

  // -------------------------------------------------------------- convergence

  /** The store's status is settled: reconciled, accepted, nothing pending, and the
      configured provider holds the plain client. */
  predicate Settled(s: State)
    requires |s.log| > 0
  {
    var o := Cur(s);
    && s.round.Idle? && !o.gone && !o.deleting && o.finalizer && ValidSpec(o.spec) && o.trigger == 0
    && Ready(o.status).Some?
    && SameVerdict(Ready(o.status).value, Verdict(Refresh, ""))
    && Ready(o.status).value.observedGeneration == o.generation
    && s.key in Get(s, Configured(o.spec))
  }

  lemma SettledIsLive(s: State)
    requires |s.log| > 0
    ensures Settled(s) ==> !Cur(s).gone
  {
  }

  /** Later rounds write nothing at all, whatever the API would answer. */
  lemma SettledIsQuiet(s: State, f: Outcome)
    requires |s.log| > 0 && Settled(s)
    ensures RunRound(s, f) == s
  {
    var o := Cur(s);
    var a := BeginNewest(s);
    assert a.round == Checked(|s.log| - 1) && !MustRebuild(a, o);
    RepeatSuppressed(o.status, Verdict(Refresh, ""), o.generation, f.now);
    assert DecideStep(a, f.note, f.now) == s;
    assert StepOnce(a, f) == s;
    assert Drive(a, f) == Drive(s, f);
  }

  lemma WantedReady(o: Store, kind: WriteKind, now: int)
    requires kind.Refresh? || kind.Rebuilt?
    ensures var r := Ready(Wanted(o, kind, "", now));
      r.Some? && SameVerdict(r.value, Verdict(Refresh, "")) && r.value.observedGeneration == o.generation
  {
    WithConditionFound(Base(o, kind).conditions, Verdict(kind, ""), o.generation, now, READY);
  }

  lemma DriveOnce(s: State, f: Outcome)
    requires Placed(s) && !s.round.Idle?
    ensures Drive(s, f) == Drive(StepOnce(s, f), f)
  {
  }

  /** The last two steps of any status write. */
  lemma DriveWrite(s: State, f: Outcome)
    requires Undisturbed(f) && |s.log| > 0 && s.round.Writing? && s.round.i == |s.log| - 1 && !Cur(s).gone
    ensures var r := s.round;
      Drive(s, f) == Drive(WriteStep(s.(round := HaveFresh(r.i, r.since, r.kind, r.st, |s.log| - 1)), true), f)
  {
    hide Drive;
    var r := s.round;
    var b := s.(round := HaveFresh(r.i, r.since, r.kind, r.st, |s.log| - 1));
    assert StepOnce(s, f) == b;
    DriveOnce(s, f);
    assert StepOnce(b, f) == WriteStep(b, true);
    DriveOnce(b, f);
  }

  predicate Live(o: Store) {
    !o.gone && !o.deleting && o.finalizer && ValidSpec(o.spec)
  }

  lemma SettleByKeeping(s: State, f: Outcome)
    requires Undisturbed(f) && |s.log| > 0 && s.round == Checked(|s.log| - 1)
    requires Live(Cur(s)) && !MustRebuild(s, Cur(s))
    ensures Settled(Drive(s, f)) && Drive(s, f).rebuilds == s.rebuilds
  {
    hide Drive;
    var o := Cur(s);
    WantedReady(o, Refresh, f.now);
    RepeatSuppressed(o.status, Verdict(Refresh, ""), o.generation, f.now);
    var a := WantStatus(s, |s.log| - 1, 0, Refresh, "", f.now);
    assert StepOnce(s, f) == a;
    DriveOnce(s, f);
    if a.round.Writing? {
      DriveWrite(a, f);
    }
    DriveIdle(f);
  }

  lemma DriveIdle(f: Outcome)
    ensures forall s: State | Placed(s) && s.round.Idle? :: Drive(s, f) == s
  {
  }

  lemma DriveClear(s: State, f: Outcome)
    requires FaultFree(f) && |s.log| > 0 && s.round.Persisted? && s.round.i < |s.log|
    requires !Cur(s).gone && Cur(s).trigger == s.log[s.round.i].trigger
    ensures Drive(s, f) == Own(s, Cur(s).(trigger := 0), Idle)
  {
    hide Drive;
    var r := s.round;
    var b := s.(round := Clearing(r.i, r.since, r.w, |s.log| - 1));
    assert StepOnce(s, f) == b;
    DriveOnce(s, f);
    assert StepOnce(b, f) == Own(s, Cur(s).(trigger := 0), Idle);
    DriveOnce(b, f);
    DriveIdle(f);
  }

  /** From the bumped status write to the end of the round. */
  lemma SettleWrite(c: State, f: Outcome)
    requires FaultFree(f) && |c.log| > 0 && c.round.Writing? && c.round.kind.Rebuilt? && c.round.i == |c.log| - 1
    requires Live(Cur(c)) && c.key in Get(c, Configured(Cur(c).spec))
    requires Ready(c.round.st).Some? && SameVerdict(Ready(c.round.st).value, Verdict(Refresh, ""))
    requires Ready(c.round.st).value.observedGeneration == Cur(c).generation
    ensures Settled(Drive(c, f)) && Drive(c, f).rebuilds == c.rebuilds + 1
    ensures var t := Drive(c, f); Cur(t).status == c.round.st && t.kms == c.kms && t.oos == c.oos
  {
    hide Drive, Ready, SameVerdict, Verdict, ValidSpec;
    DriveWrite(c, f);
    var r := c.round;
    var d := WriteStep(c.(round := HaveFresh(r.i, r.since, r.kind, r.st, |c.log| - 1)), true);
    assert Cur(d) == Cur(c).(status := r.st) && d.log[r.i] == Cur(c);
    if Cur(c).trigger != 0 {
      DriveClear(d, f);
    }
    DriveIdle(f);
  }

  lemma RebuiltDraft(o: Store, now: int)
    ensures var st := Wanted(o, Rebuilt, "", now);
      st.capabilities == "ReadOnly" && st.clientGeneration == o.status.clientGeneration + 1
  {
  }

  /** From the registration of the rebuilt client to the end of the round. */
  lemma SettleReport(s: State, f: Outcome)
    requires FaultFree(f) && |s.log| > 0 && s.round.Built? && s.round.i == |s.log| - 1 && Live(Cur(s))
    ensures Settled(Drive(s, f)) && Drive(s, f).rebuilds == s.rebuilds + 1
    ensures var o := Cur(s); var t := Drive(s, f);
      && Cur(t).status.capabilities == "ReadOnly"
      && Cur(t).status.clientGeneration == o.status.clientGeneration + 1
      && t.kms == (if o.spec.kms then s.kms[s.key := s.round.client] else s.kms)
      && t.oos == (if o.spec.kms then s.oos else s.oos[s.key := s.round.client])
  {
    RebuiltDraft(Cur(s), f.now);
    hide Drive, Settled, Live, Wanted, ShouldWrite;
    var o := Cur(s);
    WantedReady(o, Rebuilt, f.now);
    RebuildAlwaysReported(s, f.now);
    var c := RegisterStep(s, f.now);
    assert StepOnce(s, f) == c;
    DriveOnce(s, f);
    SettleWrite(c, f);
  }

  /** All clients of the store are gone but, at its provider, the new plain one; the
      clients of other stores are as before. */
  ghost predicate Rekeyed(after: Registry, before: Registry, key: string, rebuilt: bool, c: Client) {
    && (forall k | IsVariant(key, k) :: k in after <==> rebuilt && k == key)
    && (rebuilt ==> key in after && after[key] == c)
    && (forall k | !IsVariant(key, k) :: (k in after <==> k in before) && (k in after ==> after[k] == before[k]))
  }

  lemma SettleByRebuilding(s: State, f: Outcome)
    requires FaultFree(f) && |s.log| > 0 && s.round == Checked(|s.log| - 1)
    requires Live(Cur(s)) && MustRebuild(s, Cur(s))
    ensures Settled(Drive(s, f)) && Drive(s, f).rebuilds == s.rebuilds + 1
    ensures var t := Drive(s, f); var o := Cur(s);
      && Cur(t).status.capabilities == "ReadOnly"
      && Cur(t).status.clientGeneration == o.status.clientGeneration + 1
      && Rekeyed(t.kms, s.kms, s.key, o.spec.kms, Client(o.uid, o.generation, s.epoch))
      && Rekeyed(t.oos, s.oos, s.key, !o.spec.kms, Client(o.uid, o.generation, s.epoch))
  {
    hide Drive, Settled, Rekeyed, Retire;
    var i := |s.log| - 1;
    var o := Cur(s);
    var a := Purge(s).(round := Purged(i, s.epoch));
    assert StepOnce(s, f) == a;
    DriveOnce(s, f);
    var b := a.(round := Built(i, s.epoch, Client(o.uid, o.generation, s.epoch)));
    assert StepOnce(a, f) == b;
    DriveOnce(a, f);
    SettleReport(b, f);
    RetireRekeys(s.kms, s.key, o.spec.kms, b.round.client);
    RetireRekeys(s.oos, s.key, !o.spec.kms, b.round.client);
  }

  lemma RetireRekeys(before: Registry, key: string, rebuilt: bool, c: Client)
    ensures Rekeyed(if rebuilt then Retire(before, key)[key := c] else Retire(before, key), before, key, rebuilt, c)
  {
  }

  /** Convergence: from any reachable state with a valid spec, one undisturbed
      fault-free round settles the store, and every later round leaves it alone.
      The ExternalSecret controller receives one watch event if the round had to
      rebuild the client, and none otherwise. */
  lemma Converges(key: string, sp: Spec, ls: seq<Label>, f: Outcome, g: Outcome)
    requires IsRun(Init(key, sp), ls, true) && FaultFree(f)
    requires var s := Exec(Init(key, sp), ls);
      |s.log| > 0 && s.round.Idle? && !Cur(s).gone && !Cur(s).deleting && ValidSpec(Cur(s).spec)
    ensures var s := Exec(Init(key, sp), ls); var t := RunRound(s, f);
      && Settled(t)
      && Cur(t).spec == Cur(s).spec && Cur(t).generation == Cur(s).generation
      && RunRound(t, g) == t
      && WatchEvents(t.log, |s.log| - 1) == (if MustRebuild(s, Cur(s)) then 1 else 0)
  {
    hide Sound, Timed, Settled;
    SoundInit(key, sp);
    TimedInit(key, sp);
    TimedRun(Init(key, sp), ls);
    var s := Exec(Init(key, sp), ls);
    RoundSettles(s, f);
    SettledIsQuiet(RunRound(s, f), g);
  }

  /** Adding the finalizer, if it is missing, on the way to the decision. */
  lemma CheckedFrom(a: State, f: Outcome) returns (c: State)
    requires Undisturbed(f) && |a.log| > 0 && !Cur(a).gone
    requires a.round == if Cur(a).finalizer then Checked(|a.log| - 1) else NeedFinalizer(|a.log| - 1)
    ensures |c.log| > 0 && c.round == Checked(|c.log| - 1) && Drive(a, f) == Drive(c, f)
    ensures Cur(c) == Cur(a).(finalizer := true)
    ensures c.key == a.key && c.kms == a.kms && c.oos == a.oos && c.rebuilds == a.rebuilds && c.epoch == a.epoch
  {
    hide Drive;
    c := a;
    if a.round.NeedFinalizer? {
      var b := Own(a, Cur(a).(finalizer := true), ReadBack);
      assert StepOnce(a, f) == b;
      DriveOnce(a, f);
      c := b.(round := Checked(|b.log| - 1));
      assert StepOnce(b, f) == c;
      DriveOnce(b, f);
    }
  }

  lemma RoundSettles(s: State, f: Outcome)
    requires Sound(s) && Timed(s) && FaultFree(f)
    requires |s.log| > 0 && s.round.Idle? && !Cur(s).gone && !Cur(s).deleting && ValidSpec(Cur(s).spec)
    ensures var t := RunRound(s, f);
      Settled(t) && WatchEvents(t.log, |s.log| - 1) == (if MustRebuild(s, Cur(s)) then 1 else 0)
  {
    hide Drive, Settled, Sound, Timed, ValidSpec, ReadyObserved;
    TimedHasWindow(s);
    var a := BeginNewest(s);
    SoundRound(s, Begin(|s.log| - 1));
    TimedRound(s, Begin(|s.log| - 1));
    assert a == Apply(s, Begin(|s.log| - 1));
    DriveEvents(a, f, |s.log| - 1);
    var c := CheckedFrom(a, f);
    SettledIsLive(Drive(a, f));
    if MustRebuild(c, Cur(c)) {
      SettleByRebuilding(c, f);
    } else {
      SettleByKeeping(c, f);
    }
  }

  // --------------------------------------------------------- what rounds report

  /** The Ready condition says this about the store's current generation. */
  predicate Recorded(o: Store, status: string, reason: string, message: string) {
    && Ready(o.status).Some?
    && Ready(o.status).value.status == status && Ready(o.status).value.reason == reason
    && Ready(o.status).value.message == message && Ready(o.status).value.observedGeneration == o.generation
  }

  /** An undisturbed status write without a rebuild, or its omission because nothing
      changed, leaves the verdict recorded and everything else alone. */
  lemma VerdictIsRecorded(s: State, since: nat, kind: WriteKind, note: string, f: Outcome)
    requires Undisturbed(f) && |s.log| > 0 && !Cur(s).gone && !kind.Rebuilt?
    ensures var t := Drive(WantStatus(s, |s.log| - 1, since, kind, note, f.now), f); var v := Verdict(kind, note);
      && Recorded(Cur(t), v.status, v.reason, v.message)
      && Cur(t) == Cur(s).(status := Cur(t).status) && t.kms == s.kms && t.oos == s.oos
  {
    hide Drive, Wanted, ShouldWrite, Verdict, Ready, Base;
    var i := |s.log| - 1;
    var o := Cur(s);
    var a := WantStatus(s, i, since, kind, note, f.now);
    WantedIsRecorded(o, kind, note, f.now);
    if a.round.Writing? {
      DriveWrite(a, f);
    }
    DriveIdle(f);
  }

  /** The drafted status records the verdict, and so does the old one if the draft is
      not worth writing. */
  lemma WantedIsRecorded(o: Store, kind: WriteKind, note: string, now: int)
    requires !kind.Rebuilt?
    ensures var st := Wanted(o, kind, note, now); var v := Verdict(kind, note);
      && Recorded(o.(status := st), v.status, v.reason, v.message)
      && (!ShouldWrite(Base(o, kind), st) ==> Recorded(o, v.status, v.reason, v.message))
  {
    var v := Verdict(kind, note);
    RepeatSuppressed(o.status, v, o.generation, now);
    WithConditionFound(o.status.conditions, v, o.generation, now, READY);
    hide ShouldWrite, FirstOfKind, WithCondition;
  }

  /** What the status says after a round in which every API call succeeds: a rejected
      spec is recorded as such and no client is touched; a failed construction is
      recorded, with every client of the store retired and the trigger still pending;
      otherwise the store is valid, and its client is there. */
  lemma RoundRecordsItsVerdict(s: State, f: Outcome)
    requires Sound(s) && Timed(s) && Undisturbed(f) && s.round.Idle? && !Cur(s).gone && !Cur(s).deleting
    ensures var o := Cur(s); var t := RunRound(s, f); var c := Cur(t);
            var valid := o.spec.kms != o.spec.oos && o.spec.refsOk;
      && (!valid ==>
            Recorded(c, "False", "ValidationFailed", f.note) && t.kms == s.kms && t.oos == s.oos)
      && (valid && MustRebuild(s, o) && !f.buildOk ==>
            && Recorded(c, "False", "ClientCreationFailed", f.note)
            && t.kms == Retire(s.kms, s.key) && t.oos == Retire(s.oos, s.key) && c.trigger == o.trigger)
      && (valid && (MustRebuild(s, o) ==> f.buildOk) ==>
            && Recorded(c, "True", "Valid", "") && c.trigger == 0
            && t.key in (if o.spec.kms then t.kms else t.oos))
  {
    hide Drive, Sound, Timed, Ready, Retire, Wanted, ShouldWrite;
    TimedHasWindow(s);
    var o := Cur(s);
    var a := BeginNewest(s);
    var c := CheckedFrom(a, f);
    if !ValidSpec(o.spec) {
      DriveOnce(c, f);
      DecideOnce(c, f);
      VerdictIsRecorded(c, 0, Invalid, f.note, f);
    } else if MustRebuild(s, o) && !f.buildOk {
      FailedBuild(c, f);
    } else if MustRebuild(s, o) {
      SettleByRebuilding(c, f);
    } else {
      DriveOnce(c, f);
      DecideOnce(c, f);
      SettleByKeeping(c, f);
    }
    SettledAdmits(Drive(a, f));
  }

  /** What a rebuild delivers: the store's clients, plain and per endpoint, give way to one
      new client built from the store as it is with the credentials of the day, and the
      status announces it once. */
  lemma RebuildDelivers(s: State, f: Outcome)
    requires Sound(s) && Timed(s) && FaultFree(f) && s.round.Idle? && !Cur(s).gone && !Cur(s).deleting
    requires ValidSpec(Cur(s).spec) && MustRebuild(s, Cur(s))
    ensures var o := Cur(s); var t := RunRound(s, f); var c := Cur(t);
      && c.status.capabilities == "ReadOnly" && c.status.clientGeneration == o.status.clientGeneration + 1
      && c.trigger == 0
      && Rekeyed(t.kms, s.kms, s.key, o.spec.kms, Client(o.uid, o.generation, s.epoch))
      && Rekeyed(t.oos, s.oos, s.key, !o.spec.kms, Client(o.uid, o.generation, s.epoch))
  {
    hide Drive, Sound, Timed, Ready, Retire, Wanted, ShouldWrite, Rekeyed;
    TimedHasWindow(s);
    var c := CheckedFrom(BeginNewest(s), f);
    SettleByRebuilding(c, f);
    SettledHasNoTrigger(RunRound(s, f));
  }

  lemma SettledHasNoTrigger(s: State)
    requires |s.log| > 0 && Settled(s)
    ensures Cur(s).trigger == 0
  {
  }

  lemma FailedBuild(c: State, f: Outcome)
    requires Undisturbed(f) && !f.buildOk && |c.log| > 0 && c.round == Checked(|c.log| - 1)
    requires Live(Cur(c)) && MustRebuild(c, Cur(c))
    ensures var t := Drive(c, f);
      && Recorded(Cur(t), "False", "ClientCreationFailed", f.note)
      && t.kms == Retire(c.kms, c.key) && t.oos == Retire(c.oos, c.key) && Cur(t).trigger == Cur(c).trigger
  {
    hide Drive, Retire, Ready, StepOnce, Apply, NextStep, Wanted, ShouldWrite, MustRebuild;
    var a := Purge(c).(round := Purged(|c.log| - 1, c.epoch));
    DriveOnce(c, f);
    DecideOnce(c, f);
    DriveOnce(a, f);
    BuildOnce(a, f);
    VerdictIsRecorded(a, c.epoch, Failed, f.note, f);
  }

  /** Deleting a store: one undisturbed round retires its clients, whatever their
      endpoint, takes the finalizer off and lets the store go. */
  lemma DeletionCompletes(s: State, f: Outcome)
    requires |s.log| > 0 && s.round.Idle? && !Cur(s).gone && Cur(s).deleting && Cur(s).finalizer && f.unfinalizeOk
    ensures var t := RunRound(s, f);
      && Cur(t).gone && !Cur(t).finalizer
      && (forall k | IsVariant(s.key, k) :: k !in t.kms && k !in t.oos)
      && (forall k | !IsVariant(s.key, k) ::
            && (k in t.kms <==> k in s.kms) && (k in s.kms ==> t.kms[k] == s.kms[k])
            && (k in t.oos <==> k in s.oos) && (k in s.oos ==> t.oos[k] == s.oos[k]))
  {
    hide Drive;
    var a := BeginNewest(s);
    DriveOnce(a, f);
    RetractOnce(a, f);
    var b := Purge(a).(round := Unfinalizing(|s.log| - 1));
    DriveOnce(b, f);
    UnfinalizeOnce(b, f);
    DriveIdle(f);
  }

  /** The guard lets the store's clients through again: one undisturbed, fault-free round
      over a valid spec is all it takes, from any reachable state. */
  lemma RoundReopensGuard(key: string, sp: Spec, ls: seq<Label>, f: Outcome)
    requires IsRun(Init(key, sp), ls, true) && FaultFree(f)
    requires var s := Exec(Init(key, sp), ls);
      |s.log| > 0 && s.round.Idle? && !Cur(s).gone && !Cur(s).deleting && ValidSpec(Cur(s).spec)
    ensures var t := RunRound(Exec(Init(key, sp), ls), f);
      !Cur(t).gone && GuardAdmits(Cur(t), true)
  {
    Converges(key, sp, ls, f, f);
    var t := RunRound(Exec(Init(key, sp), ls), f);
    SettledAdmits(t);
    hide Exec, IsRun, RunRound;
  }

  lemma SettledAdmits(t: State)
    requires |t.log| > 0
    ensures Settled(t) ==> !Cur(t).gone && GuardAdmits(Cur(t), true)
    ensures Settled(t) ==> Recorded(Cur(t), "True", "Valid", "")
  {
  }

  // ------------------------------------------------- where the guard is blind

  /** A rejected spec edit: after the round that records the validation failure,
      the guard admits every cached client again although each one, plain or per
      endpoint, predates the edit. This is the case `Managed` excludes. */
  lemma RejectedEditKeepsOldClients(s: State, sp: Spec, f: Outcome)
    requires Sound(s) && Timed(s) && s.round.Idle? && FaultFree(f)
    requires !Cur(s).gone && !Cur(s).deleting && Cur(s).finalizer
    requires sp != Cur(s).spec && !ValidSpec(sp)
    ensures var t := RunRound(Apply(s, Edit(sp)), f);
      && t.key == s.key && !Cur(t).gone && !Managed(Cur(t)) && Ready(Cur(t).status).Some?
      && (GuardAdmits(Cur(t), true) <==> Cur(s).trigger == 0)
      && t.kms == s.kms && t.oos == s.oos
      && (forall k | k in t.kms && IsVariant(s.key, k) ::
            t.kms[k].uid != Cur(t).uid || t.kms[k].generation < Cur(t).generation)
      && (forall k | k in t.oos && IsVariant(s.key, k) ::
            t.oos[k].uid != Cur(t).uid || t.oos[k].generation < Cur(t).generation)
  {
    hide Drive;
    var e := Apply(s, Edit(sp));
    var o := Cur(e);
    var a := BeginNewest(e);
    var b := WantStatus(a, |e.log| - 1, 0, Invalid, f.note, f.now);
    assert StepOnce(a, f) == b;
    DriveOnce(a, f);
    RepeatSuppressed(o.status, Verdict(Invalid, f.note), o.generation, f.now);
    WithConditionFound(o.status.conditions, Verdict(Invalid, f.note), o.generation, f.now, READY);
    assert b.round.Writing?;
    DriveWrite(b, f);
    DriveIdle(f);
    assert Cur(RunRound(e, f)) == o.(status := b.round.st);
  }

  /** A store that no round has reached yet: its predecessor of the same name may
      have left a client behind, and the guard admits it. The first round always
      rebuilds, since there is no Ready condition. */
  lemma UnmanagedStoreAdmitsOldClient(key: string, sp: Spec)
    ensures var ls := [Miss(KMS, key), RequestDelete, Create(sp)];
      IsRun(Init(key, sp), ls, true) &&
      var s := Exec(Init(key, sp), ls);
      |s.log| > 0 && s.key == key && !Cur(s).gone && Ready(Cur(s).status) == None && GuardAdmits(Cur(s), true)
      && key in s.kms && s.kms[key].uid != Cur(s).uid && MustRebuild(s, Cur(s))
  {
    var s0 := Init(key, sp);
    var s1 := Apply(s0, Miss(KMS, key));
    var s2 := Apply(s1, RequestDelete);
    var s3 := Apply(s2, Create(sp));
    var l3: seq<Label> := [Create(sp)];
    var l2 := [RequestDelete] + l3;
    var l1 := [Miss(KMS, key)] + l2;
    assert l1[1..] == l2 && l2[1..] == l3 && l3[1..] == [];
    assert IsRun(s3, [], true) && IsRun(s2, l3, true) && IsRun(s1, l2, true) && IsRun(s0, l1, true);
    assert Exec(s0, l1) == Exec(s1, l2) == Exec(s2, l3) == s3;
    assert l1 == [Miss(KMS, key), RequestDelete, Create(sp)];
  }

  /** What the store's status says of its last round, as the guard's caller can read it. */
  function VerdictOf(o: Store): Option<string> {
    if Ready(o.status).Some? then Some(Ready(o.status).value.reason) else None
  }

  /** In every reachable state with this verdict, the guard lets only current clients
      through. */
  ghost predicate GuardTrusted(v: Option<string>) {
    forall key, sp, ls | IsRun(Init(key, sp), ls, true) :: AdmitsOnlyCurrent(Exec(Init(key, sp), ls), v)
  }

  ghost predicate AdmitsOnlyCurrent(s: State, v: Option<string>) {
    |s.log| > 0 && !Cur(s).gone && VerdictOf(Cur(s)) == v && GuardAdmits(Cur(s), true) ==>
      AllBuiltFrom(s, Cur(s).uid, Cur(s).generation, Cur(s).generation)
  }

  /** The guard can be trusted on a verdict exactly when there is one and it is not a
      validation failure. */
  lemma GuardIsExact(v: Option<string>)
    ensures GuardTrusted(v) <==> v.Some? && v.value != VALIDATION_FAILED
  {
    hide Exec, IsRun, Init, AllBuiltFrom;
    if v.Some? && v.value != VALIDATION_FAILED {
      forall key, sp, ls | IsRun(Init(key, sp), ls, true)
        ensures AdmitsOnlyCurrent(Exec(Init(key, sp), ls), v)
      {
        GuardedClientsAreCurrent(key, sp, ls);
      }
    } else if v.None? {
      UntrustedUnmanaged();
    } else {
      UntrustedRejected();
    }
  }

  lemma UntrustedUnmanaged()
    ensures !GuardTrusted(None)
  {
    var sp := Spec(true, false, true, "");
    var ls := [Miss(KMS, "store"), RequestDelete, Create(sp)];
    UnmanagedStoreAdmitsOldClient("store", sp);
    var s := Exec(Init("store", sp), ls);
    assert IsVariant("store", "store");
    hide Exec, IsRun;
    assert !AdmitsOnlyCurrent(s, None);
  }

  lemma {:induction false} RunConcat(s: State, a: seq<Label>, b: seq<Label>)
    requires IsRun(s, a, true) && IsRun(Exec(s, a), b, true)
    ensures IsRun(s, a + b, true) && Exec(s, a + b) == Exec(Exec(s, a), b)
    decreases |a|
  {
    hide Apply, Enabled, Timely;
    if a == [] {
      assert a + b == b;
    } else {
      assert (a + b)[1..] == a[1..] + b;
      RunConcat(Apply(s, a[0]), a[1..], b);
    }
  }

  const GOOD_SPEC := Spec(true, false, true, "")
  const BAD_SPEC := Spec(true, true, true, "")

  /** A store with a finalizer and a cached client, between two rounds. */
  lemma ServedStore() returns (ls: seq<Label>, s: State)
    ensures IsRun(Init("store", GOOD_SPEC), ls, true) && Exec(Init("store", GOOD_SPEC), ls) == s
    ensures |s.log| > 0 && s.key == "store" && s.round.Idle? && "store" in s.kms
    ensures !Cur(s).gone && !Cur(s).deleting && Cur(s).finalizer && Cur(s).spec == GOOD_SPEC && Cur(s).trigger == 0
  {
    var s0 := Init("store", GOOD_SPEC);
    var s1 := Apply(s0, Begin(0));
    var s2 := Apply(s1, AddFinalizer(true));
    var s3 := Apply(s2, Refetch(1, false));
    s := Apply(s3, Miss(KMS, "store"));
    var l4: seq<Label> := [Miss(KMS, "store")];
    var l3 := [Refetch(1, false)] + l4;
    var l2 := [AddFinalizer(true)] + l3;
    ls := [Begin(0)] + l2;
    assert ls[1..] == l2 && l2[1..] == l3 && l3[1..] == l4 && l4[1..] == [];
    assert IsRun(s, [], true) && IsRun(s3, l4, true) && IsRun(s2, l3, true) && IsRun(s1, l2, true);
    assert Exec(s0, ls) == Exec(s1, l2) == Exec(s2, l3) == Exec(s3, l4) == s;
  }

  /** An undisturbed round after an edit, as a run. */
  lemma EditedRound(s: State, sp: Spec, f: Outcome) returns (ls: seq<Label>)
    requires Sound(s) && Timed(s) && s.round.Idle? && !Cur(s).gone && sp != Cur(s).spec
    ensures IsRun(s, ls, true) && Exec(s, ls) == RunRound(Apply(s, Edit(sp)), f)
  {
    var e := Apply(s, Edit(sp));
    var l := Begin(|e.log| - 1);
    var a := BeginNewest(e);
    assert Apply(e, l) == a;
    DriveIsRun(a, f);
    ls := [Edit(sp), l] + Schedule(a, f);
    assert ls[1..] == [l] + Schedule(a, f) && ls[1..][1..] == Schedule(a, f);
    hide Schedule, Drive, Sound, Timed;
    assert IsRun(e, ls[1..], true) && Exec(e, ls[1..]) == Exec(a, Schedule(a, f));
  }

  lemma UntrustedRejected()
    ensures !GuardTrusted(Some(VALIDATION_FAILED))
  {
    var ls, s := ServedStore();
    var f := Outcome(true, true, true, true, true, true, true, true, "", 0);
    SoundInit("store", GOOD_SPEC);
    TimedInit("store", GOOD_SPEC);
    TimedRun(Init("store", GOOD_SPEC), ls);
    RejectedEditKeepsOldClients(s, BAD_SPEC, f);
    var more := EditedRound(s, BAD_SPEC, f);
    RunConcat(Init("store", GOOD_SPEC), ls, more);
    var t := RunRound(Apply(s, Edit(BAD_SPEC)), f);
    assert IsVariant("store", "store");
    hide Exec, IsRun, Init, Sound, Timed, RunRound, Apply;
    assert "store" in t.kms;
    assert !AdmitsOnlyCurrent(t, Some(VALIDATION_FAILED));
  }

  // ------------------------------------------------------------ imperative form

  /** The controller beside its API server and its two client registries. The
      ghost `model` follows the same world in the protocol's terms. */
  class Reconciler {
    const key: string
    var log: seq<Store>
    var kms: Registry
    var oos: Registry
    var epoch: nat
    ghost var model: State

    ghost predicate Valid()
      reads this
    {
      && model.key == key && model.log == log && model.kms == kms && model.oos == oos
      && model.epoch == epoch && |log| > 0
    }

    ghost constructor (s: State)
      requires |s.log| > 0
      ensures Valid() && model == s
    {
      key, log, kms, oos, epoch, model := s.key, s.log, s.kms, s.oos, s.epoch, s;
    }

    /** The in-memory half of updateStatus: capabilities, bump, condition, and
        whether anything changed. */
    static method DraftStatus(store: Store, kind: WriteKind, note: string, now: int)
      returns (draft: Status, changed: bool)
      ensures draft == Wanted(store, kind, note, now)
      ensures changed == ShouldWrite(Base(store, kind), draft)
    {
      var status := new StatusObject(store.status);
      if kind.Rebuilt? {
        status.capabilities := READ_ONLY;
      }
      var before := status.Value();
      if kind.Rebuilt? {
        status.clientGeneration := status.clientGeneration + 1;
      }
      status.SetCondition(Verdict(kind, note), store.generation, now);
      draft := status.Value();
      var equal := CompareStatus(before, draft);
      changed := !equal || |before.conditions| == 0;
    }

    /** updateStatus: write only on a change, on a fresh copy of the object. */
    method UpdateStatus(i: nat, ghost since: nat, kind: WriteKind, note: string, f: Outcome) returns (ok: bool)
      requires Valid() && i < |log|
      modifies this
      ensures Valid() && Placed(model) && |log| >= |old(log)| && log[..|old(log)|] == old(log)
      ensures Drive(model, f) == Drive(WantStatus(old(model), i, since, kind, note, f.now), f)
      ensures if ok && kind.Rebuilt? && log[i].trigger != 0
              then model.round.Persisted? && model.round.i == i
              else model.round.Idle?
    {
      hide Drive, Apply, NextStep, StepOnce, Wanted, Updated, StatusEqual, Base;
      var store := log[i];
      var draft, changed := DraftStatus(store, kind, note, f.now);
      RebuiltChanges(store, note, f.now);
      model := WantStatus(model, i, since, kind, note, f.now);
      if !changed {
        return true;
      }
      DriveOnce(model, f);
      GetStep(model, f);
      model := StepOnce(model, f);
      var j := |log| - 1;
      if !f.getOk || log[j].gone {
        return false;
      }
      var latest := log[j].(status := draft);
      DriveOnce(model, f);
      PutStep(model, f);
      model := StepOnce(model, f);
      if !f.writeOk {
        return false;
      }
      log := log + [latest];
      return true;
    }

    /** handleDeletion: retire the clients, then drop the finalizer. */
    method HandleDeletion(f: Outcome)
      requires Valid() && model.round == Deleting(|log| - 1)
      modifies this
      ensures Valid() && model == Drive(old(model), f)
    {
      hide Drive, StepOnce, Apply, NextStep;
      var i := |log| - 1;
      var store := log[i];
      DriveOnce(model, f);
      RetractOnce(model, f);
      model := StepOnce(model, f);
      kms, oos := Retire(kms, key), Retire(oos, key);
      if store.finalizer {
        DriveOnce(model, f);
        UnfinalizeOnce(model, f);
        model := StepOnce(model, f);
        if f.unfinalizeOk {
          log := log + [store.(finalizer := false, gone := true)];
        }
      }
      DriveIdle(f);
    }

    /** The guarded removal of the trigger annotation after the status write. */
    method ClearTriggerAnnotation(i: nat, f: Outcome)
      requires Valid() && model.round.Persisted? && model.round.i == i < |log|
      modifies this
      ensures Valid() && model == Drive(old(model), f)
    {
      hide Drive;
      var j := |log| - 1;
      var latest := log[j];
      DriveOnce(model, f);
      model := StepOnce(model, f);
      if !f.rereadOk || latest.gone || latest.trigger != log[i].trigger {
        DriveIdle(f);
        return;
      }
      DriveOnce(model, f);
      model := StepOnce(model, f);
      if f.clearOk {
        log := log + [latest.(trigger := 0)];
      }
      DriveIdle(f);
    }

    /** The part of a round that follows a successful Get of a live object that
        carries the finalizer. */
    method Process(f: Outcome)
      requires Valid() && model.round == Checked(|log| - 1)
      modifies this
      ensures Valid() && model == Drive(old(model), f)
    {
      hide Drive, Apply, NextStep, StepOnce;
      var i := |log| - 1;
      var store := log[i];
      DriveIdle(f);
      DriveOnce(model, f);
      DecideOnce(model, f);
      if !ValidSpec(store.spec) {
        var _ := UpdateStatus(i, 0, Invalid, f.note, f);
        return;
      }
      var recreate := store.trigger != 0;
      if !recreate {
        recreate := NeedRecreate(store, key, kms, oos);
      }
      if !recreate {
        var _ := UpdateStatus(i, 0, Refresh, "", f);
        return;
      }
      model := StepOnce(model, f);
      kms, oos := Retire(kms, key), Retire(oos, key);
      Recreate(i, f);
    }

    /** Builds, registers and reports the new client, then clears the trigger. */
    method Recreate(i: nat, f: Outcome)
      requires Valid() && i == |log| - 1 && model.round.Purged? && model.round.i == i
      modifies this
      ensures Valid() && model == Drive(old(model), f)
    {
      hide Drive, Apply, NextStep, StepOnce, WantStatus;
      var store := log[i];
      ghost var since := model.round.since;
      DriveIdle(f);
      DriveOnce(model, f);
      BuildOnce(model, f);
      if !f.buildOk {
        var _ := UpdateStatus(i, since, Failed, f.note, f);
        return;
      }
      model := StepOnce(model, f);
      DriveOnce(model, f);
      RegisterOnce(model, f);
      var client := Client(store.uid, store.generation, epoch);
      model := Put(model, Configured(store.spec), key, client);
      if store.spec.kms {
        kms := kms[key := client];
      } else {
        oos := oos[key := client];
      }
      var ok := UpdateStatus(i, since, Rebuilt, "", f);
      if ok && store.trigger != 0 {
        ClearTriggerAnnotation(i, f);
      }
    }

    /** One reconcile round: in every combination of API outcomes it leaves the
        world exactly where the protocol's own steps lead. */
    method Reconcile(f: Outcome)
      requires Valid() && model.round.Idle?
      modifies this
      ensures Valid() && model == RunRound(old(model), f)
    {
      hide Drive, Apply, NextStep, StepOnce;
      var i := |log| - 1;
      var store := log[i];
      model := BeginNewest(model);
      DriveIdle(f);
      if store.gone {
        return;
      }
      if store.deleting {
        HandleDeletion(f);
        return;
      }
      if !store.finalizer {
        DriveOnce(model, f);
        FinalizerStep(model, f);
        model := StepOnce(model, f);
        if !f.finalizerOk {
          return;
        }
        log := log + [store.(finalizer := true)];
        DriveOnce(model, f);
        RefetchStep(model, f);
        model := StepOnce(model, f);
        if !f.refetchOk {
          return;
        }
      }
      Process(f);
    }
  }

  // One round step each, as the imperative form takes them.

  lemma GetStep(s: State, f: Outcome)
    requires Placed(s) && s.round.Writing?
    ensures StepOnce(s, f)
         == s.(round := if f.getOk && !Cur(s).gone
                        then HaveFresh(s.round.i, s.round.since, s.round.kind, s.round.st, |s.log| - 1)
                        else Idle)
  {
  }

  lemma RebuiltChanges(o: Store, note: string, now: int)
    ensures ShouldWrite(Base(o, Rebuilt), Wanted(o, Rebuilt, note, now))
  {
    BumpAlwaysWritten(Base(o, Rebuilt), Verdict(Rebuilt, note), o.generation, now);
  }

  lemma PutStep(s: State, f: Outcome)
    requires Placed(s) && s.round.HaveFresh?
    ensures StepOnce(s, f) == WriteStep(s, f.writeOk)
  {
  }

  lemma FinalizerStep(s: State, f: Outcome)
    requires Placed(s) && s.round == NeedFinalizer(|s.log| - 1)
    ensures StepOnce(s, f)
         == if f.finalizerOk then Own(s, Cur(s).(finalizer := true), ReadBack) else s.(round := Idle)
  {
  }

  lemma RetractOnce(s: State, f: Outcome)
    requires Placed(s) && s.round.Deleting?
    ensures StepOnce(s, f) == Purge(s).(round := if s.log[s.round.i].finalizer then Unfinalizing(s.round.i) else Idle)
  {
  }

  lemma UnfinalizeOnce(s: State, f: Outcome)
    requires Placed(s) && s.round == Unfinalizing(|s.log| - 1)
    ensures StepOnce(s, f)
         == if f.unfinalizeOk then Own(s, Cur(s).(finalizer := false, gone := true), Idle) else s.(round := Idle)
  {
  }

  lemma RefetchStep(s: State, f: Outcome)
    requires Placed(s) && s.round.ReadBack?
    ensures StepOnce(s, f) == s.(round := if f.refetchOk && !Cur(s).gone then Checked(|s.log| - 1) else Idle)
  {
  }

  lemma DecideOnce(s: State, f: Outcome)
    requires Placed(s) && s.round.Checked?
    ensures StepOnce(s, f) == DecideStep(s, f.note, f.now)
  {
  }

  lemma BuildOnce(s: State, f: Outcome)
    requires Placed(s) && s.round.Purged?
    ensures StepOnce(s, f) == BuildStep(s, f.buildOk, f.note, f.now)
  {
  }

  lemma RegisterOnce(s: State, f: Outcome)
    requires Placed(s) && s.round.Built?
    ensures StepOnce(s, f) == RegisterStep(s, f.now)
  {
  }
}
