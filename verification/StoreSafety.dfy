/** What every run of the store protocol keeps. */
module StoreSafety {
  import opened Wrappers
  import opened ClientKeys
  import opened StoreStatus
  import opened StoreProtocol

  // ------------------------------------------- invariants of every run at all

  /** The round has fixed its snapshot and retired the old clients. */
  predicate Rebuilding(r: Round) {
    r.Purged? || r.Built? || (r.Writing? && (r.kind.Failed? || r.kind.Rebuilt?))
    || (r.HaveFresh? && (r.kind.Failed? || r.kind.Rebuilt?)) || r.Persisted? || r.Clearing?
  }

  /** Every cached client of this store, in either registry, satisfies `since`. */
  ghost predicate AllSince(s: State, since: nat) {
    && (forall k | k in s.kms && IsVariant(s.key, k) :: since <= s.kms[k].epoch)
    && (forall k | k in s.oos && IsVariant(s.key, k) :: since <= s.oos[k].epoch)
  }

  ghost predicate StampsOk(s: State) {
    && (forall j | 0 <= j < |s.log| && s.log[j].trigger != 0 :: s.log[j].trigger in s.stamps)
    && (forall v | v in s.stamps :: s.stamps[v] <= s.epoch && 0 < v <= s.clock)
  }

  /** The bumped status write of this round, made after its snapshot. */
  ghost predicate BumpPersisted(s: State, i: nat, w: nat) {
    i < w < |s.log| && s.log[w].status.clientGeneration == s.log[i].status.clientGeneration + 1
  }

  ghost predicate RoundOk(s: State)
    requires StampsOk(s)
  {
    var r := s.round;
    && (r.NeedFinalizer? || r.Checked? || r.Deleting? || r.Unfinalizing? || Rebuilding(r) || r.Writing? || r.HaveFresh?
        ==> r.i < |s.log|)
    && (r.HaveFresh? || r.Clearing? ==> r.j < |s.log|)
    && (Rebuilding(r) ==>
          && r.since <= s.epoch
          && AllSince(s, r.since)
          && (s.log[r.i].trigger != 0 ==> s.stamps[s.log[r.i].trigger] <= r.since))
    && (r.Built? ==> r.since <= r.client.epoch)
    && ((r.Writing? || r.HaveFresh?) && r.kind.Rebuilt? ==>
          r.st.clientGeneration == s.log[r.i].status.clientGeneration + 1)
    && (r.Persisted? || r.Clearing? ==> s.log[r.i].trigger != 0 && BumpPersisted(s, r.i, r.w))
    && (r.Clearing? ==> s.log[r.j].trigger == s.log[r.i].trigger && !s.log[r.j].gone)
    && (r.HaveFresh? ==> !s.log[r.j].gone)
    && (r.Deleting? || r.Unfinalizing? ==> s.log[r.i].deleting && !s.log[r.i].gone)
  }

  ghost predicate Sound(s: State) {
    |s.log| > 0 && s.lastOwn < |s.log| && StampsOk(s) && RoundOk(s)
  }

  lemma SoundInit(key: string, sp: Spec)
    ensures Sound(Init(key, sp))
  {
  }

  /** A new version by somebody else. */
  lemma SoundGrows(s: State, t: State, o: Store)
    requires Sound(s) && StampsOk(t)
    requires t.log == s.log + [o]
    requires t.key == s.key && t.kms == s.kms && t.oos == s.oos && t.epoch == s.epoch
    requires t.round == s.round && t.lastOwn == s.lastOwn
    requires forall v | v in s.stamps :: v in t.stamps && t.stamps[v] == s.stamps[v]
    ensures Sound(t)
  {
    assert forall j | 0 <= j < |s.log| :: t.log[j] == s.log[j];
  }

  /** Only the registries, the credentials or the round's own position change. */
  lemma SoundSameLog(s: State, t: State)
    requires Sound(s)
    requires t.log == s.log && t.stamps == s.stamps && t.clock == s.clock && t.lastOwn == s.lastOwn
    requires t.key == s.key && t.epoch >= s.epoch
    requires t.round == s.round || t.round.Idle?
    requires Rebuilding(t.round) ==> AllSince(t, t.round.since)
    ensures Sound(t)
  {
  }

  lemma SoundObject(s: State, l: Label)
    requires Sound(s) && Enabled(s, l) && (l.Edit? || l.Trigger? || l.RequestDelete? || l.Create?)
    ensures Sound(Apply(s, l))
  {
    hide RoundOk;
    var t := Apply(s, l);
    SoundGrows(s, t, Cur(t));
  }

  lemma SoundEnvironment(s: State, l: Label)
    requires Sound(s) && Enabled(s, l) && !IsRoundStep(l) && !l.Begin?
    ensures Sound(Apply(s, l))
  {
    if l.Edit? || l.Trigger? || l.RequestDelete? || l.Create? {
      SoundObject(s, l);
    } else {
      SoundSameLog(s, Apply(s, l));
    }
  }

  lemma SoundRound(s: State, l: Label)
    requires Sound(s) && Enabled(s, l) && (IsRoundStep(l) || l.Begin?)
    ensures Sound(Apply(s, l))
  {
    hide RoundOk, StampsOk;
    match l
    case Begin(i) => SoundRead(s, l);
    case AddFinalizer(ok) => SoundOwnStep(s, l);
    case Refetch(i, ok) => SoundRead(s, l);
    case Decide(note, now) => SoundDecide(s, note, now);
    case Build(ok, note, now) => SoundBuild(s, ok, note, now);
    case Register(now) => SoundRegister(s, now);
    case GetFresh(j, ok) => SoundRead(s, l);
    case WriteStatus(ok) => SoundWrite(s, ok);
    case Reread(j, ok) => SoundRead(s, l);
    case ClearTrigger(ok) => SoundOwnStep(s, l);
    case Retract => SoundOwnStep(s, l);
    case RemoveFinalizer(ok) => SoundOwnStep(s, l);
  }

  lemma SoundRead(s: State, l: Label)
    requires Sound(s) && Enabled(s, l)
    requires l.Begin? || l.Refetch? || l.GetFresh? || l.Reread?
    ensures Sound(Apply(s, l))
  {
  }

  lemma SoundOwnStep(s: State, l: Label)
    requires Sound(s) && Enabled(s, l)
    requires l.AddFinalizer? || l.ClearTrigger? || l.Retract? || l.RemoveFinalizer?
    ensures Sound(Apply(s, l))
  {
  }

  lemma SoundDecide(s: State, note: string, now: int)
    requires Sound(s) && s.round.Checked?
    ensures Sound(DecideStep(s, note, now))
  {
    hide Wanted, ShouldWrite, ValidSpec, MustRebuild;
  }

  lemma SoundBuild(s: State, ok: bool, note: string, now: int)
    requires Sound(s) && s.round.Purged?
    ensures Sound(BuildStep(s, ok, note, now))
  {
  }

  lemma SoundRegister(s: State, now: int)
    requires Sound(s) && s.round.Built?
    ensures Sound(RegisterStep(s, now))
  {
  }

  lemma SoundWrite(s: State, ok: bool)
    requires Sound(s) && s.round.HaveFresh?
    ensures Sound(WriteStep(s, ok))
  {
  }

  lemma {:induction false} SoundRun(s: State, ls: seq<Label>, timely: bool)
    requires Sound(s) && IsRun(s, ls, timely)
    ensures Sound(Exec(s, ls))
    decreases |ls|
  {
    if ls != [] {
      var l := ls[0];
      if IsRoundStep(l) || l.Begin? {
        SoundRound(s, l);
      } else {
        SoundEnvironment(s, l);
      }
      SoundRun(Apply(s, l), ls[1..], timely);
    }
  }

  // ------------------------------ invariants of runs that read their own writes

  /** The round holds a snapshot it can no longer exchange for another one. */
  predicate HasSnapshot(r: Round) {
    r.Checked? || r.Writing? || r.HaveFresh? || Rebuilding(r)
  }

  /** The versions the round may still read: they agree with the newest one on
      everything only this controller writes. */
  ghost predicate WindowOk(s: State)
    requires |s.log| > 0
  {
    var cur := Cur(s);
    forall j | s.lastOwn <= j < |s.log| ::
      var o := s.log[j];
      && o.uid <= cur.uid
      && (o.uid == cur.uid ==>
            && o.status == cur.status
            && o.generation <= cur.generation
            && (o.generation == cur.generation ==> o.spec == cur.spec)
            && (Ready(cur.status).Some? ==> Ready(cur.status).value.observedGeneration <= o.generation))
      && (o.finalizer ==> o.uid == cur.uid && cur.finalizer && !cur.gone)
  }

  predicate BuiltFrom(c: Client, uid: nat, low: nat, high: nat) {
    c.uid == uid && low <= c.generation <= high
  }

  /** Every cached client of this store was built from this store object, from a
      generation between the bounds. */
  ghost predicate AllBuiltFrom(s: State, uid: nat, low: nat, high: nat) {
    && (forall k | k in s.kms && IsVariant(s.key, k) :: BuiltFrom(s.kms[k], uid, low, high))
    && (forall k | k in s.oos && IsVariant(s.key, k) :: BuiltFrom(s.oos[k], uid, low, high))
  }

  /** Clients never come from the future. */
  ghost predicate NoneAhead(s: State)
    requires |s.log| > 0
  {
    var cur := Cur(s);
    && (forall k | k in s.kms && IsVariant(s.key, k) ::
          s.kms[k].uid <= cur.uid && (s.kms[k].uid == cur.uid ==> s.kms[k].generation <= cur.generation))
    && (forall k | k in s.oos && IsVariant(s.key, k) ::
          s.oos[k].uid <= cur.uid && (s.oos[k].uid == cur.uid ==> s.oos[k].generation <= cur.generation))
  }

  /** The status vouches for the cached clients. */
  predicate Vouched(o: Store) {
    var r := Ready(o.status);
    !o.gone && r.Some? && r.value.observedGeneration == o.generation && r.value.reason != VALIDATION_FAILED
  }

  ghost predicate FreshClients(s: State)
    requires |s.log| > 0
  {
    Vouched(Cur(s)) ==> AllBuiltFrom(s, Cur(s).uid, Cur(s).generation, Cur(s).generation)
  }

  /** A recorded validation failure is deserved. */
  ghost predicate FailuresReal(s: State)
    requires |s.log| > 0
  {
    var r := Ready(Cur(s).status);
    (r.Some? && r.value.reason == VALIDATION_FAILED && r.value.observedGeneration == Cur(s).generation)
    ==> !ValidSpec(Cur(s).spec)
  }

  /** What the status under construction says about the snapshot `o`. */
  ghost predicate DraftOk(o: Store, kind: WriteKind, st: Status) {
    && Ready(st).Some?
    && Ready(st).value.observedGeneration == o.generation
    && (Ready(st).value.reason == VALIDATION_FAILED <==> kind.Invalid?)
    && (kind.Invalid? <==> !ValidSpec(o.spec))
    && (kind.Refresh? ==> ReadyObserved(o.status) == Some(o.generation))
    && st.clientGeneration == o.status.clientGeneration + (if kind.Rebuilt? then 1 else 0)
  }

  ghost predicate SnapshotOk(s: State)
    requires |s.log| > 0
  {
    var r := s.round;
    var cur := Cur(s);
    && (r.NeedFinalizer? ==> r.i < |s.log| && !s.log[r.i].gone)
    && (r.ReadBack? ==> forall j | s.lastOwn <= j < |s.log| :: s.log[j].finalizer)
    && (HasSnapshot(r) ==>
          && r.i < |s.log|
          && s.log[r.i].uid == cur.uid
          && cur.finalizer && !cur.gone
          && s.log[r.i].generation <= cur.generation
          && (s.log[r.i].generation == cur.generation ==> s.log[r.i].spec == cur.spec)
          && (Ready(cur.status).Some? ==> Ready(cur.status).value.observedGeneration <= s.log[r.i].generation))
    && (HasSnapshot(r) && !r.Persisted? && !r.Clearing? ==> s.log[r.i].status == cur.status)
    && (Rebuilding(r) ==> AllBuiltFrom(s, cur.uid, s.log[r.i].generation, cur.generation) && ValidSpec(s.log[r.i].spec))
    && (r.Built? ==> r.client.uid == cur.uid && r.client.generation == s.log[r.i].generation)
    && (r.Writing? || r.HaveFresh? ==> DraftOk(s.log[r.i], r.kind, r.st))
  }

  ghost predicate Timed(s: State) {
    && |s.log| > 0 && s.lastOwn < |s.log|
    && WindowOk(s) && NoneAhead(s) && FreshClients(s) && FailuresReal(s) && SnapshotOk(s)
    && Cur(s).status.clientGeneration == s.rebuilds
  }

  lemma TimedInit(key: string, sp: Spec)
    ensures Timed(Init(key, sp))
  {
  }

  lemma WantedDraft(o: Store, kind: WriteKind, note: string, now: int)
    requires kind.Invalid? <==> !ValidSpec(o.spec)
    requires kind.Refresh? ==> ReadyObserved(o.status) == Some(o.generation)
    ensures DraftOk(o, kind, Wanted(o, kind, note, now))
  {
    WithConditionFound(Base(o, kind).conditions, Verdict(kind, note), o.generation, now, READY);
  }

  /** A new version by somebody else: a spec edit, a trigger, a deletion request. */
  lemma TimedGrows(s: State, t: State, o: Store)
    requires Timed(s)
    requires t.log == s.log + [o] && t.key == s.key && t.kms == s.kms && t.oos == s.oos
    requires t.round == s.round && t.lastOwn == s.lastOwn && t.rebuilds == s.rebuilds
    requires o.uid == Cur(s).uid && o.status == Cur(s).status
    requires o.generation > Cur(s).generation || (o.generation == Cur(s).generation && o.spec == Cur(s).spec)
    requires o.finalizer == Cur(s).finalizer
    requires o.finalizer ==> o.gone == Cur(s).gone
    requires Cur(s).gone ==> o.gone
    ensures Timed(t)
  {
    assert forall j | 0 <= j < |s.log| :: t.log[j] == s.log[j];
    assert Cur(t) == o;
  }

  lemma TimedCreate(s: State, sp: Spec)
    requires Timed(s) && Cur(s).gone
    ensures Timed(Apply(s, Create(sp)))
  {
    var t := Apply(s, Create(sp));
    assert forall j | 0 <= j < |s.log| :: t.log[j] == s.log[j];
  }

  /** Registry changes that add only clients of the newest version, or drop some. */
  lemma TimedSameLog(s: State, t: State)
    requires Timed(s)
    requires t.log == s.log && t.key == s.key && t.lastOwn == s.lastOwn && t.rebuilds == s.rebuilds
    requires t.round == s.round || t.round.Idle?
    requires forall k | k in t.kms && IsVariant(s.key, k) ::
      (k in s.kms && t.kms[k] == s.kms[k]) || (t.kms[k].uid == Cur(s).uid && t.kms[k].generation == Cur(s).generation)
    requires forall k | k in t.oos && IsVariant(s.key, k) ::
      (k in s.oos && t.oos[k] == s.oos[k]) || (t.oos[k].uid == Cur(s).uid && t.oos[k].generation == Cur(s).generation)
    ensures Timed(t)
  {
  }

  lemma TimedEnvironment(s: State, l: Label)
    requires Timed(s) && Enabled(s, l) && !IsRoundStep(l) && !l.Begin?
    ensures Timed(Apply(s, l))
  {
    hide WindowOk, NoneAhead, FreshClients, FailuresReal, SnapshotOk;
    var t := Apply(s, l);
    match l
    case Edit(sp) => TimedGrows(s, t, Cur(t));
    case Trigger => TimedGrows(s, t, Cur(t));
    case RequestDelete => TimedGrows(s, t, Cur(t));
    case Create(sp) => TimedCreate(s, sp);
    case Rotate => TimedSameLog(s, t);
    case Miss(p, k) => TimedSameLog(s, t);
    case Drop(p, k) => TimedSameLog(s, t);
    case Foreign(p, k, c) => TimedSameLog(s, t);
    case Restart => TimedSameLog(s, t);
  }

  lemma TimedRound(s: State, l: Label)
    requires Sound(s) && Timed(s) && Enabled(s, l) && Timely(s, l) && (IsRoundStep(l) || l.Begin?)
    ensures Timed(Apply(s, l))
  {
    hide Sound;
    match l
    case Begin(i) => TimedRead(s, l);
    case Refetch(i, ok) => TimedRead(s, l);
    case GetFresh(j, ok) => TimedRead(s, l);
    case Reread(j, ok) => TimedRead(s, l);
    case AddFinalizer(ok) => TimedOwnStep(s, l);
    case ClearTrigger(ok) => TimedOwnStep(s, l);
    case RemoveFinalizer(ok) => TimedOwnStep(s, l);
    case Decide(note, now) => TimedDecide(s, note, now);
    case Build(ok, note, now) => TimedBuild(s, ok, note, now);
    case Register(now) => TimedRegister(s, now);
    case WriteStatus(ok) => TimedWrite(s, ok);
    case Retract => TimedPurge(s, Apply(s, l).round);
  }

  lemma TimedOwnStep(s: State, l: Label)
    requires Timed(s) && Enabled(s, l)
    requires l.AddFinalizer? || l.ClearTrigger? || l.RemoveFinalizer?
    ensures Timed(Apply(s, l))
  {
    TimedIdle(s);
    match l
    case AddFinalizer(ok) =>
      if ok && s.round.i == |s.log| - 1 {
        TimedOwn(s, Cur(s).(finalizer := true), ReadBack);
      }
    case ClearTrigger(ok) => TimedOwn(s, Cur(s).(trigger := 0), Idle);
    case RemoveFinalizer(ok) => TimedOwn(s, Cur(s).(finalizer := false, gone := true), Idle);
  }

  /** Moving the round on changes nothing but what is required of its position. */
  lemma TimedMove(s: State, r: Round)
    requires Timed(s)
    ensures SnapshotOk(s.(round := r)) ==> Timed(s.(round := r))
  {
    hide SnapshotOk;
  }

  lemma BuiltFromMove(s: State, r: Round, uid: nat, low: nat, high: nat)
    ensures AllBuiltFrom(s.(round := r), uid, low, high) <==> AllBuiltFrom(s, uid, low, high)
  {
  }

  lemma TimedIdle(s: State)
    requires Timed(s)
    ensures Timed(s.(round := Idle))
  {
  }

  lemma TimedRead(s: State, l: Label)
    requires Sound(s) && Timed(s) && Enabled(s, l) && Timely(s, l)
    requires l.Begin? || l.Refetch? || l.GetFresh? || l.Reread?
    ensures Timed(Apply(s, l))
  {
    hide Sound, Timed;
    if l.Begin? || l.Refetch? {
      TimedSnapshot(s, l);
    } else {
      TimedReread(s, l);
    }
  }

  lemma TimedSnapshot(s: State, l: Label)
    requires Timed(s) && Enabled(s, l) && Timely(s, l) && (l.Begin? || l.Refetch?)
    ensures Timed(Apply(s, l))
  {
  }

  lemma TimedReread(s: State, l: Label)
    requires Sound(s) && Timed(s) && Enabled(s, l) && (l.GetFresh? || l.Reread?)
    ensures Timed(Apply(s, l))
  {
    TimedMove(s, Apply(s, l).round);
    BuiltFromMove(s, Apply(s, l).round, Cur(s).uid, s.log[s.round.i].generation, Cur(s).generation);
    hide WindowOk, NoneAhead, FreshClients, FailuresReal, AllBuiltFrom, DraftOk;
  }

  /** This controller's writes of metadata: the status is carried along. */
  lemma TimedOwn(s: State, o: Store, r: Round)
    requires Timed(s)
    requires o.uid == Cur(s).uid && o.status == Cur(s).status
    requires o.generation == Cur(s).generation && o.spec == Cur(s).spec
    requires o.finalizer ==> !o.gone
    requires Cur(s).gone ==> o.gone
    requires r.Idle? || (r.ReadBack? && o.finalizer)
    ensures Timed(Own(s, o, r))
  {
    assert Cur(Own(s, o, r)) == o;
  }

  lemma PurgedEmpty(s: State)
    ensures forall k | k in Purge(s).kms :: !IsVariant(s.key, k)
    ensures forall k | k in Purge(s).oos :: !IsVariant(s.key, k)
    ensures forall k | !IsVariant(s.key, k) ::
              (k in Purge(s).kms <==> k in s.kms) && (k in Purge(s).oos <==> k in s.oos)
  {
  }

  lemma TimedPurge(s: State, r: Round)
    requires Timed(s)
    requires r.Purged? ==> s.round.Checked? && r.i == s.round.i && ValidSpec(s.log[r.i].spec)
    requires r.Purged? || r.Unfinalizing? || r.Idle?
    ensures Timed(Purge(s).(round := r))
  {
    PurgedEmpty(s);
  }

  /** Deciding on a status write leaves everything but the round's position alone. */
  lemma TimedWant(s: State, i: nat, since: nat, kind: WriteKind, note: string, now: int)
    requires Timed(s) && HasSnapshot(s.round) && s.round.i == i && !s.round.Persisted? && !s.round.Clearing?
    requires kind.Invalid? <==> !ValidSpec(s.log[i].spec)
    requires kind.Refresh? ==> ReadyObserved(s.log[i].status) == Some(s.log[i].generation)
    requires kind.Failed? || kind.Rebuilt? ==> Rebuilding(s.round)
    ensures Timed(WantStatus(s, i, since, kind, note, now))
  {
    hide WindowOk, NoneAhead, FreshClients, FailuresReal, AllBuiltFrom, DraftOk, Wanted, ShouldWrite, ReadyObserved;
    var o := s.log[i];
    WantedDraft(o, kind, note, now);
    var r := WantStatus(s, i, since, kind, note, now).round;
    BuiltFromMove(s, r, Cur(s).uid, o.generation, Cur(s).generation);
    SnapshotMove(s, r);
    TimedMove(s, r);
  }

  /** A draft for the snapshot at hand is in order. */
  lemma SnapshotMove(s: State, r: Round)
    requires Timed(s) && HasSnapshot(s.round) && !s.round.Persisted? && !s.round.Clearing?
    requires r.Idle? || (r.Writing? && r.i == s.round.i && DraftOk(s.log[r.i], r.kind, r.st))
    requires Rebuilding(r) ==> Rebuilding(s.round)
    requires AllBuiltFrom(s.(round := r), Cur(s).uid, s.log[s.round.i].generation, Cur(s).generation)
        <==> AllBuiltFrom(s, Cur(s).uid, s.log[s.round.i].generation, Cur(s).generation)
    ensures SnapshotOk(s.(round := r))
  {
    hide WindowOk, NoneAhead, FreshClients, FailuresReal, AllBuiltFrom, DraftOk;
  }

  lemma TimedDecide(s: State, note: string, now: int)
    requires Timed(s) && s.round.Checked?
    ensures Timed(DecideStep(s, note, now))
  {
    var i := s.round.i;
    var o := s.log[i];
    if !ValidSpec(o.spec) {
      TimedWant(s, i, 0, Invalid, note, now);
    } else if MustRebuild(s, o) {
      TimedPurge(s, Purged(i, s.epoch));
    } else {
      TimedWant(s, i, 0, Refresh, "", now);
    }
  }

  lemma TimedBuild(s: State, ok: bool, note: string, now: int)
    requires Timed(s) && s.round.Purged?
    ensures Timed(BuildStep(s, ok, note, now))
  {
    if !ok {
      TimedWant(s, s.round.i, s.round.since, Failed, note, now);
    }
  }

  /** Registering the rebuilt client keeps the invariant: had the status vouched
      for the newest generation, the snapshot would be of that generation. */
  lemma TimedPut(s: State)
    requires Timed(s) && s.round.Built?
    ensures Timed(Put(s, Configured(s.log[s.round.i].spec), s.key, s.round.client))
  {
    var c := s.round.client;
    assert BuiltFrom(c, Cur(s).uid, s.log[s.round.i].generation, Cur(s).generation);
    if Vouched(Cur(s)) {
      assert c.generation == Cur(s).generation;
    }
    TimedPutAt(s, KMS, c);
    TimedPutAt(s, OOS, c);
  }

  lemma TimedPutAt(s: State, p: Provider, c: Client)
    requires Timed(s) && s.round.Built?
    requires BuiltFrom(c, Cur(s).uid, s.log[s.round.i].generation, Cur(s).generation)
    requires Vouched(Cur(s)) ==> c.generation == Cur(s).generation
    ensures Timed(Put(s, p, s.key, c))
  {
    hide Ready, ValidSpec, DraftOk, Vouched, IsVariant, WindowOk, FailuresReal;
    var t := Put(s, p, s.key, c);
    assert WindowOk(t) && FailuresReal(t) by {
      WindowSurvivesPut(s, p, c);
    }
    assert forall k | k in t.kms && IsVariant(s.key, k) :: t.kms[k] == c || (k in s.kms && t.kms[k] == s.kms[k]);
    assert forall k | k in t.oos && IsVariant(s.key, k) :: t.oos[k] == c || (k in s.oos && t.oos[k] == s.oos[k]);
  }

  lemma WindowSurvivesPut(s: State, p: Provider, c: Client)
    requires Timed(s)
    ensures WindowOk(Put(s, p, s.key, c)) && FailuresReal(Put(s, p, s.key, c))
  {
  }

  lemma TimedRegister(s: State, now: int)
    requires Timed(s) && s.round.Built?
    ensures Timed(RegisterStep(s, now))
  {
    TimedPut(s);
    var t := Put(s, Configured(s.log[s.round.i].spec), s.key, s.round.client);
    TimedWant(t, s.round.i, s.round.since, Rebuilt, "", now);
  }

  lemma TimedWrite(s: State, ok: bool)
    requires Timed(s) && s.round.HaveFresh? && s.round.j < |s.log|
    ensures Timed(WriteStep(s, ok))
  {
  }

  lemma {:induction false} TimedRun(s: State, ls: seq<Label>)
    requires Sound(s) && Timed(s) && IsRun(s, ls, true)
    ensures Sound(Exec(s, ls)) && Timed(Exec(s, ls))
    decreases |ls|
  {
    if ls != [] {
      var l := ls[0];
      if IsRoundStep(l) || l.Begin? {
        SoundRound(s, l);
        TimedRound(s, l);
      } else {
        SoundEnvironment(s, l);
        TimedEnvironment(s, l);
      }
      TimedRun(Apply(s, l), ls[1..]);
    }
  }
}
