/** The store-client rebuild protocol as a machine of atomic steps.

    One store object lives in the API server; its reconcile round snapshots it,
    retires the cached clients, builds and registers a new one, persists the
    status and finally clears the trigger annotation under an optimistic lock.
    Between any two of those steps users may edit or delete the store, the Secret
    and ServiceAccount controllers may patch a fresh trigger, credentials may
    rotate, ExternalSecret rounds may register clients on a cache miss, and the
    process may restart.

    The API server is the sequence `log` of every version the object ever had: a
    resourceVersion is an index into it, so a read may return any version and a
    guarded write succeeds only from the last one. */
module StoreProtocol {
  import opened Wrappers
  import opened ClientKeys
  import opened StoreStatus

  datatype Provider = KMS | OOS

  /** `refsOk` abstracts the cross-namespace reference checks, fixed by the spec
      and a process flag; `body` is everything else a client is built from. */
  datatype Spec = Spec(kms: bool, oos: bool, refsOk: bool, body: string)

  /** validateSecretStoreSpec: exactly one provider, and legal references. */
  predicate ValidSpec(sp: Spec) {
    sp.kms != sp.oos && sp.refsOk
  }

  function Configured(sp: Spec): Provider {
    if sp.kms then KMS else OOS
  }

  /** `trigger` is the trigger-reconcile annotation, a timestamp, 0 when absent;
      `uid` tells a re-created store from its predecessor. */
  datatype Store = Store(
    uid: nat, generation: nat, spec: Spec, trigger: nat,
    finalizer: bool, deleting: bool, gone: bool, status: Status)

  /** A cached client, remembering what it was built from. */
  datatype Client = Client(uid: nat, generation: nat, epoch: nat)

  type Registry = map<string, Client>

  datatype WriteKind = Invalid | Refresh | Failed | Rebuilt

  /** Where the store's (serial) reconcile round stands. `i` is the version the
      round took as its snapshot, `since` the credential epoch at which it retired
      the old clients, `j` the version it last re-read and `w` the version its
      bumped status write produced. */
  datatype Round =
    | Idle
    | NeedFinalizer(i: nat)
    | ReadBack
    | Checked(i: nat)
    | Purged(i: nat, since: nat)
    | Built(i: nat, since: nat, client: Client)
    | Writing(i: nat, since: nat, kind: WriteKind, st: Status)
    | HaveFresh(i: nat, since: nat, kind: WriteKind, st: Status, j: nat)
    | Persisted(i: nat, since: nat, w: nat)
    | Clearing(i: nat, since: nat, w: nat, j: nat)
    | Deleting(i: nat)
    | Unfinalizing(i: nat)

  /** `stamps` remembers at which credential epoch each trigger value was patched,
      `lastOwn` the newest version this controller wrote, `rebuilds` how many
      rebuild rounds of the current store persisted their status. */
  datatype State = State(
    key: string, log: seq<Store>, kms: Registry, oos: Registry,
    epoch: nat, clock: nat, stamps: map<nat, nat>,
    lastOwn: nat, rebuilds: nat, round: Round)

  function Fresh(uid: nat, sp: Spec): Store {
    Store(uid, 1, sp, 0, false, false, false, EMPTY_STATUS)
  }

  function Init(key: string, sp: Spec): State {
    State(key, [Fresh(0, sp)], map[], map[], 0, 0, map[], 0, 0, Idle)
  }

  function Cur(s: State): Store
    requires |s.log| > 0
  {
    s.log[|s.log| - 1]
  }

  function Append(s: State, o: Store): State {
    s.(log := s.log + [o])
  }

  /** A write by this controller. */
  function Own(s: State, o: Store, r: Round): State {
    s.(log := s.log + [o], lastOwn := |s.log|, round := r)
  }

  function Get(s: State, p: Provider): Registry {
    if p.KMS? then s.kms else s.oos
  }

  function Put(s: State, p: Provider, k: string, c: Client): State {
    if p.KMS? then s.(kms := s.kms[k := c]) else s.(oos := s.oos[k := c])
  }

  function Retire(reg: Registry, key: string): Registry {
    map k | k in reg && !IsVariant(key, k) :: reg[k]
  }

  /** DeletePrefixed on both providers. */
  function Purge(s: State): State {
    s.(kms := Retire(s.kms, s.key), oos := Retire(s.oos, s.key))
  }

  // ------------------------------------------------------------------- labels

  datatype Label =
    // environment
    | Edit(spec: Spec)
    | Trigger
    | Rotate
    | RequestDelete
    | Create(spec: Spec)
    | Miss(p: Provider, k: string)
    | Drop(p: Provider, k: string)
    | Foreign(p: Provider, k: string, c: Client)
    | Restart
    // the reconcile round
    | Begin(i: nat)
    | AddFinalizer(ok: bool)
    | Refetch(i: nat, ok: bool)
    | Decide(note: string, now: int)
    | Build(ok: bool, note: string, now: int)
    | Register(now: int)
    | GetFresh(j: nat, ok: bool)
    | WriteStatus(ok: bool)
    | Reread(j: nat, ok: bool)
    | ClearTrigger(ok: bool)
    | Retract
    | RemoveFinalizer(ok: bool)

  predicate IsRoundStep(l: Label) {
    l.AddFinalizer? || l.Refetch? || l.Decide? || l.Build? || l.Register? || l.GetFresh?
    || l.WriteStatus? || l.Reread? || l.ClearTrigger? || l.Retract? || l.RemoveFinalizer?
  }

  predicate Enabled(s: State, l: Label) {
    && |s.log| > 0
    && match l
       case Edit(sp) => !Cur(s).gone && sp != Cur(s).spec
       case Trigger => !Cur(s).gone
       case Rotate => true
       case RequestDelete => !Cur(s).gone && !Cur(s).deleting
       case Create(sp) => Cur(s).gone
       case Miss(p, k) => !Cur(s).gone && IsVariant(s.key, k) && k !in Get(s, p)
       case Drop(p, k) => true
       case Foreign(p, k, c) => !IsVariant(s.key, k)
       case Restart => true
       case Begin(i) => s.round.Idle? && i < |s.log|
       case AddFinalizer(ok) => s.round.NeedFinalizer? && s.round.i < |s.log|
       case Refetch(i, ok) => s.round.ReadBack? && i < |s.log|
       case Decide(note, now) => s.round.Checked? && s.round.i < |s.log|
       case Build(ok, note, now) => s.round.Purged? && s.round.i < |s.log|
       case Register(now) => s.round.Built? && s.round.i < |s.log|
       case GetFresh(j, ok) => s.round.Writing? && j < |s.log|
       case WriteStatus(ok) => s.round.HaveFresh? && s.round.i < |s.log| && s.round.j < |s.log|
       case Reread(j, ok) => s.round.Persisted? && s.round.i < |s.log| && j < |s.log|
       case ClearTrigger(ok) => s.round.Clearing? && s.round.j < |s.log|
       case Retract => s.round.Deleting? && s.round.i < |s.log|
       case RemoveFinalizer(ok) => s.round.Unfinalizing? && s.round.i < |s.log|
  }

  /** The round's own reads see the controller's own earlier writes. */
  predicate Timely(s: State, l: Label) {
    match l
    case Begin(i) => s.lastOwn <= i
    case Refetch(i, _) => s.lastOwn <= i
    case _ => true
  }

  // -------------------------------------------------------------- round steps

  function Verdict(kind: WriteKind, note: string): Condition {
    match kind
    case Invalid => Condition(READY, STATUS_FALSE, VALIDATION_FAILED, note, 0, 0)
    case Failed => Condition(READY, STATUS_FALSE, CREATION_FAILED, note, 0, 0)
    case Refresh => Condition(READY, STATUS_TRUE, STORE_VALID, "", 0, 0)
    case Rebuilt => Condition(READY, STATUS_TRUE, STORE_VALID, "", 0, 0)
  }

  /** The in-memory status updateStatus starts from: the capabilities of a rebuild
      are set before it takes its copy for comparison. */
  function Base(o: Store, kind: WriteKind): Status {
    if kind.Rebuilt? then o.status.(capabilities := READ_ONLY) else o.status
  }

  /** The status a round wants to persist on top of its snapshot. */
  function Wanted(o: Store, kind: WriteKind, note: string, now: int): Status {
    Updated(Base(o, kind), Verdict(kind, note), o.generation, now, kind.Rebuilt?)
  }

  /** updateStatus up to the decision whether to call the API at all. */
  function WantStatus(s: State, i: nat, since: nat, kind: WriteKind, note: string, now: int): State
    requires i < |s.log|
  {
    var o := s.log[i];
    var st := Wanted(o, kind, note, now);
    s.(round := if ShouldWrite(Base(o, kind), st) then Writing(i, since, kind, st) else Idle)
  }

  /** needRecreateClient. */
  predicate NeedRecreate(o: Store, key: string, kms: Registry, oos: Registry) {
    var exists_ :=
      if o.spec.kms then key in kms
      else if o.spec.oos then key in oos
      else false;
    !exists_ || ReadyObserved(o.status) != Some(o.generation)
  }

  predicate MustRebuild(s: State, o: Store) {
    o.trigger != 0 || NeedRecreate(o, s.key, s.kms, s.oos)
  }

  function BeginRound(s: State, i: nat): State
    requires i < |s.log|
  {
    var o := s.log[i];
    s.(round :=
      if o.gone then Idle
      else if o.deleting then Deleting(i)
      else if !o.finalizer then NeedFinalizer(i)
      else Checked(i))
  }

  function DecideStep(s: State, note: string, now: int): State
    requires s.round.Checked? && s.round.i < |s.log|
  {
    var i := s.round.i;
    var o := s.log[i];
    if !ValidSpec(o.spec) then WantStatus(s, i, 0, Invalid, note, now)
    else if MustRebuild(s, o) then Purge(s).(round := Purged(i, s.epoch))
    else WantStatus(s, i, 0, Refresh, "", now)
  }

  function BuildStep(s: State, ok: bool, note: string, now: int): State
    requires s.round.Purged? && s.round.i < |s.log|
  {
    var i := s.round.i;
    var o := s.log[i];
    if ok then s.(round := Built(i, s.round.since, Client(o.uid, o.generation, s.epoch)))
    else WantStatus(s, i, s.round.since, Failed, note, now)
  }

  function RegisterStep(s: State, now: int): State
    requires s.round.Built? && s.round.i < |s.log|
  {
    var r := s.round;
    WantStatus(Put(s, Configured(s.log[r.i].spec), s.key, r.client), r.i, r.since, Rebuilt, "", now)
  }

  function WriteStep(s: State, ok: bool): State
    requires s.round.HaveFresh? && s.round.i < |s.log| && s.round.j < |s.log|
  {
    var r := s.round;
    if !ok || r.j != |s.log| - 1 then s.(round := Idle)
    else
      var next := if r.kind.Rebuilt? && s.log[r.i].trigger != 0 then Persisted(r.i, r.since, |s.log|) else Idle;
      Own(s, s.log[r.j].(status := r.st), next)
        .(rebuilds := if r.kind.Rebuilt? then s.rebuilds + 1 else s.rebuilds)
  }

  function RereadStep(s: State, j: nat, ok: bool): State
    requires s.round.Persisted? && s.round.i < |s.log| && j < |s.log|
  {
    var r := s.round;
    s.(round :=
      if ok && !s.log[j].gone && s.log[j].trigger == s.log[r.i].trigger then Clearing(r.i, r.since, r.w, j)
      else Idle)
  }

  function Apply(s: State, l: Label): State
    requires Enabled(s, l)
  {
    match l
    case Edit(sp) => Append(s, Cur(s).(spec := sp, generation := Cur(s).generation + 1))
    case Trigger =>
      Append(s, Cur(s).(trigger := s.clock + 1))
        .(clock := s.clock + 1, stamps := s.stamps[s.clock + 1 := s.epoch])
    case Rotate => s.(epoch := s.epoch + 1)
    case RequestDelete =>
      Append(s, if Cur(s).finalizer
                then Cur(s).(deleting := true, generation := Cur(s).generation + 1)
                else Cur(s).(gone := true))
    case Create(sp) => Append(s, Fresh(Cur(s).uid + 1, sp)).(rebuilds := 0)
    case Miss(p, k) => Put(s, p, k, Client(Cur(s).uid, Cur(s).generation, s.epoch))
    case Drop(p, k) => if p.KMS? then s.(kms := s.kms - {k}) else s.(oos := s.oos - {k})
    case Foreign(p, k, c) => Put(s, p, k, c)
    case Restart => s.(kms := map[], oos := map[], round := Idle)
    case Begin(i) => BeginRound(s, i)
    case AddFinalizer(ok) =>
      if ok && s.round.i == |s.log| - 1 then Own(s, Cur(s).(finalizer := true), ReadBack)
      else s.(round := Idle)
    case Refetch(i, ok) => s.(round := if ok && !s.log[i].gone then Checked(i) else Idle)
    case Decide(note, now) => DecideStep(s, note, now)
    case Build(ok, note, now) => BuildStep(s, ok, note, now)
    case Register(now) => RegisterStep(s, now)
    case GetFresh(j, ok) =>
      var r := s.round;
      s.(round := if ok && !s.log[j].gone then HaveFresh(r.i, r.since, r.kind, r.st, j) else Idle)
    case WriteStatus(ok) => WriteStep(s, ok)
    case Reread(j, ok) => RereadStep(s, j, ok)
    case ClearTrigger(ok) =>
      if ok && s.round.j == |s.log| - 1 then Own(s, Cur(s).(trigger := 0), Idle)
      else s.(round := Idle)
    case Retract =>
      Purge(s).(round := if s.log[s.round.i].finalizer then Unfinalizing(s.round.i) else Idle)
    case RemoveFinalizer(ok) =>
      if ok && s.round.i == |s.log| - 1 then Own(s, Cur(s).(finalizer := false, gone := true), Idle)
      else s.(round := Idle)
  }

  // --------------------------------------------------------------------- runs

  /** Every label is enabled where it occurs; with `timely`, reads also see the
      controller's own writes. */
  predicate IsRun(s: State, ls: seq<Label>, timely: bool)
    decreases |ls|
  {
    ls == [] ||
    (Enabled(s, ls[0]) && (timely ==> Timely(s, ls[0])) && IsRun(Apply(s, ls[0]), ls[1..], timely))
  }

  function Exec(s: State, ls: seq<Label>): State
    requires IsRun(s, ls, false) || IsRun(s, ls, true)
    decreases |ls|
  {
    if ls == [] then s else Exec(Apply(s, ls[0]), ls[1..])
  }
}
