/** Status of a SecretStore / ClusterSecretStore and the helpers that maintain it
    (pkg/controller/secretstore/common.go, pkg/utils/util.go). */
module StoreStatus {
  import opened Wrappers

  const READY := "Ready"
  const STATUS_TRUE := "True"
  const STATUS_FALSE := "False"
  const STORE_VALID := "Valid"
  const VALIDATION_FAILED := "ValidationFailed"
  const CREATION_FAILED := "ClientCreationFailed"
  const READ_ONLY := "ReadOnly"

  datatype Condition = Condition(
    kind: string, status: string, reason: string, message: string,
    observedGeneration: nat, lastTransition: int)

  datatype Status = Status(conditions: seq<Condition>, capabilities: string, clientGeneration: nat)

  const EMPTY_STATUS := Status([], "", 0)

  /** Index of the first condition of a kind, or the length of the list. */
  function FirstOfKind(cs: seq<Condition>, kind: string): (i: nat)
    ensures i <= |cs|
    ensures forall k | 0 <= k < i :: cs[k].kind != kind
    ensures i < |cs| ==> cs[i].kind == kind
  {
    if cs == [] || cs[0].kind == kind then 0 else 1 + FirstOfKind(cs[1..], kind)
  }

  function Find(cs: seq<Condition>, kind: string): Option<Condition> {
    var i := FirstOfKind(cs, kind);
    if i < |cs| then Some(cs[i]) else None
  }

  function Ready(st: Status): Option<Condition> {
    Find(st.conditions, READY)
  }

  /** utils.ReadyConditionObservedGeneration: the generation and whether it was found. */
  function ReadyObserved(st: Status): Option<nat> {
    match Ready(st)
    case Some(c) => Some(c.observedGeneration)
    case None => None
  }

  predicate SameVerdict(a: Condition, b: Condition) {
    a.status == b.status && a.reason == b.reason && a.message == b.message
  }

  /** The condition as stored: the generation is that of the object at hand and
      the timestamp moves only on a transition. */
  function Stamped(cs: seq<Condition>, c: Condition, generation: nat, now: int): Condition {
    var d := c.(observedGeneration := generation);
    match Find(cs, c.kind)
    case Some(prev) =>
      d.(lastTransition := if SameVerdict(prev, c) then prev.lastTransition else now)
    case None => d.(lastTransition := now)
  }

  function WithCondition(cs: seq<Condition>, c: Condition, generation: nat, now: int): seq<Condition> {
    var i := FirstOfKind(cs, c.kind);
    var d := Stamped(cs, c, generation, now);
    if i < |cs| then cs[i := d] else cs + [d]
  }

  /** Two lists that agree on where a kind first occurs and on that entry answer alike. */
  lemma FirstUnique(cs: seq<Condition>, kind: string, i: nat)
    requires i <= |cs|
    requires forall k | 0 <= k < i :: cs[k].kind != kind
    requires i < |cs| ==> cs[i].kind == kind
    ensures FirstOfKind(cs, kind) == i
  {
    var j := FirstOfKind(cs, kind);
  }

  /** Setting a condition makes it the one found for its kind and leaves every
      other kind as it was. */
  lemma WithConditionFound(cs: seq<Condition>, c: Condition, generation: nat, now: int, kind: string)
    ensures Find(WithCondition(cs, c, generation, now), kind)
         == if kind == c.kind then Some(Stamped(cs, c, generation, now)) else Find(cs, kind)
  {
    var i := FirstOfKind(cs, c.kind);
    var r := WithCondition(cs, c, generation, now);
    if kind == c.kind {
      FirstUnique(r, kind, i);
    } else {
      var k := FirstOfKind(cs, kind);
      FirstUnique(r, kind, if k < |cs| then k else |r|);
    }
  }

  /** The transition time moves exactly when status, reason or message change. */
  lemma TransitionTimeMoves(cs: seq<Condition>, c: Condition, generation: nat, now: int)
    ensures var r := Find(WithCondition(cs, c, generation, now), c.kind);
      && r.Some?
      && r.value.status == c.status && r.value.reason == c.reason && r.value.message == c.message
      && r.value.observedGeneration == generation
      && r.value.lastTransition
         == match Find(cs, c.kind)
            case None => now
            case Some(prev) =>
              if prev.status != c.status || prev.reason != c.reason || prev.message != c.message then now
              else prev.lastTransition
  {
    WithConditionFound(cs, c, generation, now, c.kind);
  }

  function Timeless(c: Condition): Condition {
    c.(lastTransition := 0)
  }

  /** reflect.DeepEqual of two statuses up to transition times. */
  predicate StatusEqual(old_: Status, new_: Status) {
    && old_.capabilities == new_.capabilities
    && old_.clientGeneration == new_.clientGeneration
    && |old_.conditions| == |new_.conditions|
    && forall k | 0 <= k < |old_.conditions| :: Timeless(old_.conditions[k]) == Timeless(new_.conditions[k])
  }

  /** Two statuses are equal exactly when one is the other with different transition times. */
  lemma EqualUpToTimes(old_: Status, new_: Status)
    ensures StatusEqual(old_, new_) <==>
            exists times :: |times| == |old_.conditions| && Retimed(old_, times) == new_
  {
    if StatusEqual(old_, new_) {
      var times := seq(|old_.conditions|, k requires 0 <= k < |new_.conditions| => new_.conditions[k].lastTransition);
      forall k | 0 <= k < |old_.conditions|
        ensures Retimed(old_, times).conditions[k] == new_.conditions[k]
      {
        assert Timeless(old_.conditions[k]) == Timeless(new_.conditions[k]);
      }
      assert Retimed(old_, times) == new_;
    }
    forall times | |times| == |old_.conditions| && Retimed(old_, times) == new_
      ensures StatusEqual(old_, new_)
    {
    }
  }

  function Retimed(st: Status, times: seq<int>): Status
    requires |times| == |st.conditions|
  {
    var cs := st.conditions;
    Status(seq(|cs|, k requires 0 <= k < |cs| => cs[k].(lastTransition := times[k])),
           st.capabilities, st.clientGeneration)
  }

  /** What updateStatus writes: the bump, then the condition, on top of `base`. */
  function Updated(base: Status, c: Condition, generation: nat, now: int, bump: bool): Status {
    Status(WithCondition(base.conditions, c, generation, now), base.capabilities,
           if bump then base.clientGeneration + 1 else base.clientGeneration)
  }

  predicate ShouldWrite(old_: Status, new_: Status) {
    !StatusEqual(old_, new_) || |old_.conditions| == 0
  }

  /** A bumped status is never mistaken for an unchanged one. */
  lemma BumpAlwaysWritten(base: Status, c: Condition, generation: nat, now: int)
    ensures ShouldWrite(base, Updated(base, c, generation, now, true))
  {
  }

  /** An unbumped write is suppressed exactly when the stored condition already
      carries this verdict for this generation. */
  lemma RepeatSuppressed(old_: Status, c: Condition, generation: nat, now: int)
    ensures !ShouldWrite(old_, Updated(old_, c, generation, now, false))
       <==> Find(old_.conditions, c.kind).Some?
            && SameVerdict(Find(old_.conditions, c.kind).value, c)
            && Find(old_.conditions, c.kind).value.observedGeneration == generation
  {
    var i := FirstOfKind(old_.conditions, c.kind);
    var d := Stamped(old_.conditions, c, generation, now);
    var n := Updated(old_, c, generation, now, false);
    if i < |old_.conditions| {
      assert n.conditions[i] == d;
      if Timeless(old_.conditions[i]) == Timeless(d) {
        forall k | 0 <= k < |old_.conditions|
          ensures Timeless(old_.conditions[k]) == Timeless(n.conditions[k])
        {
        }
      }
    }
  }

  /** The in-memory status object a reconcile round edits through its setters. */
  class StatusObject {
    var conditions: seq<Condition>
    var capabilities: string
    var clientGeneration: nat

    constructor (st: Status)
      ensures Value() == st
    {
      conditions, capabilities, clientGeneration := st.conditions, st.capabilities, st.clientGeneration;
    }

    function Value(): Status
      reads this
    {
      Status(conditions, capabilities, clientGeneration)
    }

    method SetCondition(c: Condition, generation: nat, now: int)
      modifies this`conditions
      ensures conditions == WithCondition(old(conditions), c, generation, now)
    {
      var condition := c.(observedGeneration := generation);
      var i := 0;
      while i < |conditions|
        invariant 0 <= i <= |conditions| && conditions == old(conditions)
        invariant forall k | 0 <= k < i :: conditions[k].kind != c.kind
      {
        var e := conditions[i];
        if e.kind == condition.kind {
          FirstUnique(conditions, c.kind, i);
          if e.status == condition.status && e.reason == condition.reason && e.message == condition.message {
            condition := condition.(lastTransition := e.lastTransition);
          } else {
            condition := condition.(lastTransition := now);
          }
          conditions := conditions[i := condition];
          return;
        }
        i := i + 1;
      }
      FirstUnique(conditions, c.kind, |conditions|);
      condition := condition.(lastTransition := now);
      conditions := conditions + [condition];
    }
  }

  /** statusEqual as the loop that compares conditions in order. */
  method CompareStatus(old_: Status, new_: Status) returns (equal: bool)
    ensures equal == StatusEqual(old_, new_)
  {
    if old_.capabilities != new_.capabilities || old_.clientGeneration != new_.clientGeneration
      || |new_.conditions| != |old_.conditions| {
      return false;
    }
    for i := 0 to |new_.conditions|
      invariant forall k | 0 <= k < i :: Timeless(old_.conditions[k]) == Timeless(new_.conditions[k])
    {
      if Timeless(new_.conditions[i]) != Timeless(old_.conditions[i]) {
        return false;
      }
    }
    return true;
  }
}
