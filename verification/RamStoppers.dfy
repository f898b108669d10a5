/** The registry of credential refreshers (pkg/backend/provider/provider_manager.go)
    under concurrent calls: RegisterRamProvider and StopProvider change the map
    inside the lock and stop the detached refresher outside it, so any number of
    other calls may run in between. */
module RamStoppers {
  import opened Wrappers

  /** The keys that hold a value. */
  function Holders<K, V(==)>(m: map<K, V>, v: V): set<K> {
    set k | k in m && m[k] == v
  }

  lemma HoldersPut<K, V>(m: map<K, V>, k: K, w: V, v: V)
    ensures |Holders(m[k := w], v)|
         == |Holders(m, v)| - (if k in m && m[k] == v then 1 else 0) + (if w == v then 1 else 0)
  {
    HoldersSplit(m, k, v);
    HoldersSplit(m[k := w], k, v);
    var before, after := Holders(m, v) - {k}, Holders(m[k := w], v) - {k};
    forall x ensures x in before <==> x in after {
    }
    assert before == after;
  }

  lemma HoldersSplit<K, V>(m: map<K, V>, k: K, v: V)
    ensures |Holders(m, v)| == |Holders(m, v) - {k}| + (if k in m && m[k] == v then 1 else 0)
  {
    var all := Holders(m, v);
    if k in all {
      assert all == (all - {k}) + {k};
    } else {
      assert all == all - {k};
    }
  }

  lemma HoldersDrop<K, V>(m: map<K, V>, k: K, v: V)
    ensures |Holders(m - {k}, v)| == |Holders(m, v)| - (if k in m && m[k] == v then 1 else 0)
  {
    HoldersSplit(m, k, v);
    var before, after := Holders(m, v) - {k}, Holders(m - {k}, v);
    forall x ensures x in before <==> x in after {
    }
    assert before == after;
  }

  // ------------------------------------------------------------------ machine

  /** `ram` is the map under the lock; a registered refresher may be nil. `detached`
      holds, per running call, the refresher it took out and has yet to stop;
      `stops` counts the Stop invocations each refresher received. */
  datatype State = State(
    ram: map<string, Option<nat>>, detached: map<nat, nat>, stops: multiset<nat>)

  const EMPTY := State(map[], map[], multiset{})

  /** Register and Stop are the critical sections of one call; Finish is that
      call's stopProviderInstance, outside the lock. */
  datatype Label =
    | Register(call: nat, name: string, stopper: Option<nat>)
    | Stop(call: nat, name: string)
    | Finish(call: nat)

  predicate Enabled(s: State, l: Label) {
    match l
    case Register(c, _, _) => c !in s.detached
    case Stop(c, _) => c !in s.detached
    case Finish(c) => c in s.detached
  }

  function Detach(s: State, call: nat, name: string): map<nat, nat> {
    if name in s.ram && s.ram[name].Some? then s.detached[call := s.ram[name].value] else s.detached
  }

  function Apply(s: State, l: Label): State
    requires Enabled(s, l)
  {
    match l
    case Register(c, n, p) => State(s.ram[n := p], Detach(s, c, n), s.stops)
    case Stop(c, n) => State(s.ram - {n}, Detach(s, c, n), s.stops)
    case Finish(c) => State(s.ram, s.detached - {c}, s.stops + multiset{s.detached[c]})
  }

  predicate IsRun(s: State, ls: seq<Label>)
    decreases |ls|
  {
    ls == [] || (Enabled(s, ls[0]) && IsRun(Apply(s, ls[0]), ls[1..]))
  }

  function Exec(s: State, ls: seq<Label>): State
    requires IsRun(s, ls)
    decreases |ls|
  {
    if ls == [] then s else Exec(Apply(s, ls[0]), ls[1..])
  }

  /** How often a refresher was handed to RegisterRamProvider. */
  function Registrations(ls: seq<Label>, p: nat): nat {
    if ls == [] then 0
    else (if ls[0].Register? && ls[0].stopper == Some(p) then 1 else 0) + Registrations(ls[1..], p)
  }

  /** Everywhere a refresher can be: current, taken out by a running call, stopped. */
  function Places(s: State, p: nat): nat {
    |Holders(s.ram, Some(p))| + |Holders(s.detached, p)| + s.stops[p]
  }

  lemma StepConserves(s: State, l: Label, p: nat)
    requires Enabled(s, l)
    ensures Places(Apply(s, l), p) == Places(s, p) + (if l.Register? && l.stopper == Some(p) then 1 else 0)
  {
    match l
    case Register(c, n, q) =>
      HoldersPut(s.ram, n, q, Some(p));
      if n in s.ram && s.ram[n].Some? {
        HoldersPut(s.detached, c, s.ram[n].value, p);
      }
    case Stop(c, n) =>
      HoldersDrop(s.ram, n, Some(p));
      if n in s.ram && s.ram[n].Some? {
        HoldersPut(s.detached, c, s.ram[n].value, p);
      }
    case Finish(c) =>
      HoldersDrop(s.detached, c, p);
  }

  /** Conservation: over every interleaving each registration of a refresher is
      accounted for exactly once: still current, on its way out in one call, or
      stopped. */
  lemma {:induction false} Conservation(s: State, ls: seq<Label>, p: nat)
    requires IsRun(s, ls)
    ensures Places(Exec(s, ls), p) == Places(s, p) + Registrations(ls, p)
    decreases |ls|
  {
    if ls != [] {
      StepConserves(s, ls[0], p);
      Conservation(Apply(s, ls[0]), ls[1..], p);
    }
  }

  lemma OneHolder<K, V>(m: map<K, V>, v: V, a: K, b: K)
    requires a in m && m[a] == v && b in m && m[b] == v && |Holders(m, v)| <= 1
    ensures a == b
  {
    var rest := Holders(m, v) - {a};
    assert a in Holders(m, v) && b in Holders(m, v);
    assert |rest| == |Holders(m, v)| - 1;
    assert b == a || b in rest;
  }

  /** A refresher registered once is in exactly one place: it is the current entry
      of one name and was never stopped, or exactly one call detached it and will
      stop it, or it was stopped exactly once. */
  lemma StoppedExactlyOnce(ls: seq<Label>, p: nat)
    requires IsRun(EMPTY, ls) && Registrations(ls, p) == 1
    ensures var s := Exec(EMPTY, ls);
      && (forall n | n in s.ram && s.ram[n] == Some(p) ::
            s.stops[p] == 0 && forall c | c in s.detached :: s.detached[c] != p)
      && (forall c | c in s.detached && s.detached[c] == p ::
            s.stops[p] == 0 && forall d | d in s.detached && s.detached[d] == p :: d == c)
      && s.stops[p] <= 1
      && (s.stops[p] == 0 ==>
            (exists n :: n in s.ram && s.ram[n] == Some(p)) || (exists c :: c in s.detached && s.detached[c] == p))
  {
    var s := Exec(EMPTY, ls);
    Conservation(EMPTY, ls, p);
    assert Holders(EMPTY.ram, Some(p)) == {} && Holders(EMPTY.detached, p) == {};
    var current, out := Holders(s.ram, Some(p)), Holders(s.detached, p);
    forall n | n in s.ram && s.ram[n] == Some(p)
      ensures |current| >= 1
    {
      assert n in current;
      assert |current - {n}| == |current| - 1;
    }
    forall c | c in s.detached && s.detached[c] == p
      ensures |out| >= 1
      ensures forall d | d in s.detached && s.detached[d] == p :: d == c
    {
      assert c in out;
      assert |out - {c}| == |out| - 1;
      forall d | d in s.detached && s.detached[d] == p
        ensures d == c
      {
        OneHolder(s.detached, p, c, d);
      }
    }
    if s.stops[p] == 0 {
      if |current| > 0 {
        var n :| n in current;
      } else {
        var c :| c in out;
      }
    }
  }

  /** The single registration matters: handing the same refresher in twice under one
      name stops it while it is the current entry. */
  lemma DoubleRegistrationStopsCurrent(name: string, p: nat)
    ensures var ls := [Register(0, name, Some(p)), Register(1, name, Some(p)), Finish(1)];
      IsRun(EMPTY, ls) &&
      var s := Exec(EMPTY, ls);
      name in s.ram && s.ram[name] == Some(p) && s.stops[p] == 1
  {
    var s1 := Apply(EMPTY, Register(0, name, Some(p)));
    var s2 := Apply(s1, Register(1, name, Some(p)));
    var l3: seq<Label> := [Finish(1)];
    var l2 := [Register(1, name, Some(p))] + l3;
    var l1 := [Register(0, name, Some(p))] + l2;
    assert l1[1..] == l2 && l2[1..] == l3 && l3[1..] == [];
    var s3 := Apply(s2, Finish(1));
    assert IsRun(s3, l3[1..]) && IsRun(s2, l3) && IsRun(s1, l2) && IsRun(EMPTY, l1);
    assert Exec(EMPTY, l1) == Exec(s1, l2) == Exec(s2, l3) == s3;
    assert l1 == [Register(0, name, Some(p)), Register(1, name, Some(p)), Finish(1)];
  }
}
