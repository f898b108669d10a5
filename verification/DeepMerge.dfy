/** Deep merge of JSON objects and dot-path lookup (template_processor.go). Go maps are
    references, so documents live in a heap; an address outside it is the nil map. */
module DeepMerge {
  import opened Wrappers

  type Addr = nat

  /** A JSON value: a primitive, an array, or a reference to an object. */
  datatype Val = Leaf(id: nat) | Arr(items: seq<Val>) | Ref(addr: Addr)

  type Heap = map<Addr, map<string, Val>>

  function Fields(h: Heap, a: Addr): map<string, Val> {
    if a in h then h[a] else map[]
  }

  /** A merge result: a freshly built object, or a value shared with an input. */
  datatype Out = Shared(v: Val) | Merged(entries: map<string, Out>)

  /** Both sides hold an object under k. */
  predicate BothObjects(h: Heap, base: Addr, override: Addr, k: string) {
    && k in Fields(h, base) && k in Fields(h, override)
    && Fields(h, base)[k].Ref? && Fields(h, override)[k].Ref?
  }

  /** deepMergeWithCycle; `visited` holds the base objects on the current path. It
      terminates on every heap, cyclic or not. */
  function DeepMergeWithCycle(h: Heap, base: Addr, override: Addr, visited: set<Addr>): Out
    decreases h.Keys - visited
  {
    if base in visited then Shared(Ref(base))
    else
      Merged(map k | k in Fields(h, base).Keys + Fields(h, override).Keys ::
        if BothObjects(h, base, override, k) then
          DeepMergeWithCycle(h, Fields(h, base)[k].addr, Fields(h, override)[k].addr, visited + {base})
        else if k in Fields(h, override) then Shared(Fields(h, override)[k])
        else Shared(Fields(h, base)[k]))
  }

  function DeepMerged(h: Heap, base: Addr, override: Addr): Out {
    DeepMergeWithCycle(h, base, override, {})
  }

  /** What the merge of two objects holds under k, below the path `visited`. */
  function EntryOf(h: Heap, base: Addr, override: Addr, k: string, visited: set<Addr>): Out
    requires k in Fields(h, base) || k in Fields(h, override)
  {
    if BothObjects(h, base, override, k) then
      DeepMergeWithCycle(h, Fields(h, base)[k].addr, Fields(h, override)[k].addr, visited)
    else if k in Fields(h, override) then Shared(Fields(h, override)[k])
    else Shared(Fields(h, base)[k])
  }

  lemma EntryCases(h: Heap, base: Addr, override: Addr, visited: set<Addr>)
    ensures var b, o := Fields(h, base), Fields(h, override);
            && (forall k | k in b && k !in o :: EntryOf(h, base, override, k, visited) == Shared(b[k]))
            && (forall k | k in o :: EntryOf(h, base, override, k, visited) ==
                  if k in b && b[k].Ref? && o[k].Ref? then DeepMergeWithCycle(h, b[k].addr, o[k].addr, visited)
                  else Shared(o[k]))
            && (b != map[] ==> base in h)
  {
  }

  lemma MergedEntries(h: Heap, base: Addr, override: Addr, visited: set<Addr>, entries: map<string, Out>)
    requires base !in visited && entries.Keys == Fields(h, base).Keys + Fields(h, override).Keys
    requires forall k | k in entries :: entries[k] == EntryOf(h, base, override, k, visited + {base})
    ensures DeepMergeWithCycle(h, base, override, visited) == Merged(entries)
  {
    assert DeepMergeWithCycle(h, base, override, visited).entries == entries;
  }

  lemma ShorterPath(all: set<Addr>, visited: set<Addr>, base: Addr)
    requires base in all && base in visited
    ensures all - visited < all - (visited - {base})
  {
    assert base in all - (visited - {base});
  }

  /** The recursion with its mutable visited set. */
  class Merger {
    var visited: set<Addr>

    constructor ()
      ensures visited == {}
    {
      visited := {};
    }

    method Merge(h: Heap, base: Addr, override: Addr) returns (result: Out)
      modifies this
      ensures visited == old(visited)
      ensures result == DeepMergeWithCycle(h, base, override, old(visited))
      decreases h.Keys - visited, 1
    {
      if base in visited {
        return Shared(Ref(base));
      }
      ghost var outer := visited;
      visited := visited + {base};
      assert visited - {base} == outer;
      var entries := Overlay(h, base, override);
      assert entries.Keys == Fields(h, base).Keys + Fields(h, override).Keys;
      MergedEntries(h, base, override, outer, entries);
      visited := visited - {base};
      result := Merged(entries);
    }

    /** The two loops: every base entry, then the override's entries over them. */
    method Overlay(h: Heap, base: Addr, override: Addr) returns (entries: map<string, Out>)
      requires base in visited
      modifies this
      ensures visited == old(visited)
      ensures forall k :: k in entries <==> k in Fields(h, base) || k in Fields(h, override)
      ensures forall k | k in entries :: entries[k] == EntryOf(h, base, override, k, visited)
      decreases h.Keys - (visited - {base}), 0
    {
      var b, o := Fields(h, base), Fields(h, override);
      entries := map k | k in b :: Shared(b[k]);
      var rest := o.Keys;
      EntryCases(h, base, override, visited);
      hide DeepMergeWithCycle, EntryOf, BothObjects, Fields;
      while rest != {}
        invariant visited == old(visited) && rest <= o.Keys
        invariant forall k :: k in entries <==> k in b || (k in o && k !in rest)
        invariant forall k | k in entries && k !in rest :: entries[k] == EntryOf(h, base, override, k, visited)
        decreases |rest|
      {
        var k :| k in rest;
        rest := rest - {k};
        var entry := Shared(o[k]);
        if k in b && b[k].Ref? && o[k].Ref? {
          ShorterPath(h.Keys, visited, base);
          entry := Merge(h, b[k].addr, o[k].addr);
        }
        entries := entries[k := entry];
      }
    }
  }

  // ------------------------------------------------------------------- lookup

  /** strconv.Atoi on one path part. */
  function Digits(s: string): Option<nat> {
    if s == "" then Some(0)
    else
      var init := Digits(s[..|s| - 1]);
      var c := s[|s| - 1];
      if init.Some? && '0' <= c <= '9' then Some(10 * init.value + (c as int - '0' as int)) else None
  }

  function Atoi(s: string): Option<int> {
    if s == "" then None
    else if s[0] == '+' || s[0] == '-' then
      var digits := Digits(s[1..]);
      if |s| == 1 || digits.None? then None
      else Some((if s[0] == '-' then -1 else 1) * digits.value)
    else if Digits(s).None? then None else Some(Digits(s).value)
  }

  /** One step of a path: into an object by key, into an array by index. */
  function Child(h: Heap, v: Val, part: string): Option<Val> {
    match v
    case Leaf(_) => None
    case Arr(items) =>
      var idx := Atoi(part);
      if idx.Some? && 0 <= idx.value < |items| then Some(items[idx.value]) else None
    case Ref(a) => if part in Fields(h, a) then Some(Fields(h, a)[part]) else None
  }

  function Find(h: Heap, v: Val, path: seq<string>): Option<Val>
    decreases |path|
  {
    if path == [] then Some(v)
    else
      var next := Child(h, v, path[0]);
      if next.None? then None else Find(h, next.value, path[1..])
  }

  /** extractJSONPath on a split path; none is its "" answer. */
  method ExtractJSONPath(h: Heap, data: Val, parts: seq<string>) returns (found: Option<Val>)
    ensures found == Find(h, data, parts)
  {
    var current := data;
    for i := 0 to |parts|
      invariant Find(h, data, parts) == Find(h, current, parts[i..])
    {
      var next := Child(h, current, parts[i]);
      if next.None? {
        return None;
      }
      assert parts[i..][1..] == parts[i + 1..];
      current := next.value;
    }
    return Some(current);
  }

  /** Decimal notation. */
  function Decimal(n: nat): (s: string)
    ensures s != "" && forall c | c in s :: '0' <= c <= '9'
    decreases n
  {
    if n < 10 then [('0' as int + n) as char] else Decimal(n / 10) + [('0' as int + n % 10) as char]
  }

  lemma {:induction false} DigitsOfDecimal(n: nat)
    ensures Digits(Decimal(n)) == Some(n)
    decreases n
  {
    if n < 10 {
      var c := ('0' as int + n) as char;
      assert Decimal(n) == [c] && [c][..0] == "";
    } else {
      DigitsOfDecimal(n / 10);
      var c := ('0' as int + n % 10) as char;
      assert Decimal(n) == Decimal(n / 10) + [c];
      assert Decimal(n)[..|Decimal(n)| - 1] == Decimal(n / 10);
    }
  }

  predicate AllDigits(s: string) {
    forall i | 0 <= i < |s| :: '0' <= s[i] <= '9'
  }

  lemma {:induction false} DigitsOnly(s: string)
    ensures Digits(s).Some? <==> AllDigits(s)
  {
    if s != "" {
      var init := s[..|s| - 1];
      DigitsOnly(init);
      assert forall i | 0 <= i < |init| :: init[i] == s[i];
      if AllDigits(s) {
        assert AllDigits(init);
        assert '0' <= s[|s| - 1] <= '9';
      }
    }
  }

  /** Numbers are read as written, with or without a sign; anything else is refused. */
  lemma AtoiReads(n: nat, s: string)
    ensures Atoi(Decimal(n)) == Some(n) && Atoi("+" + Decimal(n)) == Some(n)
    ensures Atoi("-" + Decimal(n)).Some? && Atoi("-" + Decimal(n)).value == 0 - n
    ensures Atoi(s).Some? <==>
              && s != ""
              && (AllDigits(s) || (|s| > 1 && (s[0] == '+' || s[0] == '-') && AllDigits(s[1..])))
  {
    DigitsOfDecimal(n);
    assert ("+" + Decimal(n))[1..] == Decimal(n) && ("-" + Decimal(n))[1..] == Decimal(n);
    assert Decimal(n)[0] in Decimal(n);
    if s != "" {
      DigitsOnly(s);
      DigitsOnly(s[1..]);
    }
  }

  /** One step of a path: item n of an array under the number n and nothing past its end or
      before its start, the entry of an object under its key, nothing below a primitive. */
  lemma ChildIsWhatThePathNames(h: Heap, items: seq<Val>, n: nat, a: Addr, part: string, id: nat)
    ensures Child(h, Arr(items), Decimal(n)) == if n < |items| then Some(items[n]) else None
    ensures n > 0 ==> Child(h, Arr(items), "-" + Decimal(n)) == None
    ensures !AllDigits(part) && (part == "" || !AllDigits(part[1..])) ==> Child(h, Arr(items), part) == None
    ensures Child(h, Ref(a), part) == if a in h && part in h[a] then Some(h[a][part]) else None
    ensures Child(h, Leaf(id), part) == None
  {
    AtoiReads(n, part);
  }

  /** A path is walked step by step. */
  lemma {:induction false} FindComposes(h: Heap, v: Val, p: seq<string>, part: string)
    ensures Find(h, v, []) == Some(v)
    ensures Find(h, v, p + [part]) == if Find(h, v, p).Some? then Child(h, Find(h, v, p).value, part) else None
    decreases |p|
  {
    if p == [] {
      assert p + [part] == [part] && [part][1..] == [];
    } else {
      assert (p + [part])[1..] == p[1..] + [part];
      var next := Child(h, v, p[0]);
      if next.Some? {
        FindComposes(h, next.value, p[1..], part);
      }
      hide Child;
    }
  }

  /** What a reader of a document sees at a path. */
  datatype Answer = NotFound | Object | Value(v: Val)

  function See(v: Option<Val>): Answer {
    if v.None? then NotFound else if v.value.Ref? then Object else Value(v.value)
  }

  function SeeOut(h: Heap, o: Out, path: seq<string>): Answer
    decreases |path|
  {
    match o
    case Shared(v) => See(Find(h, v, path))
    case Merged(entries) =>
      if path == [] then Object
      else if path[0] in entries then SeeOut(h, entries[path[0]], path[1..])
      else NotFound
  }

  // ----------------------------------------------------------------- acyclicity

  function AddrAt(h: Heap, a: Addr, path: seq<string>): Option<Addr>
    decreases |path|
  {
    if path == [] then Some(a)
    else if path[0] in Fields(h, a) && Fields(h, a)[path[0]].Ref? then AddrAt(h, Fields(h, a)[path[0]].addr, path[1..])
    else None
  }

  /** No object is nested inside itself. Sharing between branches is allowed. */
  ghost predicate Acyclic(h: Heap, a: Addr) {
    forall p, q | q < p && AddrAt(h, a, p).Some? :: AddrAt(h, a, q) != AddrAt(h, a, p)
  }

  /** Does the cycle check fire anywhere in the merge? */
  predicate Fires(h: Heap, base: Addr, override: Addr, visited: set<Addr>)
    decreases h.Keys - visited
  {
    || base in visited
    || exists k :: (&& k in Fields(h, base) && BothObjects(h, base, override, k)
                    && Fires(h, Fields(h, base)[k].addr, Fields(h, override)[k].addr, visited + {base}))
  }

  ghost predicate Unvisited(h: Heap, a: Addr, visited: set<Addr>) {
    forall p | AddrAt(h, a, p).Some? :: AddrAt(h, a, p).value !in visited
  }

  lemma ChildPaths(h: Heap, a: Addr, k: string, p: seq<string>)
    requires k in Fields(h, a) && Fields(h, a)[k].Ref?
    ensures AddrAt(h, a, [k] + p) == AddrAt(h, Fields(h, a)[k].addr, p)
  {
    assert ([k] + p)[1..] == p;
  }

  lemma ChildIsAcyclic(h: Heap, a: Addr, k: string, visited: set<Addr>)
    requires Acyclic(h, a) && Unvisited(h, a, visited) && k in Fields(h, a) && Fields(h, a)[k].Ref?
    ensures Acyclic(h, Fields(h, a)[k].addr) && Unvisited(h, Fields(h, a)[k].addr, visited + {a})
  {
    var child := Fields(h, a)[k].addr;
    forall p, q | q < p && AddrAt(h, child, p).Some?
      ensures AddrAt(h, child, q) != AddrAt(h, child, p)
    {
      ChildPaths(h, a, k, p);
      ChildPaths(h, a, k, q);
      assert [k] + q < [k] + p;
    }
    forall p | AddrAt(h, child, p).Some?
      ensures AddrAt(h, child, p).value !in visited + {a}
    {
      ChildPaths(h, a, k, p);
      assert [] < [k] + p && AddrAt(h, a, []) == Some(a);
    }
  }

  lemma {:induction false} AcyclicIsSafe(h: Heap, base: Addr, override: Addr, visited: set<Addr>)
    requires Acyclic(h, base) && Unvisited(h, base, visited)
    ensures !Fires(h, base, override, visited)
    decreases h.Keys - visited
  {
    assert AddrAt(h, base, []) == Some(base);
    forall k | k in Fields(h, base) && BothObjects(h, base, override, k)
      ensures !Fires(h, Fields(h, base)[k].addr, Fields(h, override)[k].addr, visited + {base})
    {
      ChildIsAcyclic(h, base, k, visited);
      AcyclicIsSafe(h, Fields(h, base)[k].addr, Fields(h, override)[k].addr, visited + {base});
    }
  }

  lemma {:induction false} VisitedFires(h: Heap, a: Addr, visited: set<Addr>, p: seq<string>)
    requires AddrAt(h, a, p).Some? && AddrAt(h, a, p).value in visited
    ensures Fires(h, a, a, visited)
    decreases |p|
  {
    if a !in visited {
      VisitedFires(h, Fields(h, a)[p[0]].addr, visited + {a}, p[1..]);
      assert BothObjects(h, a, a, p[0]);
    }
  }

  lemma {:induction false} RepeatFires(h: Heap, a: Addr, visited: set<Addr>, q: seq<string>, p: seq<string>)
    requires q < p && AddrAt(h, a, p).Some? && AddrAt(h, a, q) == AddrAt(h, a, p)
    ensures Fires(h, a, a, visited)
    decreases |p|
  {
    if a !in visited {
      var child := Fields(h, a)[p[0]].addr;
      assert BothObjects(h, a, a, p[0]);
      if q == [] {
        VisitedFires(h, child, visited + {a}, p[1..]);
      } else {
        assert q[0] == p[0] && q[1..] < p[1..];
        RepeatFires(h, child, visited + {a}, q[1..], p[1..]);
      }
    }
  }

  /** The cycle check is exact: no override makes it fire on a base precisely when the
      base has no cycle. Repeated siblings do not set it off. */
  lemma CycleCheckIsExact(h: Heap, base: Addr)
    ensures (forall override :: !Fires(h, base, override, {})) <==> Acyclic(h, base)
  {
    if Acyclic(h, base) {
      forall override
        ensures !Fires(h, base, override, {})
      {
        AcyclicIsSafe(h, base, override, {});
      }
    } else {
      var p, q :| q < p && AddrAt(h, base, p).Some? && AddrAt(h, base, q) == AddrAt(h, base, p);
      RepeatFires(h, base, {}, q, p);
      assert Fires(h, base, base, {});
    }
  }

  // ----------------------------------------------------------------- lookup law

  /** The override runs out of keys on this path before it reaches a non-object. */
  predicate Lacks(h: Heap, v: Val, path: seq<string>)
    decreases |path|
  {
    && path != [] && v.Ref?
    && (path[0] in Fields(h, v.addr) ==> Lacks(h, Fields(h, v.addr)[path[0]], path[1..]))
  }

  /** On the way, an object of the override replaces an array of the base. */
  predicate Hidden(h: Heap, base: Val, override: Val, path: seq<string>)
    decreases |path|
  {
    && path != [] && override.Ref?
    && (base.Arr? || (&& base.Ref? && path[0] in Fields(h, base.addr) && path[0] in Fields(h, override.addr)
                      && Hidden(h, Fields(h, base.addr)[path[0]], Fields(h, override.addr)[path[0]], path[1..])))
  }

  lemma {:induction false} LackingIsAbsent(h: Heap, v: Val, path: seq<string>)
    requires Lacks(h, v, path)
    ensures Find(h, v, path) == None
    decreases |path|
  {
    if path[0] in Fields(h, v.addr) {
      LackingIsAbsent(h, Fields(h, v.addr)[path[0]], path[1..]);
    }
  }

  lemma {:induction false} LookupLawAt(h: Heap, base: Addr, override: Addr, visited: set<Addr>, path: seq<string>)
    requires !Fires(h, base, override, visited)
    ensures SeeOut(h, DeepMergeWithCycle(h, base, override, visited), path)
         == if !Lacks(h, Ref(override), path) then See(Find(h, Ref(override), path))
            else if Hidden(h, Ref(base), Ref(override), path) then NotFound
            else See(Find(h, Ref(base), path))
    decreases |path|
  {
    if path != [] {
      var k := path[0];
      if BothObjects(h, base, override, k) {
        LookupLawAt(h, Fields(h, base)[k].addr, Fields(h, override)[k].addr, visited + {base}, path[1..]);
      } else if k in Fields(h, override) {
        if Lacks(h, Ref(override), path) {
          LackingIsAbsent(h, Fields(h, override)[k], path[1..]);
        }
      }
    }
  }

  /** Reading a merge, at any path of any acyclic base and any override: the override
      answers unless it lacks the path, and then the base does, except that below a
      base array replaced by an override object there is nothing. */
  lemma LookupLaw(h: Heap, base: Addr, override: Addr, path: seq<string>)
    requires Acyclic(h, base)
    ensures SeeOut(h, DeepMerged(h, base, override), path)
         == if !Lacks(h, Ref(override), path) then See(Find(h, Ref(override), path))
            else if Hidden(h, Ref(base), Ref(override), path) then NotFound
            else See(Find(h, Ref(base), path))
    ensures Lacks(h, Ref(override), path) ==>
              (SeeOut(h, DeepMerged(h, base, override), path) == See(Find(h, Ref(base), path))
               <==> !Hidden(h, Ref(base), Ref(override), path) || Find(h, Ref(base), path) == None)
  {
    AcyclicIsSafe(h, base, override, {});
    LookupLawAt(h, base, override, {}, path);
  }

  /** The plain form of the law is false: {"a": [5]} merged with {"a": {}} lacks "a.0",
      which the override does not have and the base does. */
  lemma HiddenArrayCounterexample()
    ensures var h := map[1 := map["a" := Arr([Leaf(5)])], 2 := map["a" := Ref(3)], 3 := map[]];
            && Acyclic(h, 1)
            && Lacks(h, Ref(2), ["a", "0"])
            && See(Find(h, Ref(1), ["a", "0"])) == Value(Leaf(5))
            && SeeOut(h, DeepMerged(h, 1, 2), ["a", "0"]) == NotFound
  {
    var h: Heap := map[1 := map["a" := Arr([Leaf(5)])], 2 := map["a" := Ref(3)], 3 := map[]];
    forall p | p != []
      ensures AddrAt(h, 1, p) == None
    {
      assert Fields(h, 1) == map["a" := Arr([Leaf(5)])];
    }
    assert Acyclic(h, 1);
    var path := ["a", "0"];
    assert path[1..] == ["0"] && path[1..][1..] == [];
    assert Digits("0"[..0]) == Some(0);
    assert Atoi("0") == Some(0);
    assert Lacks(h, Fields(h, 2)["a"], path[1..]);
    LookupLaw(h, 1, 2, path);
  }

  /** Merging an object with itself, with the empty object, or into it changes no answer. */
  lemma MergeIdentities(h: Heap, a: Addr, empty: Addr, path: seq<string>)
    requires Acyclic(h, a) && Fields(h, empty) == map[]
    ensures SeeOut(h, DeepMerged(h, a, a), path) == See(Find(h, Ref(a), path))
    ensures SeeOut(h, DeepMerged(h, a, empty), path) == See(Find(h, Ref(a), path))
    ensures SeeOut(h, DeepMerged(h, empty, a), path) == See(Find(h, Ref(a), path))
  {
    LookupLaw(h, a, a, path);
    LookupLaw(h, a, empty, path);
    if Lacks(h, Ref(a), path) {
      LackingIsAbsent(h, Ref(a), path);
    }
    assert Acyclic(h, empty) by {
      assert forall p | p != [] :: AddrAt(h, empty, p) == None;
    }
    LookupLaw(h, empty, a, path);
  }
}
