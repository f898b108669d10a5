/** Failure counting, the fail-closed guards and the merge that keeps the previous
    values of failed keys (partial_failure.go and the counting half of the
    ExternalSecret controller). */
module PartialFailure {
  import opened Wrappers
  import opened ExternalSecrets
  import opened SyncFetch

  // ------------------------------------------------------------------- guards

  /** shouldSkipSecretWrite. */
  predicate ShouldSkipSecretWrite(secretMapLen: nat, errCount: nat, allFailed: bool, cleanup: bool, templated: bool) {
    if errCount == 0 then false
    else if allFailed && cleanup then false
    else if secretMapLen > 0 && !templated then false
    else true
  }

  /** hasDeclaredSourcesButZeroOutput. */
  predicate DeclaredSourcesButZeroOutput(total: nat, failedKeyCount: nat, produced: nat) {
    total > 0 && failedKeyCount == 0 && produced == 0
  }

  /** hasNoDeclaredSourcesButExistingData. */
  predicate NoDeclaredSourcesButExistingData(total: nat, templated: bool, existing: nat) {
    total == 0 && !templated && existing > 0
  }

  /** templateRenderedZeroOutput. */
  predicate TemplateRenderedZeroOutput(failedKeyCount: nat, after: nat, before: nat, existing: nat) {
    failedKeyCount == 0 && after == 0 && (before > 0 || existing > 0)
  }

  // ----------------------------------------------------------- twin exemption

  /** A failed entry is exempt when its key was also fetched successfully and its
      own targets are already in the output. */
  predicate Covered(d: DataSource, out: Data, succeeded: set<string>) {
    && d.key in succeeded
    && (ResolveTargetKey(d) in out || (d.jmesPath != [] && AliasKeys(d) <= out.Keys))
  }

  predicate Uncovered(d: DataSource, f: Fetched) {
    d.key in f.dataErrors && !Covered(d, f.out, f.dataSucceeded)
  }

  method DataEntryTargetCovered(d: DataSource, out: Data, succeeded: set<string>) returns (covered: bool)
    ensures covered == Covered(d, out, succeeded)
  {
    if d.key !in succeeded {
      return false;
    }
    if |d.jmesPath| > 0 {
      var allAliasesCovered := true;
      for i := 0 to |d.jmesPath|
        invariant allAliasesCovered
        invariant forall j | 0 <= j < i :: AliasKey(d, d.jmesPath[j]) in out
      {
        if AliasKey(d, d.jmesPath[i]) !in out {
          assert AliasKey(d, d.jmesPath[i]) in AliasKeys(d);
          allAliasesCovered := false;
          break;
        }
      }
      if allAliasesCovered {
        return true;
      }
    }
    return ResolveTargetKey(d) in out;
  }

  function FailedUncovered(sp: Spec, f: Fetched): seq<bool> {
    seq(|sp.data|, i requires 0 <= i < |sp.data| => Uncovered(sp.data[i], f))
  }

  method FailedUncoveredEntries(sp: Spec, f: Fetched) returns (failed: seq<bool>)
    ensures failed == FailedUncovered(sp, f)
  {
    failed := [];
    for i := 0 to |sp.data|
      invariant failed == FailedUncovered(sp, f)[..i]
    {
      var covered := DataEntryTargetCovered(sp.data[i], f.out, f.dataSucceeded);
      failed := failed + [sp.data[i].key in f.dataErrors && !covered];
    }
  }

  // ----------------------------------------------------------------- counting

  /** An extract entry whose key failed with no successful sibling. */
  predicate ExtractFailing(p: DataProcess, f: Fetched) {
    && p.extract.Some? && p.extract.value.key in f.extractErrors
    && p.extract.value.key !in f.extractSucceeded
  }

  function CountTrue(bs: seq<bool>): (n: nat)
    ensures n <= |bs|
  {
    if bs == [] then 0 else CountTrue(bs[..|bs| - 1]) + (if bs[|bs| - 1] then 1 else 0)
  }

  function CountExtracts(ps: seq<DataProcess>): nat {
    if ps == [] then 0 else CountExtracts(ps[..|ps| - 1]) + (if ps[|ps| - 1].extract.Some? then 1 else 0)
  }

  function CountFailing(ps: seq<DataProcess>, f: Fetched): nat {
    if ps == [] then 0 else CountFailing(ps[..|ps| - 1], f) + (if ExtractFailing(ps[|ps| - 1], f) then 1 else 0)
  }

  function TotalSources(sp: Spec): nat {
    |sp.data| + CountExtracts(sp.dataProcess)
  }

  function FailedSources(sp: Spec, f: Fetched): nat {
    CountTrue(FailedUncovered(sp, f)) + CountFailing(sp.dataProcess, f)
  }

  function FailedKeyCount(f: Fetched): nat {
    |f.dataErrors.Keys + f.extractErrors.Keys|
  }

  /** allDataSourcesFailed. */
  predicate AllFailed(sp: Spec, f: Fetched) {
    TotalSources(sp) > 0 && FailedSources(sp, f) == TotalSources(sp)
  }

  lemma CountTrueStep(bs: seq<bool>, i: nat)
    requires i < |bs|
    ensures CountTrue(bs[..i + 1]) == CountTrue(bs[..i]) + (if bs[i] then 1 else 0)
  {
    assert bs[..i + 1][..i] == bs[..i];
  }

  lemma CountStep(ps: seq<DataProcess>, f: Fetched, i: nat)
    requires i < |ps|
    ensures CountExtracts(ps[..i + 1]) == CountExtracts(ps[..i]) + (if ps[i].extract.Some? then 1 else 0)
    ensures CountFailing(ps[..i + 1], f) == CountFailing(ps[..i], f) + (if ExtractFailing(ps[i], f) then 1 else 0)
  {
    assert ps[..i + 1][..i] == ps[..i];
  }

  method CountFailedSources(sp: Spec, failedUncovered: seq<bool>, f: Fetched)
    returns (total: nat, failed: nat, failedKeyCount: nat)
    requires failedUncovered == FailedUncovered(sp, f)
    ensures total == TotalSources(sp) && failed == FailedSources(sp, f) && failedKeyCount == FailedKeyCount(f)
  {
    assert CountTrue([]) == 0 && CountExtracts([]) == 0 && CountFailing([], f) == 0;
    hide CountTrue, CountExtracts, CountFailing, Uncovered;
    total := |sp.data|;
    failed := 0;
    for i := 0 to |sp.data|
      invariant failed == CountTrue(failedUncovered[..i])
    {
      CountTrueStep(failedUncovered, i);
      if failedUncovered[i] {
        failed := failed + 1;
      }
    }
    assert failedUncovered[..|sp.data|] == failedUncovered;
    var ps := sp.dataProcess;
    for i := 0 to |ps|
      invariant total == |sp.data| + CountExtracts(ps[..i])
      invariant failed == CountTrue(failedUncovered) + CountFailing(ps[..i], f)
    {
      CountStep(ps, f, i);
      if ps[i].extract.None? {
        continue;
      }
      total := total + 1;
      var key := ps[i].extract.value.key;
      if key !in f.extractErrors || key in f.extractSucceeded {
        continue;
      }
      failed := failed + 1;
    }
    assert ps[..|ps|] == ps;
    failedKeyCount := |f.dataErrors.Keys + f.extractErrors.Keys|;
  }

  lemma {:induction false} AllTrue(bs: seq<bool>)
    ensures CountTrue(bs) == |bs| <==> forall i | 0 <= i < |bs| :: bs[i]
    ensures CountTrue(bs) > 0 <==> exists i :: 0 <= i < |bs| && bs[i]
  {
    if bs != [] {
      AllTrue(bs[..|bs| - 1]);
      assert forall i | 0 <= i < |bs| - 1 :: bs[..|bs| - 1][i] == bs[i];
    }
  }

  lemma {:induction false} AllFailing(ps: seq<DataProcess>, f: Fetched)
    ensures CountFailing(ps, f) <= CountExtracts(ps)
    ensures CountFailing(ps, f) == CountExtracts(ps)
       <==> forall i | 0 <= i < |ps| :: ps[i].extract.Some? ==> ExtractFailing(ps[i], f)
    ensures CountFailing(ps, f) > 0 <==> exists i :: 0 <= i < |ps| && ExtractFailing(ps[i], f)
    ensures CountExtracts(ps) == 0 <==> forall i | 0 <= i < |ps| :: ps[i].extract.None?
  {
    if ps != [] {
      AllFailing(ps[..|ps| - 1], f);
      assert forall i | 0 <= i < |ps| - 1 :: ps[..|ps| - 1][i] == ps[i];
    }
  }

  /** The counters never exceed the entries, all entries failed means each of them
      did, and a counted failure always leaves a failed key behind. */
  lemma CountingIsExact(sp: Spec, f: Fetched)
    ensures FailedSources(sp, f) <= TotalSources(sp)
    ensures AllFailed(sp, f) <==>
            && TotalSources(sp) > 0
            && (forall i | 0 <= i < |sp.data| :: Uncovered(sp.data[i], f))
            && (forall i | 0 <= i < |sp.dataProcess| ::
                  sp.dataProcess[i].extract.Some? ==> ExtractFailing(sp.dataProcess[i], f))
    ensures FailedSources(sp, f) > 0 <==>
            || (exists i :: 0 <= i < |sp.data| && Uncovered(sp.data[i], f))
            || (exists i :: 0 <= i < |sp.dataProcess| && ExtractFailing(sp.dataProcess[i], f))
    ensures FailedSources(sp, f) > 0 ==> FailedKeyCount(f) > 0
    ensures FailedKeyCount(f) == 0 <==> f.dataErrors == map[] && f.extractErrors == map[]
  {
    var bs := FailedUncovered(sp, f);
    AllTrue(bs);
    AllFailing(sp.dataProcess, f);
    assert forall i | 0 <= i < |bs| :: bs[i] == Uncovered(sp.data[i], f);
    var keys := f.dataErrors.Keys + f.extractErrors.Keys;
    if |keys| == 0 {
      assert f.dataErrors.Keys == {} && f.extractErrors.Keys == {};
    }
    if FailedSources(sp, f) > 0 {
      if i :| 0 <= i < |sp.data| && Uncovered(sp.data[i], f) {
        assert sp.data[i].key in keys;
      } else {
        var i :| 0 <= i < |sp.dataProcess| && ExtractFailing(sp.dataProcess[i], f);
        assert sp.dataProcess[i].extract.value.key in keys;
      }
    }
  }

  // ---------------------------------------------------- total-failure verdict

  lemma FetchedErrors(sp: Spec, a: Answers, i: nat)
    requires Aligned(sp, a) && i < |sp.data|
    ensures a.data[i].Failed? ==> sp.data[i].key in FetchAll(sp, a).dataErrors
    ensures a.data[i].Got? ==> sp.data[i].key in FetchAll(sp, a).dataSucceeded
    ensures a.data[i].Got? ==> Emission(sp.data[i], a.data[i].raw, a.data[i].matches).Keys <= FetchAll(sp, a).out.Keys
  {
    ErrorKeys(sp.data, a.data, sp.data[i].key);
    if a.data[i].Got? {
      OutputHasEmission(sp.data, a.data, i);
    }
  }

  lemma FetchedExtractErrors(sp: Spec, a: Answers, i: nat)
    requires Aligned(sp, a) && i < |sp.dataProcess| && sp.dataProcess[i].extract.Some?
    ensures a.extracts[i].ExtractFailed? ==> sp.dataProcess[i].extract.value.key in FetchAll(sp, a).extractErrors
    ensures a.extracts[i].ExtractGot? ==> sp.dataProcess[i].extract.value.key in FetchAll(sp, a).extractSucceeded
  {
    ExtractErrorKeys(sp.dataProcess, a.extracts, sp.dataProcess[i].extract.value.key);
  }

  /** When a round is counted as a total failure, no extract entry and no plain entry
      was fetched, and a jmesPath entry that was emitted a proper part of its aliases. */
  lemma TotalFailureSoundness(sp: Spec, a: Answers)
    requires Aligned(sp, a) && AllFailed(sp, FetchAll(sp, a))
    ensures forall i | 0 <= i < |sp.dataProcess| && sp.dataProcess[i].extract.Some? :: a.extracts[i].ExtractFailed?
    ensures forall i | 0 <= i < |sp.data| && sp.data[i].jmesPath == [] :: a.data[i].Failed?
    ensures forall i | 0 <= i < |sp.data| && a.data[i].Got? ::
              var emitted := Emission(sp.data[i], a.data[i].raw, a.data[i].matches).Keys;
              emitted < AliasKeys(sp.data[i]) && ResolveTargetKey(sp.data[i]) !in emitted
  {
    var f := FetchAll(sp, a);
    CountingIsExact(sp, f);
    forall i | 0 <= i < |sp.dataProcess| && sp.dataProcess[i].extract.Some?
      ensures a.extracts[i].ExtractFailed?
    {
      FetchedExtractErrors(sp, a, i);
    }
    forall i | 0 <= i < |sp.data| && a.data[i].Got?
      ensures sp.data[i].jmesPath != []
      ensures Emission(sp.data[i], a.data[i].raw, a.data[i].matches).Keys < AliasKeys(sp.data[i])
      ensures ResolveTargetKey(sp.data[i]) !in Emission(sp.data[i], a.data[i].raw, a.data[i].matches).Keys
    {
      FetchedErrors(sp, a, i);
      EmissionNonEmpty(sp.data[i], a.data[i].raw, a.data[i].matches);
      assert Uncovered(sp.data[i], f);
      assert sp.data[i].jmesPath != [];
      assert !(AliasKeys(sp.data[i]) <= f.out.Keys);
    }
  }

  predicate SomeSourceFetched(sp: Spec, a: Answers)
    requires Aligned(sp, a)
  {
    || (exists i :: 0 <= i < |sp.data| && a.data[i].Got?)
    || (exists i :: 0 <= i < |sp.dataProcess| && sp.dataProcess[i].extract.Some? && a.extracts[i].ExtractGot?)
  }

  /** Entry i names a document that another entry names too, and alias key k alone
      covers none of the entries naming it. */
  predicate UnexemptedTwin(sp: Spec, i: nat, n: nat)
    requires i < |sp.data| && n < |sp.data[i].jmesPath|
  {
    var k := AliasKey(sp.data[i], sp.data[i].jmesPath[n]);
    && (exists j :: 0 <= j < |sp.data| && j != i && sp.data[j].key == sp.data[i].key)
    && (forall j | 0 <= j < |sp.data| && sp.data[j].key == sp.data[i].key ::
          && ResolveTargetKey(sp.data[j]) != k
          && (sp.data[j].jmesPath != [] ==> AliasKeys(sp.data[j]) != {k}))
  }

  /** A spec on which a round that fetched something can be counted as a total failure. */
  predicate CanMiscount(sp: Spec) {
    exists i, n | 0 <= i < |sp.data| && 0 <= n < |sp.data[i].jmesPath| :: UnexemptedTwin(sp, i, n)
  }

  /** The documentation calls a failure total when every source failed. The counter
      agrees on exactly the specs without a jmesPath entry that shares its document
      with another entry and could match one alias that covers neither. */
  lemma TotalFailureMeansNothingFetched(sp: Spec)
    ensures (forall a | Aligned(sp, a) && AllFailed(sp, FetchAll(sp, a)) :: !SomeSourceFetched(sp, a))
       <==> !CanMiscount(sp)
  {
    if i, n :| 0 <= i < |sp.data| && 0 <= n < |sp.data[i].jmesPath| && UnexemptedTwin(sp, i, n) {
      var a := MiscountedAnswers(sp, i, n);
      MiscountedAnswersFail(sp, i, n);
    }
    forall a | Aligned(sp, a) && AllFailed(sp, FetchAll(sp, a)) && SomeSourceFetched(sp, a)
      ensures CanMiscount(sp)
    {
      FetchedFailureMiscounts(sp, a);
    }
  }

  lemma FetchedFailureMiscounts(sp: Spec, a: Answers)
    requires Aligned(sp, a) && AllFailed(sp, FetchAll(sp, a)) && SomeSourceFetched(sp, a)
    ensures CanMiscount(sp)
  {
    var f := FetchAll(sp, a);
    TotalFailureSoundness(sp, a);
    CountingIsExact(sp, f);
    hide FetchAll, Uncovered, Emission, FailedSources, FailedKeyCount, AllFailed;
    var i: nat :| 0 <= i < |sp.data| && a.data[i].Got?;
    FetchedErrors(sp, a, i);
    EmissionNonEmpty(sp.data[i], a.data[i].raw, a.data[i].matches);
    var k :| k in Emission(sp.data[i], a.data[i].raw, a.data[i].matches);
    assert Uncovered(sp.data[i], f);
    var j := FailedTwin(sp, a, i);
    MiscountFrom(sp, f, i, j, k);
  }

  lemma FailedTwin(sp: Spec, a: Answers, i: nat) returns (j: nat)
    requires Aligned(sp, a) && i < |sp.data| && a.data[i].Got? && Uncovered(sp.data[i], FetchAll(sp, a))
    ensures j < |sp.data| && j != i && sp.data[j].key == sp.data[i].key
  {
    ErrorKeys(sp.data, a.data, sp.data[i].key);
    j :| 0 <= j < |sp.data| && a.data[j].Failed? && sp.data[j].key == sp.data[i].key;
  }

  lemma MiscountFrom(sp: Spec, f: Fetched, i: nat, j: nat, k: string)
    requires i < |sp.data| && j < |sp.data| && j != i && sp.data[j].key == sp.data[i].key
    requires forall m | 0 <= m < |sp.data| :: Uncovered(sp.data[m], f)
    requires sp.data[i].key in f.dataSucceeded && k in f.out && k in AliasKeys(sp.data[i])
    ensures CanMiscount(sp)
  {
    var n :| 0 <= n < |sp.data[i].jmesPath| && AliasKey(sp.data[i], sp.data[i].jmesPath[n]) == k;
    forall m | 0 <= m < |sp.data| && sp.data[m].key == sp.data[i].key
      ensures ResolveTargetKey(sp.data[m]) != k
      ensures sp.data[m].jmesPath != [] ==> AliasKeys(sp.data[m]) != {k}
    {
      UncoveredApart(sp.data[m], f, k);
    }
    hide Uncovered, AliasKeys;
    assert UnexemptedTwin(sp, i, n);
  }

  lemma UncoveredApart(d: DataSource, f: Fetched, k: string)
    requires Uncovered(d, f) && d.key in f.dataSucceeded && k in f.out
    ensures ResolveTargetKey(d) != k
    ensures d.jmesPath != [] ==> AliasKeys(d) != {k}
  {
  }

  /** Only entry i is fetched, and only its n-th expression matches. */
  function MiscountedAnswers(sp: Spec, i: nat, n: nat): (a: Answers)
    requires i < |sp.data| && n < |sp.data[i].jmesPath|
    ensures Aligned(sp, a)
  {
    var lost := Failure("unavailable");
    var values := seq(n + 1, m => if m == n then Some("value") else None);
    Answers(seq(|sp.data|, j => if j == i then Got("document", Values(values)) else Failed(lost)),
            seq(|sp.dataProcess|, _ => ExtractFailed(lost)))
  }

  lemma {:induction false} OneMatch(d: DataSource, exprs: seq<JMESPath>, values: seq<Option<string>>, n: nat)
    requires n + 1 == |values| && values[n].Some? && forall m | 0 <= m < n :: values[m].None?
    ensures JsonSecrets(d, exprs, values)
         == if n < |exprs| then map[AliasKey(d, exprs[n]) := values[n].value] else map[]
  {
    if exprs != [] {
      OneMatch(d, exprs[..|exprs| - 1], values, n);
    }
  }

  lemma {:induction false} OneOutput(ds: seq<DataSource>, fs: seq<Fetch>, i: nat)
    requires |fs| == |ds| && forall j | 0 <= j < |ds| :: fs[j].Got? <==> j == i
    ensures Output(ds, fs) == if i < |ds| then Emission(ds[i], fs[i].raw, fs[i].matches) else map[]
  {
    if ds != [] {
      OneOutput(ds[..|ds| - 1], fs[..|ds| - 1], i);
    }
  }

  lemma {:induction false} NoExtractOutput(ps: seq<DataProcess>, fs: seq<ExtractFetch>)
    requires |fs| == |ps| && forall j | 0 <= j < |ps| :: fs[j].ExtractFailed?
    ensures ExtractOutput(ps, fs) == map[] && ExtractSucceeded(ps, fs) == {}
  {
    if ps != [] {
      NoExtractOutput(ps[..|ps| - 1], fs[..|ps| - 1]);
    }
  }

  lemma MiscountedFetch(sp: Spec, i: nat, n: nat)
    requires i < |sp.data| && n < |sp.data[i].jmesPath|
    ensures var f := FetchAll(sp, MiscountedAnswers(sp, i, n));
            f.out.Keys == {AliasKey(sp.data[i], sp.data[i].jmesPath[n])} && f.dataSucceeded == {sp.data[i].key}
    ensures FetchAll(sp, MiscountedAnswers(sp, i, n)).extractSucceeded == {}
  {
    var a := MiscountedAnswers(sp, i, n);
    var d := sp.data[i];
    var k := AliasKey(d, d.jmesPath[n]);
    OneMatch(d, d.jmesPath, a.data[i].matches.values, n);
    var single: Data := map[k := "value"];
    assert k in single;
    assert Emission(d, a.data[i].raw, a.data[i].matches) == single;
    OneOutput(sp.data, a.data, i);
    NoExtractOutput(sp.dataProcess, a.extracts);
    hide Output, ExtractOutput, Emission, JsonSecrets, AliasKey, ExtractSucceeded;
  }

  lemma MiscountedEntry(sp: Spec, i: nat, n: nat, j: nat, f: Fetched)
    requires i < |sp.data| && n < |sp.data[i].jmesPath| && UnexemptedTwin(sp, i, n) && j < |sp.data|
    requires f.out.Keys == {AliasKey(sp.data[i], sp.data[i].jmesPath[n])} && f.dataSucceeded == {sp.data[i].key}
    requires sp.data[j].key in f.dataErrors
    ensures Uncovered(sp.data[j], f)
  {
    assert sp.data[j].jmesPath != [] ==> AliasKey(sp.data[j], sp.data[j].jmesPath[0]) in AliasKeys(sp.data[j]);
  }

  lemma MiscountedAnswersFail(sp: Spec, i: nat, n: nat)
    requires i < |sp.data| && n < |sp.data[i].jmesPath| && UnexemptedTwin(sp, i, n)
    ensures AllFailed(sp, FetchAll(sp, MiscountedAnswers(sp, i, n)))
    ensures SomeSourceFetched(sp, MiscountedAnswers(sp, i, n))
  {
    var a := MiscountedAnswers(sp, i, n);
    var f := FetchAll(sp, a);
    assert a.data[i].Got?;
    MiscountedFetch(sp, i, n);
    CountingIsExact(sp, f);
    hide FetchAll, Uncovered, AliasKey, ResolveTargetKey, FailedSources, FailedKeyCount, ExtractFailing;
    forall j: nat | 0 <= j < |sp.data|
      ensures Uncovered(sp.data[j], f)
    {
      MiscountedError(sp, i, n, j);
      MiscountedEntry(sp, i, n, j, f);
    }
    forall j: nat | 0 <= j < |sp.dataProcess| && sp.dataProcess[j].extract.Some?
      ensures ExtractFailing(sp.dataProcess[j], f)
    {
      MiscountedExtract(sp, i, n, j);
    }
  }

  lemma MiscountedError(sp: Spec, i: nat, n: nat, j: nat)
    requires i < |sp.data| && n < |sp.data[i].jmesPath| && UnexemptedTwin(sp, i, n) && j < |sp.data|
    ensures sp.data[j].key in FetchAll(sp, MiscountedAnswers(sp, i, n)).dataErrors
  {
    var a := MiscountedAnswers(sp, i, n);
    var twin: nat :| 0 <= twin < |sp.data| && twin != i && sp.data[twin].key == sp.data[i].key;
    FetchedErrors(sp, a, if j == i then twin else j);
    hide FetchAll;
  }

  lemma MiscountedExtract(sp: Spec, i: nat, n: nat, j: nat)
    requires i < |sp.data| && n < |sp.data[i].jmesPath| && j < |sp.dataProcess| && sp.dataProcess[j].extract.Some?
    ensures ExtractFailing(sp.dataProcess[j], FetchAll(sp, MiscountedAnswers(sp, i, n)))
  {
    MiscountedFetch(sp, i, n);
    FetchedExtractErrors(sp, MiscountedAnswers(sp, i, n), j);
    hide FetchAll;
  }

  // -------------------------------------------------------------------- merge

  /** The keys failed data entries would have written. */
  function FailedTargets(ds: seq<DataSource>, f: Fetched): set<string> {
    set d, k | d in ds && d.key in f.dataErrors && k in TargetKeys(d) :: k
  }

  lemma FailedTargetsSnoc(ds: seq<DataSource>, d: DataSource, f: Fetched)
    ensures FailedTargets(ds + [d], f) == FailedTargets(ds, f) + (if d.key in f.dataErrors then TargetKeys(d) else {})
  {
    assert d in ds + [d];
    assert forall e | e in ds :: e in ds + [d];
  }

  /** A failed extract entry: its keys cannot be enumerated. */
  predicate RetainAll(ps: seq<DataProcess>, f: Fetched) {
    exists p :: p in ps && p.extract.Some? && p.extract.value.key in f.extractErrors
  }

  method CollectFailedEntryTargetKeys(sp: Spec, f: Fetched) returns (keys: set<string>, retainAll: bool)
    ensures keys == FailedTargets(sp.data, f) && retainAll == RetainAll(sp.dataProcess, f)
  {
    keys, retainAll := {}, false;
    var ds, ps := sp.data, sp.dataProcess;
    for i := 0 to |ds|
      invariant keys == FailedTargets(ds[..i], f)
    {
      assert ds[..i + 1] == ds[..i] + [ds[i]];
      FailedTargetsSnoc(ds[..i], ds[i], f);
      if ds[i].key !in f.dataErrors {
        continue;
      }
      if |ds[i].jmesPath| > 0 {
        keys := keys + AliasKeys(ds[i]) + {ResolveTargetKey(ds[i])};
        continue;
      }
      assert AliasKeys(ds[i]) == {};
      keys := keys + {ResolveTargetKey(ds[i])};
    }
    assert ds[..|ds|] == ds;
    for i := 0 to |ps|
      invariant retainAll == RetainAll(ps[..i], f)
    {
      assert ps[..i + 1] == ps[..i] + [ps[i]];
      if ps[i].extract.None? || ps[i].extract.value.key !in f.extractErrors {
        continue;
      }
      assert ps[i] in ps[..i + 1];
      retainAll := true;
    }
    assert ps[..|ps|] == ps;
  }

  /** The dataset of a partial-failure round: fresh values, and previous values of
      the keys a failed entry could own. */
  function Merge(secretMap: Data, current: Data, targets: set<string>, retainAll: bool): Data {
    map k | k in secretMap.Keys + current.Keys && (k in secretMap || retainAll || k in targets) ::
      if k in secretMap then secretMap[k] else current[k]
  }

  method MergeWithFailedKeys(secretMap: Data, current: Data, targets: set<string>, retainAll: bool)
    returns (merged: Data)
    ensures merged == Merge(secretMap, current, targets, retainAll)
  {
    merged := secretMap;
    var rest := if retainAll then current.Keys else targets;
    while rest != {}
      invariant forall k | k in merged :: k in secretMap || (k in current && (retainAll || k in targets))
      invariant forall k | k in merged :: merged[k] == if k in secretMap then secretMap[k] else current[k]
      invariant forall k | k in secretMap :: k in merged
      invariant forall k | k in current && (retainAll || k in targets) :: k in merged || k in rest
      invariant rest <= if retainAll then current.Keys else targets
      decreases |rest|
    {
      var k :| k in rest;
      if k !in merged && k in current {
        merged := merged[k := current[k]];
      }
      rest := rest - {k};
    }
  }

  /** Merging again over the merged dataset changes nothing. */
  lemma MergeIdempotent(secretMap: Data, current: Data, targets: set<string>, retainAll: bool)
    ensures Merge(secretMap, Merge(secretMap, current, targets, retainAll), targets, retainAll)
         == Merge(secretMap, current, targets, retainAll)
  {
  }
}
