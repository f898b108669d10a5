/** What the Secret holds after any sequence of sync rounds with arbitrary failures:
    for each entry, what it emitted in the latest round that was delivered. */
module LastKnownGood {
  import opened Wrappers
  import opened ExternalSecrets
  import opened SyncFetch
  import opened PartialFailure
  import opened SyncRound
  import opened SyncGuarantees
  import opened SyncQuiescence

  /** An untemplated object without extract blocks whose entries name distinct
      documents and cannot write each other's keys. */
  predicate Separate(sp: Spec) {
    && !sp.templated
    && (forall n | 0 <= n < |sp.dataProcess| :: sp.dataProcess[n].extract.None?)
    && (forall m, n | 0 <= m < n < |sp.data| :: sp.data[m].key != sp.data[n].key)
    && SeparateTargets(sp.data)
  }

  predicate SeparateTargets(ds: seq<DataSource>) {
    forall m, n | 0 <= m < |ds| && 0 <= n < |ds| && m != n :: TargetKeys(ds[m]) !! TargetKeys(ds[n])
  }

  function Restrict(data: Data, keys: set<string>): Data {
    map k | k in data && k in keys :: data[k]
  }

  /** The round fetched something and its Secret write cannot be refused. */
  predicate Delivers(sp: Spec, w: World, i: Inputs)
    requires Aligned(sp, i.answers)
  {
    && !Interrupted(sp, i) && SomeSourceFetched(sp, i.answers)
    && (i.write.Written? || (i.write.NamespaceTerminating? && w.secret.Some?))
  }

  // ------------------------------------------------------------------- one round

  lemma RestrictPlus(a: Data, b: Data, keys: set<string>)
    ensures Restrict(a + b, keys) == Restrict(a, keys) + Restrict(b, keys)
  {
  }

  lemma RestrictWhole(a: Data, keys: set<string>)
    ensures a.Keys <= keys ==> Restrict(a, keys) == a
    ensures a.Keys !! keys ==> Restrict(a, keys) == map[]
  {
  }

  lemma {:induction false} OutputByEntry(ds: seq<DataSource>, fs: seq<Fetch>, n: nat)
    requires |fs| == |ds| && n < |ds| && SeparateTargets(ds)
    ensures Restrict(Output(ds, fs), TargetKeys(ds[n]))
         == if fs[n].Got? then Emission(ds[n], fs[n].raw, fs[n].matches) else map[]
  {
    hide Emission, TargetKeys, Restrict, SeparateTargets;
    var last := |ds| - 1;
    var rest := Output(ds[..last], fs[..last]);
    var added := Added(ds[last], fs[last]);
    assert Output(ds, fs) == rest + added;
    hide Output;
    AddedKeys(ds[last], fs[last]);
    RestrictPlus(rest, added, TargetKeys(ds[n]));
    RestrictWhole(added, TargetKeys(ds[n]));
    if n < last {
      PrefixSeparate(ds, n);
      OutputByEntry(ds[..last], fs[..last], n);
    } else {
      OthersApart(ds, fs);
      RestrictWhole(rest, TargetKeys(ds[n]));
    }
  }

  /** What one entry adds to the output. */
  function Added(d: DataSource, f: Fetch): Data {
    if f.Got? then Emission(d, f.raw, f.matches) else map[]
  }

  lemma AddedKeys(d: DataSource, f: Fetch)
    ensures Added(d, f).Keys <= TargetKeys(d)
  {
    if f.Got? {
      EmissionNonEmpty(d, f.raw, f.matches);
    }
  }

  lemma PrefixSeparate(ds: seq<DataSource>, n: nat)
    requires SeparateTargets(ds) && n < |ds| - 1
    ensures SeparateTargets(ds[..|ds| - 1]) && TargetKeys(ds[n]) !! TargetKeys(ds[|ds| - 1])
  {
    hide TargetKeys;
  }

  /** Earlier entries write none of the last entry's keys. */
  lemma OthersApart(ds: seq<DataSource>, fs: seq<Fetch>)
    requires |fs| == |ds| > 0 && SeparateTargets(ds)
    ensures Output(ds[..|ds| - 1], fs[..|ds| - 1]).Keys !! TargetKeys(ds[|ds| - 1])
  {
    var last := |ds| - 1;
    OutputTargets(ds[..last], fs[..last]);
    hide TargetKeys, Output;
    forall k | k in Output(ds[..last], fs[..last])
      ensures k !in TargetKeys(ds[last])
    {
      var m :| 0 <= m < last && k in TargetKeys(ds[..last][m]);
      assert TargetKeys(ds[m]) !! TargetKeys(ds[last]);
    }
  }

  lemma {:induction false} OutputTargets(ds: seq<DataSource>, fs: seq<Fetch>)
    requires |fs| == |ds|
    ensures forall k | k in Output(ds, fs) :: exists m :: 0 <= m < |ds| && k in TargetKeys(ds[m])
  {
    if ds != [] {
      var last := |ds| - 1;
      OutputTargets(ds[..last], fs[..last]);
      forall k | k in Output(ds, fs)
        ensures exists m :: 0 <= m < |ds| && k in TargetKeys(ds[m])
      {
        if k in Output(ds[..last], fs[..last]) {
          var m :| 0 <= m < last && k in TargetKeys(ds[..last][m]);
          assert k in TargetKeys(ds[m]);
        } else {
          EmissionNonEmpty(ds[last], fs[last].raw, fs[last].matches);
          assert k in TargetKeys(ds[last]);
        }
      }
    }
  }

  /** With distinct documents an entry is failed in the error map exactly when its own
      fetch failed. */
  lemma ErrorsAreExact(sp: Spec, a: Answers, n: nat)
    requires Separate(sp) && Aligned(sp, a) && n < |sp.data|
    ensures sp.data[n].key in FetchAll(sp, a).dataErrors <==> a.data[n].Failed?
    ensures sp.data[n].key in FetchAll(sp, a).dataSucceeded <==> a.data[n].Got?
  {
    ErrorKeys(sp.data, a.data, sp.data[n].key);
  }

  lemma PlainOutput(sp: Spec, a: Answers)
    requires Separate(sp) && Aligned(sp, a)
    ensures FetchAll(sp, a).out == Output(sp.data, a.data)
    ensures TotalSources(sp) == |sp.data|
    ensures FetchAll(sp, a).extractErrors == map[] && !RetainAll(sp.dataProcess, FetchAll(sp, a))
  {
    AllExtractsFailed(sp.dataProcess, a.extracts);
    AllFailing(sp.dataProcess, FetchAll(sp, a));
    if k :| k in FetchAll(sp, a).extractErrors {
      ExtractErrorKeys(sp.dataProcess, a.extracts, k);
    }
  }

  lemma EntryIsExact(sp: Spec, a: Answers, n: nat)
    requires Separate(sp) && Aligned(sp, a) && n < |sp.data|
    ensures Uncovered(sp.data[n], FetchAll(sp, a)) <==> a.data[n].Failed?
    ensures a.data[n].Got? ==> FetchAll(sp, a).out != map[]
  {
    ErrorsAreExact(sp, a, n);
    if a.data[n].Got? {
      FetchedErrors(sp, a, n);
      EmissionNonEmpty(sp.data[n], a.data[n].raw, a.data[n].matches);
    }
    hide FetchAll, Emission;
  }

  lemma NoFetchNoOutput(sp: Spec, a: Answers)
    requires Separate(sp) && Aligned(sp, a) && !SomeSourceFetched(sp, a)
    ensures FetchAll(sp, a).out == map[]
  {
    PlainOutput(sp, a);
    OneOutput(sp.data, a.data, |sp.data|);
  }

  lemma NoErrors(sp: Spec, a: Answers)
    requires Separate(sp) && Aligned(sp, a)
    ensures FetchAll(sp, a).dataErrors == map[] <==> forall n | 0 <= n < |a.data| :: a.data[n].Got?
  {
    if k :| k in FetchAll(sp, a).dataErrors {
      ErrorKeys(sp.data, a.data, k);
    }
    if n: nat :| n < |a.data| && a.data[n].Failed? {
      ErrorsAreExact(sp, a, n);
    }
  }

  lemma OnlyDataFetched(sp: Spec, a: Answers)
    requires Separate(sp) && Aligned(sp, a)
    ensures SomeSourceFetched(sp, a) <==> exists n :: 0 <= n < |a.data| && a.data[n].Got?
  {
  }

  /** The counter calls a round total exactly when nothing was fetched. */
  lemma TotalIsExact(sp: Spec, a: Answers)
    requires Separate(sp) && Aligned(sp, a)
    ensures AllFailed(sp, FetchAll(sp, a)) <==> sp.data != [] && !SomeSourceFetched(sp, a)
    ensures SomeSourceFetched(sp, a) <==> FetchAll(sp, a).out != map[]
    ensures FailedKeyCount(FetchAll(sp, a)) == 0 <==> forall n | 0 <= n < |a.data| :: a.data[n].Got?
  {
    hide FetchAll, Uncovered, FailedKeyCount, AllFailed, TotalSources, FailedSources, SeparateTargets;
    CountingIsExact(sp, FetchAll(sp, a));
    PlainOutput(sp, a);
    NoErrors(sp, a);
    OnlyDataFetched(sp, a);
    if !SomeSourceFetched(sp, a) {
      NoFetchNoOutput(sp, a);
    }
    hide SomeSourceFetched;
    forall n: nat | n < |sp.data|
      ensures Uncovered(sp.data[n], FetchAll(sp, a)) <==> a.data[n].Failed?
      ensures a.data[n].Got? ==> FetchAll(sp, a).out != map[]
    {
      EntryIsExact(sp, a, n);
    }
  }

  lemma FetchedTargetsAreKept(sp: Spec, a: Answers, n: nat)
    requires Separate(sp) && Aligned(sp, a) && n < |sp.data|
    ensures a.data[n].Got? ==> TargetKeys(sp.data[n]) !! FailedTargets(sp.data, FetchAll(sp, a))
    ensures a.data[n].Failed? ==> TargetKeys(sp.data[n]) <= FailedTargets(sp.data, FetchAll(sp, a))
  {
    var f := FetchAll(sp, a);
    ErrorsAreExact(sp, a, n);
    assert sp.data[n] in sp.data;
    if a.data[n].Got? {
      forall k | k in FailedTargets(sp.data, f)
        ensures k !in TargetKeys(sp.data[n])
      {
        var d :| d in sp.data && d.key in f.dataErrors && k in TargetKeys(d);
        var m: nat :| m < |sp.data| && sp.data[m] == d;
        ErrorsAreExact(sp, a, m);
        assert TargetKeys(sp.data[m]) !! TargetKeys(sp.data[n]);
      }
    }
    hide FetchAll, TargetKeys;
  }

  lemma RestrictMerge(secretMap: Data, current: Data, targets: set<string>, keys: set<string>)
    ensures keys !! targets ==> Restrict(Merge(secretMap, current, targets, false), keys) == Restrict(secretMap, keys)
    ensures keys <= targets && Restrict(secretMap, keys) == map[] ==>
              Restrict(Merge(secretMap, current, targets, false), keys) == Restrict(current, keys)
  {
    assert forall k | k in secretMap && k in keys :: k in Restrict(secretMap, keys);
  }

  /** The merged dataset, seen through one entry's keys: fresh if the entry was
      fetched, unchanged if it failed. */
  lemma MergeByEntry(sp: Spec, a: Answers, current: Data, n: nat)
    requires Separate(sp) && Aligned(sp, a) && n < |sp.data|
    ensures Restrict(Merge(FetchAll(sp, a).out, current, FailedTargets(sp.data, FetchAll(sp, a)), false),
                     TargetKeys(sp.data[n]))
         == if a.data[n].Got? then Emission(sp.data[n], a.data[n].raw, a.data[n].matches)
            else Restrict(current, TargetKeys(sp.data[n]))
  {
    PlainOutput(sp, a);
    OutputByEntry(sp.data, a.data, n);
    FetchedTargetsAreKept(sp, a, n);
    RestrictMerge(FetchAll(sp, a).out, current, FailedTargets(sp.data, FetchAll(sp, a)), TargetKeys(sp.data[n]));
    hide FetchAll, FailedTargets, Emission, TargetKeys, Separate, Restrict, Merge;
  }

  lemma MergedKeys(sp: Spec, a: Answers, current: Data)
    requires Separate(sp) && Aligned(sp, a)
    ensures var f := FetchAll(sp, a);
            forall k | k in Merge(f.out, current, FailedTargets(sp.data, f), false) ::
              exists m :: 0 <= m < |sp.data| && k in TargetKeys(sp.data[m])
  {
    var f := FetchAll(sp, a);
    PlainOutput(sp, a);
    OutputTargets(sp.data, a.data);
    forall k | k in FailedTargets(sp.data, f)
      ensures exists m :: 0 <= m < |sp.data| && k in TargetKeys(sp.data[m])
    {
      var d :| d in sp.data && d.key in f.dataErrors && k in TargetKeys(d);
      var m :| 0 <= m < |sp.data| && sp.data[m] == d;
    }
    hide FetchAll, FailedTargets, TargetKeys;
  }

  lemma DeliveryReachesWrite(c: Config, sp: Spec, w: World, i: Inputs) returns (d: Draft)
    requires Separate(sp) && Aligned(sp, i.answers) && Delivers(sp, w, i)
    ensures Reaches(c, sp, w, i, d)
    ensures d.data == FetchAll(sp, i.answers).out && !d.processed && d.labels == map[] && d.annotations == map[]
  {
    TotalIsExact(sp, i.answers);
    PlainOutput(sp, i.answers);
    hide FetchAll, Stale, FailedKeyCount, AllFailed, RecordNotice, TotalSources, Reaches;
    d := Draft(FetchAll(sp, i.answers).out, false, map[], map[], Noticed(c, sp, w, i));
    assert sp.data != [];
    UntemplatedReaches(c, sp, w, i);
  }

  /** An untemplated round that is not interrupted or guarded writes what it fetched. */
  lemma UntemplatedReaches(c: Config, sp: Spec, w: World, i: Inputs)
    requires Aligned(sp, i.answers) && !sp.templated && !Interrupted(sp, i)
    requires !ZeroOutput(sp, FetchAll(sp, i.answers), |CurrentData(w.secret)|)
    ensures Reaches(c, sp, w, i, Draft(FetchAll(sp, i.answers).out, false, map[], map[], Noticed(c, sp, w, i)))
  {
    hide FetchAll, Stale, ZeroOutput, RecordNotice;
  }

  lemma WholeMerge(secretMap: Data, current: Data)
    ensures Merge(secretMap, current, {}, false) == secretMap
  {
  }

  lemma DeliveredWrite(c: Config, sp: Spec, w: World, i: Inputs, d: Draft)
    requires Separate(sp) && Aligned(sp, i.answers) && Delivers(sp, w, i)
    requires d.data == FetchAll(sp, i.answers).out && !d.processed
    ensures WriteData(c, sp, FetchAll(sp, i.answers), d, CurrentData(w.secret))
         == Some(Merge(FetchAll(sp, i.answers).out, CurrentData(w.secret),
                       FailedTargets(sp.data, FetchAll(sp, i.answers)), false))
    ensures !Skips(c, sp, FetchAll(sp, i.answers), d)
  {
    var f := FetchAll(sp, i.answers);
    TotalIsExact(sp, i.answers);
    PlainOutput(sp, i.answers);
    if FailedKeyCount(f) == 0 {
      CountingIsExact(sp, f);
      assert FailedTargets(sp.data, f) == {};
      WholeMerge(f.out, CurrentData(w.secret));
    }
    hide FetchAll, AllFailed, FailedKeyCount, FailedTargets, RetainAll, TotalSources, Merge;
  }

  /** A delivered round leaves the merge of what it fetched over what was there. */
  lemma DeliveredData(c: Config, sp: Spec, w: World, i: Inputs)
    requires Separate(sp) && Aligned(sp, i.answers) && Delivers(sp, w, i)
    ensures CurrentData(Round(c, sp, w, i).secret)
         == Merge(FetchAll(sp, i.answers).out, CurrentData(w.secret),
                  FailedTargets(sp.data, FetchAll(sp, i.answers)), false)
  {
    var f := FetchAll(sp, i.answers);
    var d := DeliveryReachesWrite(c, sp, w, i);
    DeliveredWrite(c, sp, w, i, d);
    RoundIsFinish(c, sp, w, i, d);
    TotalIsExact(sp, i.answers);
    var data := Merge(f.out, CurrentData(w.secret), FailedTargets(sp.data, f), false);
    var k :| k in f.out;
    assert k in data;
    hide Round, Reaches, FetchAll, AllFailed, FailedKeyCount;
    hide Templating, Finish, FailedTargets, WriteData, Skips, Merge;
    FinishLands(c, sp, Templating(c, sp, w, f, i).world, f, d, i, data);
  }

  /** An unskipped write of a non-empty dataset that cannot be refused is in effect. */
  lemma FinishLands(c: Config, sp: Spec, w: World, f: Fetched, d: Draft, i: Inputs, data: Data)
    requires WriteData(c, sp, f, d, CurrentData(w.secret)) == Some(data) && data != map[] && !Skips(c, sp, f, d)
    requires i.write.Written? || (i.write.NamespaceTerminating? && w.secret.Some?)
    ensures CurrentData(Finish(c, sp, w, f, d, i).secret) == data
  {
    hide WriteData, Skips, UpdateStatus, Report;
    assert |data| > 0;
  }

  /** Any untemplated round without a failure publishes exactly what it fetched. */
  lemma CleanRoundPublishes(c: Config, sp: Spec, w: World, i: Inputs)
    requires Aligned(sp, i.answers) && !sp.templated && !Interrupted(sp, i)
    requires i.write.Written? || (i.write.NamespaceTerminating? && w.secret.Some?)
    requires FailedKeyCount(FetchAll(sp, i.answers)) == 0 && FetchAll(sp, i.answers).out != map[]
    ensures CurrentData(Round(c, sp, w, i).secret) == FetchAll(sp, i.answers).out
  {
    var f := FetchAll(sp, i.answers);
    CountingIsExact(sp, f);
    if TotalSources(sp) == 0 {
      NoSourcesNoOutput(sp, i.answers);
    }
    hide FetchAll, FailedKeyCount, FailedSources, TotalSources, Stale, Finish, RecordNotice, Round, Reaches, Templating;
    assert |f.out| > 0;
    var d := Draft(f.out, false, map[], map[], Noticed(c, sp, w, i));
    UntemplatedReaches(c, sp, w, i);
    RoundIsFinish(c, sp, w, i, d);
    FinishLands(c, sp, Templating(c, sp, w, f, i).world, f, d, i, f.out);
  }

  /** A round that delivers nothing and loses nothing leaves the Secret alone. */
  lemma UndeliveredRound(c: Config, sp: Spec, w: World, i: Inputs)
    requires Separate(sp) && Aligned(sp, i.answers) && !Delivers(sp, w, i) && !Loses(c, sp, i)
    ensures Round(c, sp, w, i).secret == w.secret
  {
    SecretAfter(c, sp, w, i);
    TotalIsExact(sp, i.answers);
    PlainOutput(sp, i.answers);
    UndeliveredWrite(c, sp, w, i);
    hide Round, Reaches, FetchAll, AllFailed, FailedKeyCount, Skips, UpToDate, Commit;
  }

  /** Either there is nothing to write, or the write has no effect. */
  lemma UndeliveredWrite(c: Config, sp: Spec, w: World, i: Inputs)
    requires Separate(sp) && Aligned(sp, i.answers) && !Delivers(sp, w, i) && !Loses(c, sp, i)
    ensures forall d | Reaches(c, sp, w, i, d) ::
              || Skips(c, sp, FetchAll(sp, i.answers), d) || UpToDate(c, sp, FetchAll(sp, i.answers), d, w.secret)
              || i.write.WriteFailed? || Commit(c, sp, FetchAll(sp, i.answers), d, w.secret, i.write) == w.secret
  {
    var f := FetchAll(sp, i.answers);
    TotalIsExact(sp, i.answers);
    PlainOutput(sp, i.answers);
    CountingIsExact(sp, f);
    forall d | Reaches(c, sp, w, i, d)
      ensures || Skips(c, sp, f, d) || UpToDate(c, sp, f, d, w.secret)
              || i.write.WriteFailed? || Commit(c, sp, f, d, w.secret, i.write) == w.secret
    {
      UntemplatedDraft(c, sp, w, i, d);
      UnprocessedDraft(c, sp, w, i, d);
      PlainDraft(c, sp, w, i, d);
      hide Reaches, FetchAll, AllFailed, FailedKeyCount, FailedTargets, RetainAll, TotalSources, Stale, FailedSources;
    }
  }

  lemma PlainDraft(c: Config, sp: Spec, w: World, i: Inputs, d: Draft)
    requires Separate(sp) && Aligned(sp, i.answers) && Reaches(c, sp, w, i, d)
    ensures d.labels == map[] && d.annotations == map[]
    ensures sp.data == [] ==> CurrentData(w.secret) == map[]
  {
    PlainOutput(sp, i.answers);
    hide FetchAll, Stale, FailedKeyCount, AllFailed, RecordNotice, TotalSources;
    assert CurrentData(w.secret) != map[] ==> |CurrentData(w.secret)| > 0;
  }

  // -------------------------------------------------------------------- all runs

  /** Entry n's share of the Secret: what it emitted in the latest delivered round that
      fetched it, nothing after a later loss, what was there before if there was none. */
  function LastGood(c: Config, sp: Spec, w: World, runs: seq<Inputs>, n: nat): Data
    requires n < |sp.data| && forall r | 0 <= r < |runs| :: Aligned(sp, runs[r].answers)
  {
    if runs == [] then Restrict(CurrentData(w.secret), TargetKeys(sp.data[n]))
    else
      var i := runs[|runs| - 1];
      var before := Rounds(c, sp, w, runs[..|runs| - 1]);
      if Loses(c, sp, i) then map[]
      else if Delivers(sp, before, i) && i.answers.data[n].Got? then
        Emission(sp.data[n], i.answers.data[n].raw, i.answers.data[n].matches)
      else LastGood(c, sp, w, runs[..|runs| - 1], n)
  }

  /** Was the Secret written or deleted by the run, or absent to begin with? */
  predicate Owned(c: Config, sp: Spec, w: World, runs: seq<Inputs>)
    requires forall r | 0 <= r < |runs| :: Aligned(sp, runs[r].answers)
  {
    if runs == [] then w.secret.None?
    else
      var i := runs[|runs| - 1];
      || Loses(c, sp, i)
      || Delivers(sp, Rounds(c, sp, w, runs[..|runs| - 1]), i)
      || Owned(c, sp, w, runs[..|runs| - 1])
  }

  /** After any run, with any failures and any initial Secret, each entry's keys hold
      its last known good output, and once the Secret is owned it holds nothing else. */
  lemma {:induction false} SecretIsLastKnownGood(c: Config, sp: Spec, w: World, runs: seq<Inputs>)
    requires Separate(sp) && forall r | 0 <= r < |runs| :: Aligned(sp, runs[r].answers)
    ensures forall n | 0 <= n < |sp.data| ::
              Restrict(CurrentData(Rounds(c, sp, w, runs).secret), TargetKeys(sp.data[n]))
              == LastGood(c, sp, w, runs, n)
    ensures Owned(c, sp, w, runs) ==>
              forall k | k in CurrentData(Rounds(c, sp, w, runs).secret) ::
                exists n :: 0 <= n < |sp.data| && k in TargetKeys(sp.data[n])
  {
    if runs != [] {
      var i := runs[|runs| - 1];
      var before := Rounds(c, sp, w, runs[..|runs| - 1]);
      SecretIsLastKnownGood(c, sp, w, runs[..|runs| - 1]);
      if Loses(c, sp, i) {
        var _ := TotalFailureReachesWrite(c, sp, before, i);
        LossDeletes(c, sp, before, i);
      } else if Delivers(sp, before, i) {
        DeliveredData(c, sp, before, i);
        MergedKeys(sp, i.answers, CurrentData(before.secret));
        forall n: nat | n < |sp.data|
          ensures Restrict(CurrentData(Rounds(c, sp, w, runs).secret), TargetKeys(sp.data[n]))
               == LastGood(c, sp, w, runs, n)
        {
          MergeByEntry(sp, i.answers, CurrentData(before.secret), n);
        }
      } else {
        UndeliveredRound(c, sp, before, i);
      }
    }
    hide Round, Loses, Delivers, FetchAll, Merge, FailedTargets, TargetKeys, Emission, Separate;
  }

  lemma LossDeletes(c: Config, sp: Spec, w: World, i: Inputs)
    requires Aligned(sp, i.answers) && Loses(c, sp, i)
    ensures Round(c, sp, w, i).secret == None
  {
    var f := FetchAll(sp, i.answers);
    var d := TotalFailureReachesWrite(c, sp, w, i);
    CountingIsExact(sp, f);
    hide Round, FetchAll, Templating, RecordNotice, UpdateStatus, Report, FailedSources, Reaches;
    assert WriteData(c, sp, f, d, CurrentData(w.secret)) == None;
    assert !Skips(c, sp, f, d);
  }
}
