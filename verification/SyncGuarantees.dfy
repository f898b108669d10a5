/** What a sync round can and cannot do to the Secret: it loses data on one verdict
    only, and keys of failed entries stay. */
module SyncGuarantees {
  import opened Wrappers
  import opened ExternalSecrets
  import opened SyncFetch
  import opened PartialFailure
  import opened SyncStatus
  import opened SyncRound

  /** The round ended before counting failures. */
  predicate Interrupted(sp: Spec, i: Inputs)
    requires Aligned(sp, i.answers)
  {
    i.early.Some? || Stale(FetchAll(sp, i.answers)) || i.cancelled || i.read.Some?
  }

  /** Total failure with cleanup on, and the deletion went through. */
  predicate Loses(c: Config, sp: Spec, i: Inputs)
    requires Aligned(sp, i.answers)
  {
    !Interrupted(sp, i) && c.cleanup && AllFailed(sp, FetchAll(sp, i.answers)) && !i.write.WriteFailed?
  }

  /** The draft the write stage of an uninterrupted round works on, if it is reached. */
  predicate Reaches(c: Config, sp: Spec, w: World, i: Inputs, d: Draft)
    requires Aligned(sp, i.answers)
  {
    var f := FetchAll(sp, i.answers);
    && !Interrupted(sp, i)
    && !ZeroOutput(sp, f, |CurrentData(w.secret)|)
    && Templating(c, sp, w, f, i).Continue?
    && Templating(c, sp, w, f, i).draft == d
  }

  /** The Secret changes only through a write stage that neither skips nor fails. */
  lemma SecretAfter(c: Config, sp: Spec, w: World, i: Inputs)
    requires Aligned(sp, i.answers)
    ensures var f := FetchAll(sp, i.answers);
            var s := Round(c, sp, w, i).secret;
            || s == w.secret
            || exists d :: (&& Reaches(c, sp, w, i, d) && !Skips(c, sp, f, d) && !UpToDate(c, sp, f, d, w.secret)
                            && !i.write.WriteFailed? && s == Commit(c, sp, f, d, w.secret, i.write))
  {
    hide Report, UpdateStatus, Commit, Skips, UpToDate, FetchAll, RecordNotice;
    var f := FetchAll(sp, i.answers);
    if !Interrupted(sp, i) && !ZeroOutput(sp, f, |CurrentData(w.secret)|) && Templating(c, sp, w, f, i).Continue? {
      assert Reaches(c, sp, w, i, Templating(c, sp, w, f, i).draft);
    }
  }

  /** The write stage of an uninterrupted round whose entries all failed is reached. */
  lemma TotalFailureReachesWrite(c: Config, sp: Spec, w: World, i: Inputs) returns (d: Draft)
    requires Aligned(sp, i.answers) && !Interrupted(sp, i) && AllFailed(sp, FetchAll(sp, i.answers))
    ensures Reaches(c, sp, w, i, d)
    ensures Round(c, sp, w, i)
         == Finish(c, sp, Templating(c, sp, w, FetchAll(sp, i.answers), i).world, FetchAll(sp, i.answers), d, i)
  {
    var f := FetchAll(sp, i.answers);
    CountingIsExact(sp, f);
    hide Report, Finish, FetchAll, RecordNotice, FailedSources, FailedKeyCount;
    assert FailedKeyCount(f) > 0;
    assert !ZeroOutput(sp, f, |CurrentData(w.secret)|);
    d := Templating(c, sp, w, f, i).draft;
  }

  /** A Secret that holds data is emptied or deleted by a sync round exactly when the
      round counted every source as failed with cleanup on, and then it is deleted:
      for every mix of sources, errors, template outcomes and faults. */
  lemma DataLostOnlyByTotalFailure(c: Config, sp: Spec, w: World, i: Inputs)
    requires Aligned(sp, i.answers) && CurrentData(w.secret) != map[]
    ensures CurrentData(Round(c, sp, w, i).secret) == map[] <==> Loses(c, sp, i)
    ensures Loses(c, sp, i) ==> Round(c, sp, w, i).secret == None
  {
    var f := FetchAll(sp, i.answers);
    var s := Round(c, sp, w, i).secret;
    if Loses(c, sp, i) {
      var d := TotalFailureReachesWrite(c, sp, w, i);
      CountingIsExact(sp, f);
      hide FetchAll, Templating, RecordNotice, UpdateStatus, Report, FailedSources;
      assert WriteData(c, sp, f, d, CurrentData(w.secret)) == None;
      assert !Skips(c, sp, f, d);
      assert Commit(c, sp, f, d, w.secret, i.write) == None;
    } else {
      SecretAfter(c, sp, w, i);
      hide Round;
      if s != w.secret {
        var d :| (&& Reaches(c, sp, w, i, d) && !Skips(c, sp, f, d) && !UpToDate(c, sp, f, d, w.secret)
                  && !i.write.WriteFailed? && s == Commit(c, sp, f, d, w.secret, i.write));
        WritesKeepData(c, sp, w, i, d);
        DraftIsNonEmpty(c, sp, w, i, d);
      }
    }
  }

  /** Without a total failure under cleanup, what is written has the draft's keys. */
  lemma WritesKeepData(c: Config, sp: Spec, w: World, i: Inputs, d: Draft)
    requires Aligned(sp, i.answers)
    requires !(AllFailed(sp, FetchAll(sp, i.answers)) && c.cleanup)
    ensures d.data != map[] ==>
              d.data.Keys <= CurrentData(Commit(c, sp, FetchAll(sp, i.answers), d, w.secret, i.write)).Keys
              || (i.write.NamespaceTerminating? && w.secret.None?)
  {
    hide FetchAll, AllFailed, FailedKeyCount;
    if d.data != map[] {
      var k :| k in d.data;
      var m := WriteData(c, sp, FetchAll(sp, i.answers), d, CurrentData(w.secret)).value;
      assert k in m;
    }
  }

  /** A draft that is about to replace data holds data: the zero-output guards and the
      skip rule leave nothing else. */
  lemma DraftIsNonEmpty(c: Config, sp: Spec, w: World, i: Inputs, d: Draft)
    requires Aligned(sp, i.answers) && CurrentData(w.secret) != map[]
    requires Reaches(c, sp, w, i, d) && !Skips(c, sp, FetchAll(sp, i.answers), d)
    requires !(AllFailed(sp, FetchAll(sp, i.answers)) && c.cleanup)
    ensures d.data != map[]
  {
    CountingIsExact(sp, FetchAll(sp, i.answers));
    hide FailedSources, Covered, FetchAll, AllFailed, FailedKeyCount, RecordNotice, Report, Stale, TotalSources;
    assert |CurrentData(w.secret)| > 0;
  }

  // ------------------------------------------- deletion on a partial failure

  /** Any finite set of keys can be read in some order. */
  lemma {:induction false} SomeOrder(keys: set<string>) returns (order: seq<string>)
    ensures Enumerates(order, keys)
    decreases |keys|
  {
    if keys == {} {
      order := [];
    } else {
      var k :| k in keys;
      var rest := SomeOrder(keys - {k});
      order := rest + [k];
      assert keys == (keys - {k}) + {k};
      assert k !in rest;
    }
  }

  lemma {:induction false} ErrorsComeFromFetches(ds: seq<DataSource>, fs: seq<Fetch>, e: Error)
    requires |fs| == |ds| && forall n | 0 <= n < |fs| && fs[n].Failed? :: fs[n].error == e
    ensures forall k | k in Errors(ds, fs) :: Errors(ds, fs)[k] == e
  {
    if ds != [] {
      ErrorsComeFromFetches(ds[..|ds| - 1], fs[..|ds| - 1], e);
    }
  }

  lemma {:induction false} ExtractErrorsComeFromFetches(ps: seq<DataProcess>, fs: seq<ExtractFetch>, e: Error)
    requires |fs| == |ps| && forall n | 0 <= n < |fs| && fs[n].ExtractFailed? :: fs[n].error == e
    ensures forall k | k in ExtractErrors(ps, fs) :: ExtractErrors(ps, fs)[k] == e
  {
    if ps != [] {
      ExtractErrorsComeFromFetches(ps[..|ps| - 1], fs[..|ps| - 1], e);
    }
  }

  lemma MiscountIsNotStale(sp: Spec, n: nat, m: nat)
    requires n < |sp.data| && m < |sp.data[n].jmesPath|
    ensures !Stale(FetchAll(sp, MiscountedAnswers(sp, n, m)))
  {
    var a := MiscountedAnswers(sp, n, m);
    ErrorsComeFromFetches(sp.data, a.data, Failure("unavailable"));
    ExtractErrorsComeFromFetches(sp.dataProcess, a.extracts, Failure("unavailable"));
    hide Errors, ExtractErrors, Output, ExtractOutput;
  }

  /** A round in which some source was fetched and which still loses the Secret's data. */
  ghost predicate DeletesOnPartialFailure(c: Config, sp: Spec, w: World, i: Inputs) {
    Legal(sp, i) && SomeSourceFetched(sp, i.answers) && CurrentData(Round(c, sp, w, i).secret) == map[]
  }

  /** A partial failure can delete a Secret that holds data exactly when cleanup is on
      and some jmesPath entry of the spec shares its document with another entry and
      could match one alias that covers neither. */
  lemma PartialFailureDeletes(c: Config, sp: Spec, w: World)
    requires CurrentData(w.secret) != map[]
    ensures (exists i :: DeletesOnPartialFailure(c, sp, w, i)) <==> c.cleanup && CanMiscount(sp)
  {
    if c.cleanup && CanMiscount(sp) {
      var i := DeletingRound(c, sp, w);
      assert DeletesOnPartialFailure(c, sp, w, i);
    }
    forall i | DeletesOnPartialFailure(c, sp, w, i)
      ensures c.cleanup && CanMiscount(sp)
    {
      DataLostOnlyByTotalFailure(c, sp, w, i);
      FetchedFailureMiscounts(sp, i.answers);
    }
  }

  lemma DeletingRound(c: Config, sp: Spec, w: World) returns (i: Inputs)
    requires CurrentData(w.secret) != map[] && c.cleanup && CanMiscount(sp)
    ensures DeletesOnPartialFailure(c, sp, w, i)
  {
    var n: nat, m: nat :| n < |sp.data| && m < |sp.data[n].jmesPath| && UnexemptedTwin(sp, n, m);
    var a := MiscountedAnswers(sp, n, m);
    MiscountedAnswersFail(sp, n, m);
    MiscountIsNotStale(sp, n, m);
    var f := FetchAll(sp, a);
    var data := SomeOrder(f.dataErrors.Keys);
    var extracts := SomeOrder(f.extractErrors.Keys);
    i := Inputs(None, a, false, None, Fatal(""), Written, Order(data, extracts), 0);
    hide FetchAll, Round, MiscountedAnswers, SomeSourceFetched, Stale, AllFailed, UnexemptedTwin;
    assert Loses(c, sp, i);
    DataLostOnlyByTotalFailure(c, sp, w, i);
  }

  /** The smallest such object: two entries naming one document, each asking for two
      values of it. */
  lemma PartialFailureDeletesHere(w: World)
    requires CurrentData(w.secret) != map[]
    ensures var d := DataSource(None, "doc", "", [JMESPath("a", "x"), JMESPath("b", "y")], "");
      exists i :: DeletesOnPartialFailure(Config(true, true), Spec([d, d], [], false), w, i)
  {
    var d := DataSource(None, "doc", "", [JMESPath("a", "x"), JMESPath("b", "y")], "");
    var sp := Spec([d, d], [], false);
    assert d.jmesPath[1] in d.jmesPath && AliasKey(d, d.jmesPath[1]) in AliasKeys(d);
    assert AliasKey(d, d.jmesPath[1]) == "y" && "y" !in {"x"};
    assert sp.data[1].key == sp.data[0].key;
    assert UnexemptedTwin(sp, 0, 0);
    assert CanMiscount(sp);
    hide CanMiscount, CurrentData;
    PartialFailureDeletes(Config(true, true), sp, w);
  }

  // ---------------------------------------------------------------- retention

  /** Some failed entry could have produced k, had its fetch succeeded. */
  ghost predicate FailedEntryOwns(sp: Spec, a: Answers, k: string)
    requires Aligned(sp, a)
  {
    || (exists n, raw, ms :: 0 <= n < |sp.data| && a.data[n].Failed? && k in Emission(sp.data[n], raw, ms))
    || (exists n :: 0 <= n < |sp.dataProcess| && sp.dataProcess[n].extract.Some? && a.extracts[n].ExtractFailed?)
  }

  lemma OwnedKeysAreTargets(sp: Spec, a: Answers, k: string)
    requires Aligned(sp, a) && FailedEntryOwns(sp, a, k)
    ensures k in FailedTargets(sp.data, FetchAll(sp, a)) || RetainAll(sp.dataProcess, FetchAll(sp, a))
    ensures FailedKeyCount(FetchAll(sp, a)) > 0
  {
    var f := FetchAll(sp, a);
    var keys := f.dataErrors.Keys + f.extractErrors.Keys;
    if n, raw, ms :| 0 <= n < |sp.data| && a.data[n].Failed? && k in Emission(sp.data[n], raw, ms) {
      ErrorKeys(sp.data, a.data, sp.data[n].key);
      TargetKeysAreEmittable(sp.data[n], k);
      assert sp.data[n] in sp.data;
      assert sp.data[n].key in keys;
    } else {
      var n :| 0 <= n < |sp.dataProcess| && sp.dataProcess[n].extract.Some? && a.extracts[n].ExtractFailed?;
      ExtractErrorKeys(sp.dataProcess, a.extracts, sp.dataProcess[n].extract.value.key);
      assert sp.dataProcess[n] in sp.dataProcess;
      assert sp.dataProcess[n].extract.value.key in keys;
    }
  }

  /** In any round, templated or not, a key of the Secret that a failed entry could
      have produced survives, with its old value unless another entry fetched it
      afresh; the one exception is a total failure with cleanup on. */
  lemma FailedKeysAreRetained(c: Config, sp: Spec, w: World, i: Inputs, k: string)
    requires Aligned(sp, i.answers) && k in CurrentData(w.secret) && FailedEntryOwns(sp, i.answers, k)
    ensures !Loses(c, sp, i) ==>
              && k in CurrentData(Round(c, sp, w, i).secret)
              && CurrentData(Round(c, sp, w, i).secret)[k]
                 in {CurrentData(w.secret)[k]}
                    + (if k in FetchAll(sp, i.answers).out then {FetchAll(sp, i.answers).out[k]} else {})
    ensures Loses(c, sp, i) ==> Round(c, sp, w, i).secret == None
  {
    var f := FetchAll(sp, i.answers);
    var s := Round(c, sp, w, i).secret;
    DataLostOnlyByTotalFailure(c, sp, w, i);
    OwnedKeysAreTargets(sp, i.answers, k);
    SecretAfter(c, sp, w, i);
    hide Round, FetchAll, FailedKeyCount, AllFailed, FailedTargets, RetainAll, Templating, Stale, ZeroOutput;
    if !Loses(c, sp, i) && s != w.secret {
      var d :| (&& Reaches(c, sp, w, i, d) && !Skips(c, sp, f, d) && !UpToDate(c, sp, f, d, w.secret)
                && !i.write.WriteFailed? && s == Commit(c, sp, f, d, w.secret, i.write));
      UnprocessedDraft(c, sp, w, i, d);
      assert w.secret.Some?;
    }
  }

  lemma UnprocessedDraft(c: Config, sp: Spec, w: World, i: Inputs, d: Draft)
    requires Aligned(sp, i.answers) && Reaches(c, sp, w, i, d)
    ensures !d.processed ==> d.data == FetchAll(sp, i.answers).out
  {
    hide FetchAll, AllFailed, FailedKeyCount, RecordNotice, Report, Stale, TotalSources;
  }

  /** Whatever an untemplated round adds to the Secret or changes in it was fetched in
      that round. */
  lemma NewValuesWereFetched(c: Config, sp: Spec, w: World, i: Inputs, k: string)
    requires Aligned(sp, i.answers) && !sp.templated && k in CurrentData(Round(c, sp, w, i).secret)
    requires k !in CurrentData(w.secret) || CurrentData(w.secret)[k] != CurrentData(Round(c, sp, w, i).secret)[k]
    ensures k in FetchAll(sp, i.answers).out
    ensures CurrentData(Round(c, sp, w, i).secret)[k] == FetchAll(sp, i.answers).out[k]
  {
    var f := FetchAll(sp, i.answers);
    var s := Round(c, sp, w, i).secret;
    SecretAfter(c, sp, w, i);
    hide Round, FetchAll, FailedKeyCount, AllFailed, FailedTargets, RetainAll;
    hide Templating, Stale, ZeroOutput, Skips, UpToDate;
    assert s != w.secret;
    var d :| (&& Reaches(c, sp, w, i, d) && !Skips(c, sp, f, d) && !UpToDate(c, sp, f, d, w.secret)
              && !i.write.WriteFailed? && s == Commit(c, sp, f, d, w.secret, i.write));
    UntemplatedDraft(c, sp, w, i, d);
    UnprocessedDraft(c, sp, w, i, d);
  }

  /** A templated object with any failed source is left alone entirely, unless it is
      a total failure with cleanup on: even static template content is withheld. */
  lemma TemplatesFailClosed(c: Config, sp: Spec, w: World, i: Inputs)
    requires Aligned(sp, i.answers) && sp.templated && FailedKeyCount(FetchAll(sp, i.answers)) > 0
    ensures Round(c, sp, w, i).secret == w.secret || (Loses(c, sp, i) && Round(c, sp, w, i).secret == None)
  {
    var f := FetchAll(sp, i.answers);
    SecretAfter(c, sp, w, i);
    hide Round, FetchAll, FailedKeyCount, AllFailed, RecordNotice, Report, Stale, ZeroOutput;
    var s := Round(c, sp, w, i).secret;
    if s != w.secret {
      var d :| (&& Reaches(c, sp, w, i, d) && !Skips(c, sp, f, d) && !UpToDate(c, sp, f, d, w.secret)
                && !i.write.WriteFailed? && s == Commit(c, sp, f, d, w.secret, i.write));
      assert d.processed;
    }
  }

  lemma NothingFetchedIsEmpty(sp: Spec, a: Answers)
    requires Aligned(sp, a) && AllFailed(sp, FetchAll(sp, a))
    ensures FetchAll(sp, a).out == map[] <==> !SomeSourceFetched(sp, a)
  {
    TotalFailureSoundness(sp, a);
    if n: nat :| n < |sp.data| && a.data[n].Got? {
      FetchedErrors(sp, a, n);
      EmissionNonEmpty(sp.data[n], a.data[n].raw, a.data[n].matches);
      var k :| k in Emission(sp.data[n], a.data[n].raw, a.data[n].matches);
      assert k in FetchAll(sp, a).out;
    } else {
      OneOutput(sp.data, a.data, |sp.data|);
      AllExtractsFailed(sp.dataProcess, a.extracts);
    }
  }

  lemma {:induction false} AllExtractsFailed(ps: seq<DataProcess>, fs: seq<ExtractFetch>)
    requires |fs| == |ps| && forall n | 0 <= n < |ps| && ps[n].extract.Some? :: fs[n].ExtractFailed?
    ensures ExtractOutput(ps, fs) == map[]
  {
    if ps != [] {
      AllExtractsFailed(ps[..|ps| - 1], fs[..|ps| - 1]);
    }
  }

  /** The documentation promises that a total failure with cleanup off skips the write.
      An untemplated round counted as total but with jmesPath output merges that output
      in instead: the promise is kept whatever the Secret holds exactly when the object
      is templated or nothing was fetched. */
  lemma TotalFailureWithoutCleanup(c: Config, sp: Spec, i: Inputs)
    requires Aligned(sp, i.answers) && !c.cleanup && AllFailed(sp, FetchAll(sp, i.answers))
    requires !Interrupted(sp, i) && i.write.Written?
    ensures (forall w :: Round(c, sp, w, i).secret == w.secret) <==> sp.templated || !SomeSourceFetched(sp, i.answers)
  {
    var f := FetchAll(sp, i.answers);
    CountingIsExact(sp, f);
    NothingFetchedIsEmpty(sp, i.answers);
    if sp.templated {
      forall w
        ensures Round(c, sp, w, i).secret == w.secret
      {
        TemplatesFailClosed(c, sp, w, i);
      }
    } else {
      forall w
        ensures f.out == map[] ==> Round(c, sp, w, i).secret == w.secret
        ensures f.out != map[] && w.secret.None? ==> Round(c, sp, w, i).secret != w.secret
      {
        var d := TotalFailureReachesWrite(c, sp, w, i);
        UnprocessedDraft(c, sp, w, i, d);
        UntemplatedDraft(c, sp, w, i, d);
        UnprocessedRound(c, sp, w, i, d);
      }
      var w := World(None, [], 0);
      assert w.secret.None?;
    }
  }

  lemma UntemplatedDraft(c: Config, sp: Spec, w: World, i: Inputs, d: Draft)
    requires Aligned(sp, i.answers) && Reaches(c, sp, w, i, d) && !sp.templated
    ensures !d.processed
  {
    hide FetchAll, AllFailed, FailedKeyCount, RecordNotice, Report, Stale, TotalSources;
  }

  lemma UnprocessedRound(c: Config, sp: Spec, w: World, i: Inputs, d: Draft)
    requires Aligned(sp, i.answers) && Reaches(c, sp, w, i, d) && !d.processed && !c.cleanup && i.write.Written?
    requires d.data == FetchAll(sp, i.answers).out && FailedKeyCount(FetchAll(sp, i.answers)) > 0
    ensures d.data == map[] ==> Round(c, sp, w, i).secret == w.secret
    ensures d.data != map[] && w.secret.None? ==> Round(c, sp, w, i).secret.Some?
  {
    var f := FetchAll(sp, i.answers);
    RoundIsFinish(c, sp, w, i, d);
    hide Round, Reaches, FetchAll, AllFailed, FailedKeyCount, Templating, UpdateStatus, Report;
    if d.data != map[] {
      WritesKeepData(c, sp, w, i, d);
    }
  }

  lemma RoundIsFinish(c: Config, sp: Spec, w: World, i: Inputs, d: Draft)
    requires Aligned(sp, i.answers) && Reaches(c, sp, w, i, d)
    ensures Round(c, sp, w, i)
         == Finish(c, sp, Templating(c, sp, w, FetchAll(sp, i.answers), i).world, FetchAll(sp, i.answers), d, i)
  {
    hide FetchAll, Templating, Finish, Report, Stale, ZeroOutput;
  }
}
