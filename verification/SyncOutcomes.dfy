/** What one sync round leaves behind, read off the declared sources, the backend's
    answers and the rendered template: the published Secret, and what is reported. */
module SyncOutcomes {
  import opened Wrappers
  import opened ExternalSecrets
  import opened SyncFetch
  import opened PartialFailure
  import opened SyncStatus
  import opened SyncRound
  import opened SyncGuarantees
  import opened SyncQuiescence
  import opened LastKnownGood

  // ------------------------------------------------------------------ counting

  predicate AllFetched(sp: Spec, a: Answers)
    requires Aligned(sp, a)
  {
    && (forall n | 0 <= n < |sp.data| :: a.data[n].Got?)
    && (forall n | 0 <= n < |sp.dataProcess| && sp.dataProcess[n].extract.Some? :: a.extracts[n].ExtractGot?)
  }

  predicate HasSources(sp: Spec) {
    sp.data != [] || exists n | 0 <= n < |sp.dataProcess| :: sp.dataProcess[n].extract.Some?
  }

  /** The counters against the answers they summarize. */
  lemma CountsMatchAnswers(sp: Spec, a: Answers)
    requires Aligned(sp, a)
    ensures FailedKeyCount(FetchAll(sp, a)) == 0 <==> AllFetched(sp, a)
    ensures TotalSources(sp) > 0 <==> HasSources(sp)
    ensures AllFetched(sp, a) ==> !AllFailed(sp, FetchAll(sp, a))
    ensures HasSources(sp) && !SomeSourceFetched(sp, a) ==> AllFailed(sp, FetchAll(sp, a))
  {
    var f := FetchAll(sp, a);
    CountingIsExact(sp, f);
    AllFailing(sp.dataProcess, f);
    ErrorsMatchAnswers(sp, a);
    if !SomeSourceFetched(sp, a) {
      forall n: nat | n < |sp.data|
        ensures Uncovered(sp.data[n], f)
      {
        FetchedErrors(sp, a, n);
        NothingSucceeded(sp, a);
      }
      forall n: nat | n < |sp.dataProcess| && sp.dataProcess[n].extract.Some?
        ensures ExtractFailing(sp.dataProcess[n], f)
      {
        FetchedExtractErrors(sp, a, n);
        NothingSucceeded(sp, a);
      }
    }
    hide FetchAll, FailedSources, FailedKeyCount, Uncovered, ExtractFailing, AllFailed;
  }

  lemma ErrorsMatchAnswers(sp: Spec, a: Answers)
    requires Aligned(sp, a)
    ensures FetchAll(sp, a).dataErrors == map[] && FetchAll(sp, a).extractErrors == map[] <==> AllFetched(sp, a)
  {
    if k :| k in FetchAll(sp, a).dataErrors {
      ErrorKeys(sp.data, a.data, k);
    } else if k :| k in FetchAll(sp, a).extractErrors {
      ExtractErrorKeys(sp.dataProcess, a.extracts, k);
    } else {
      forall n: nat | n < |sp.data|
        ensures a.data[n].Got?
      {
        FetchedErrors(sp, a, n);
      }
      forall n: nat | n < |sp.dataProcess| && sp.dataProcess[n].extract.Some?
        ensures a.extracts[n].ExtractGot?
      {
        FetchedExtractErrors(sp, a, n);
      }
    }
  }

  lemma NothingSucceeded(sp: Spec, a: Answers)
    requires Aligned(sp, a) && !SomeSourceFetched(sp, a)
    ensures FetchAll(sp, a).dataSucceeded == {} && FetchAll(sp, a).extractSucceeded == {}
  {
  }

  /** Some fetched source wrote this key. */
  predicate Emitted(sp: Spec, a: Answers, k: string)
    requires Aligned(sp, a)
  {
    || (exists n | 0 <= n < |sp.data| && a.data[n].Got? :: k in Emission(sp.data[n], a.data[n].raw, a.data[n].matches))
    || (exists n | 0 <= n < |sp.dataProcess| && sp.dataProcess[n].extract.Some? && a.extracts[n].ExtractGot? ::
          k in a.extracts[n].data)
  }

  lemma {:induction false} OutputKeys(ds: seq<DataSource>, fs: seq<Fetch>, k: string)
    requires |fs| == |ds|
    ensures k in Output(ds, fs)
       <==> exists n :: 0 <= n < |ds| && fs[n].Got? && k in Emission(ds[n], fs[n].raw, fs[n].matches)
  {
    hide Emission;
    if ds != [] {
      var last := |ds| - 1;
      OutputKeys(ds[..last], fs[..last], k);
      if n :| (&& 0 <= n < last && fs[..last][n].Got?
               && k in Emission(ds[..last][n], fs[..last][n].raw, fs[..last][n].matches)) {
        assert fs[n].Got? && k in Emission(ds[n], fs[n].raw, fs[n].matches);
      }
      forall n | 0 <= n < last && fs[n].Got? && k in Emission(ds[n], fs[n].raw, fs[n].matches)
        ensures k in Output(ds, fs)
      {
        assert fs[..last][n] == fs[n] && ds[..last][n] == ds[n];
      }
    }
  }

  lemma {:induction false} ExtractOutputKeys(ps: seq<DataProcess>, fs: seq<ExtractFetch>, k: string)
    requires |fs| == |ps|
    ensures k in ExtractOutput(ps, fs)
       <==> exists n :: 0 <= n < |ps| && ps[n].extract.Some? && fs[n].ExtractGot? && k in fs[n].data
  {
    if ps != [] {
      var last := |ps| - 1;
      ExtractOutputKeys(ps[..last], fs[..last], k);
      if n :| 0 <= n < last && ps[..last][n].extract.Some? && fs[..last][n].ExtractGot? && k in fs[..last][n].data {
        assert ps[n].extract.Some? && fs[n].ExtractGot? && k in fs[n].data;
      }
      forall n | 0 <= n < last && ps[n].extract.Some? && fs[n].ExtractGot? && k in fs[n].data
        ensures k in ExtractOutput(ps, fs)
      {
        assert fs[..last][n] == fs[n] && ps[..last][n] == ps[n];
      }
    }
  }

  lemma OutputIsEmitted(sp: Spec, a: Answers, k: string)
    requires Aligned(sp, a)
    ensures k in FetchAll(sp, a).out <==> Emitted(sp, a, k)
  {
    OutputKeys(sp.data, a.data, k);
    ExtractOutputKeys(sp.dataProcess, a.extracts, k);
    hide Emission, Output, ExtractOutput;
  }

  predicate Names(sp: Spec, n: int, key: string) {
    0 <= n < |sp.data| && sp.data[n].key == key
  }

  /** An entry counts as failed exactly when some entry naming its document failed, unless
      an entry naming it was fetched as well and either the entry's own key or all of its
      aliases were written by fetched sources. */
  lemma FailureIsCountedExactly(sp: Spec, a: Answers, n: nat)
    requires Aligned(sp, a) && n < |sp.data|
    ensures var d := sp.data[n];
            Uncovered(d, FetchAll(sp, a)) <==>
              && (exists m | Names(sp, m, d.key) :: a.data[m].Failed?)
              && !(&& (exists m | Names(sp, m, d.key) :: a.data[m].Got?)
                   && (|| Emitted(sp, a, if d.name != "" then d.name else d.key)
                       || (d.jmesPath != [] && forall j | 0 <= j < |d.jmesPath| ::
                             Emitted(sp, a, if d.jmesPath[j].alias != "" then d.jmesPath[j].alias else d.key))))
  {
    var d, f := sp.data[n], FetchAll(sp, a);
    ErrorKeys(sp.data, a.data, d.key);
    assert d.key in f.dataErrors <==> exists m | Names(sp, m, d.key) :: a.data[m].Failed? by {
      if m :| Names(sp, m, d.key) && a.data[m].Failed? {
        assert sp.data[m].key == d.key;
      }
      if m :| 0 <= m < |sp.data| && a.data[m].Failed? && sp.data[m].key == d.key {
        assert Names(sp, m, d.key);
      }
    }
    assert d.key in f.dataSucceeded <==> exists m | Names(sp, m, d.key) :: a.data[m].Got? by {
      if m :| Names(sp, m, d.key) && a.data[m].Got? {
        assert sp.data[m].key == d.key;
      }
      if m :| 0 <= m < |sp.data| && a.data[m].Got? && sp.data[m].key == d.key {
        assert Names(sp, m, d.key);
      }
    }
    OutputIsEmitted(sp, a, if d.name != "" then d.name else d.key);
    AliasesEmitted(sp, a, d);
    hide FetchAll, Emitted;
  }

  lemma AliasesEmitted(sp: Spec, a: Answers, d: DataSource)
    requires Aligned(sp, a)
    ensures AliasKeys(d) <= FetchAll(sp, a).out.Keys <==> forall j | 0 <= j < |d.jmesPath| ::
              Emitted(sp, a, if d.jmesPath[j].alias != "" then d.jmesPath[j].alias else d.key)
  {
    forall j | 0 <= j < |d.jmesPath|
      ensures AliasKey(d, d.jmesPath[j]) in FetchAll(sp, a).out
         <==> Emitted(sp, a, if d.jmesPath[j].alias != "" then d.jmesPath[j].alias else d.key)
    {
      OutputIsEmitted(sp, a, AliasKey(d, d.jmesPath[j]));
    }
    hide FetchAll, Emitted;
    assert forall j | 0 <= j < |d.jmesPath| :: d.jmesPath[j] in d.jmesPath;
    if !(AliasKeys(d) <= FetchAll(sp, a).out.Keys) {
      var k :| k in AliasKeys(d) && k !in FetchAll(sp, a).out;
      var j :| 0 <= j < |d.jmesPath| && AliasKey(d, d.jmesPath[j]) == k;
    }
  }

  // ------------------------------------------------------------ aborted rounds

  /** The error kept for some document is the freshness guard's. */
  predicate HitsRebuild(sp: Spec, a: Answers)
    requires Aligned(sp, a)
  {
    || (exists n | 0 <= n < |sp.data| && LastFailure(sp.data, a.data, n) :: a.data[n].error.StaleClient?)
    || (exists n | 0 <= n < |sp.dataProcess| && LastExtractFailure(sp.dataProcess, a.extracts, n) ::
          a.extracts[n].error.StaleClient?)
  }

  /** A round that meets a store in the middle of a rebuild, or whose context is
      cancelled, changes and reports nothing; a resource-level error is reported. */
  lemma AbortedRoundIsSilent(c: Config, sp: Spec, w: World, i: Inputs)
    requires Aligned(sp, i.answers)
    ensures Stale(FetchAll(sp, i.answers)) <==> HitsRebuild(sp, i.answers)
    ensures i.early.None? && (HitsRebuild(sp, i.answers) || i.cancelled) ==> Round(c, sp, w, i) == w
    ensures i.early == Some(Cancelled) ==> Round(c, sp, w, i) == w
    ensures !HitsRebuild(sp, i.answers) && !i.cancelled && i.early.None? && i.read == Some(Cancelled) ==>
              Round(c, sp, w, i) == w
  {
    StaleIsLastError(sp, i.answers);
    hide FetchAll, HitsRebuild, Stale, Templating, Finish, ZeroOutput, Report;
  }

  lemma StaleIsLastError(sp: Spec, a: Answers)
    requires Aligned(sp, a)
    ensures Stale(FetchAll(sp, a)) <==> HitsRebuild(sp, a)
  {
    var f := FetchAll(sp, a);
    if k :| k in f.dataErrors && f.dataErrors[k].StaleClient? {
      var n := LastFailureOf(sp.data, a.data, k);
    } else if k :| k in f.extractErrors && f.extractErrors[k].StaleClient? {
      var n := LastExtractFailureOf(sp.dataProcess, a.extracts, k);
    }
    if n :| 0 <= n < |sp.data| && LastFailure(sp.data, a.data, n) && a.data[n].error.StaleClient? {
      ErrorsExact(sp.data, a.data, n);
    } else if n :| (&& 0 <= n < |sp.dataProcess| && LastExtractFailure(sp.dataProcess, a.extracts, n)
                    && a.extracts[n].error.StaleClient?) {
      ExtractErrorsExact(sp.dataProcess, a.extracts, n);
    }
    hide Errors, ExtractErrors;
  }

  // --------------------------------------------------------------- the reports

  /** A failure is on record under this key with this message. */
  predicate Failing(rs: Results, key: string, reason: Reason) {
    exists r :: r in rs && r.key == key && r.status == StatusFailed && r.reason == reason
  }

  lemma ReportLands(w: World, key: string, reason: Reason, now: nat)
    ensures Failing(Report(w, key, reason, now).results, key, reason)
  {
    var r := DataSyncResult(key, StatusFailed, reason, now);
    var merged := Kept(w.results) + [r];
    assert r in merged;
    InBag(merged, Fingerprint(key, StatusFailed, reason));
    InBag(w.results, Fingerprint(key, StatusFailed, reason));
    hide Bag, Kept;
  }

  /** A failure outside the sources is reported under its key and leaves the Secret. */
  lemma FaultIsReported(c: Config, sp: Spec, w: World, i: Inputs, key: string, reason: string)
    requires Aligned(sp, i.answers)
    requires || i.early == Some(Resource(key, reason))
             || (i.early.None? && !HitsRebuild(sp, i.answers) && !i.cancelled && i.read == Some(Resource(key, reason)))
    ensures Round(c, sp, w, i).secret == w.secret
    ensures Failing(Round(c, sp, w, i).results, key, Text(reason))
  {
    StaleIsLastError(sp, i.answers);
    ReportLands(w, key, Text(reason), i.now);
    hide FetchAll, HitsRebuild, Stale, Templating, Finish, ZeroOutput, Report, Failing;
  }

  /** Sources that were all fetched and yet emitted nothing, or an object that lists no
      source and has no template while its Secret holds data. */
  ghost predicate ProducesNothing(sp: Spec, w: World, i: Inputs)
    requires Aligned(sp, i.answers)
  {
    || (HasSources(sp) && AllFetched(sp, i.answers) && forall k :: !Emitted(sp, i.answers, k))
    || (!HasSources(sp) && !sp.templated && CurrentData(w.secret) != map[])
  }

  lemma NothingProduced(sp: Spec, w: World, i: Inputs)
    requires Aligned(sp, i.answers)
    ensures ZeroOutput(sp, FetchAll(sp, i.answers), |CurrentData(w.secret)|) <==> ProducesNothing(sp, w, i)
    ensures FetchAll(sp, i.answers).out == map[] <==> forall k :: !Emitted(sp, i.answers, k)
  {
    CountsMatchAnswers(sp, i.answers);
    forall k
      ensures k in FetchAll(sp, i.answers).out <==> Emitted(sp, i.answers, k)
    {
      OutputIsEmitted(sp, i.answers, k);
    }
    hide FetchAll, Emitted, AllFetched, HasSources, TotalSources, FailedKeyCount, AllFailed, SomeSourceFetched;
    assert |CurrentData(w.secret)| > 0 <==> CurrentData(w.secret) != map[];
    assert |FetchAll(sp, i.answers).out| == 0 <==> FetchAll(sp, i.answers).out == map[];
    if FetchAll(sp, i.answers).out != map[] {
      var k :| k in FetchAll(sp, i.answers).out;
    }
  }

  /** A round that produces nothing is not taken for an empty dataset: the Secret stays,
      whatever cleanup says, and the guard is on record. */
  lemma ZeroOutputIsReported(c: Config, sp: Spec, w: World, i: Inputs)
    requires Aligned(sp, i.answers) && !Interrupted(sp, i) && ProducesNothing(sp, w, i)
    ensures Round(c, sp, w, i).secret == w.secret
    ensures Failing(Round(c, sp, w, i).results, "zero_output_guard",
                    if HasSources(sp) then
                      Counting("declared data sources produced 0 keys with 0 errors", TotalSources(sp))
                    else Counting("no data source declared but existing Secret holds keys", |CurrentData(w.secret)|))
  {
    var f := FetchAll(sp, i.answers);
    NothingProduced(sp, w, i);
    CountsMatchAnswers(sp, i.answers);
    hide FetchAll, AllFetched, HasSources, TotalSources, AllFailed, SomeSourceFetched, Emitted;
    hide Stale, Templating, Finish, Report, Failing, FailedKeyCount;
    ReportLands(w, "zero_output_guard", ZeroOutputReason(sp, f, |CurrentData(w.secret)|), i.now);
    assert |f.out| == 0 <==> f.out == map[];
  }

  // ------------------------------------------------------ the templated Secret

  function LabelsOf(s: Option<Secret>): Metadata {
    if s.Some? then s.value.labels else map[]
  }

  function AnnotationsOf(s: Option<Secret>): Metadata {
    if s.Some? then s.value.annotations else map[]
  }

  /** Every target is there with its value, the empty value also by absence, and every
      other entry is as it was. */
  ghost predicate Carries(after: Metadata, before: Metadata, targets: Metadata) {
    && (forall k | k in targets :: if k in after then after[k] == targets[k] else targets[k] == "")
    && (forall k | k !in targets :: (k in after <==> k in before) && (k in after ==> after[k] == before[k]))
  }

  /** The Secret write of the round cannot be refused. */
  predicate Accepted(w: World, i: Inputs) {
    i.write.Written? || (i.write.NamespaceTerminating? && w.secret.Some?)
  }

  /** Rendering left no data although there is something to lose. */
  ghost predicate RendersNothing(sp: Spec, w: World, i: Inputs)
    requires Aligned(sp, i.answers)
  {
    && i.template.Rendered? && i.template.data == map[]
    && ((exists k :: Emitted(sp, i.answers, k)) || CurrentData(w.secret) != map[])
  }

  /** A templated round all of whose sources were fetched, whose template rendered, and
      that no guard stops. */
  ghost predicate Renders(sp: Spec, w: World, i: Inputs)
    requires Aligned(sp, i.answers)
  {
    && sp.templated && !Interrupted(sp, i) && AllFetched(sp, i.answers) && i.template.Rendered?
    && !ProducesNothing(sp, w, i) && !RendersNothing(sp, w, i)
  }

  lemma RenderedReaches(c: Config, sp: Spec, w: World, i: Inputs) returns (d: Draft)
    requires Aligned(sp, i.answers) && Renders(sp, w, i)
    ensures Reaches(c, sp, w, i, d)
    ensures d.data == i.template.data && d.processed
    ensures d.labels == i.template.labels && d.annotations == i.template.annotations
    ensures i.template.warnings != "" ==> d.reported
  {
    var f := FetchAll(sp, i.answers);
    NothingProduced(sp, w, i);
    CountsMatchAnswers(sp, i.answers);
    hide FetchAll, AllFetched, HasSources, TotalSources, AllFailed, SomeSourceFetched, Emitted;
    hide Stale, Report, RecordNotice, FailedKeyCount, ProducesNothing, ZeroOutput;
    assert |f.out| == 0 <==> f.out == map[];
    assert |i.template.data| == 0 <==> i.template.data == map[];
    assert |CurrentData(w.secret)| == 0 <==> CurrentData(w.secret) == map[];
    d := Templating(c, sp, w, f, i).draft;
  }

  /** What a write stage that is reached without any failed source does to the Secret. */
  lemma CleanFinish(c: Config, sp: Spec, w: World, i: Inputs, d: Draft)
    requires Aligned(sp, i.answers) && AllFetched(sp, i.answers) && Reaches(c, sp, w, i, d) && Accepted(w, i)
    ensures var s := Round(c, sp, w, i).secret;
            if CurrentData(w.secret) == d.data && MetadataApplied(d.labels, d.annotations, w.secret) then s == w.secret
            else if c.cleanup && d.data == map[] then s == None
            else s == Some(Secret(d.data, LabelsOf(w.secret) + d.labels, AnnotationsOf(w.secret) + d.annotations))
  {
    var f := FetchAll(sp, i.answers);
    CountsMatchAnswers(sp, i.answers);
    RoundIsFinish(c, sp, w, i, d);
    var t := Templating(c, sp, w, f, i).world;
    assert t.secret == w.secret;
    hide Round, FetchAll, AllFetched, HasSources, TotalSources, SomeSourceFetched, Reaches, Finish, AllFailed;
    hide Stale, FailedKeyCount, MetadataApplied, Templating;
    UnfailedFinish(c, sp, t, f, d, i);
  }

  lemma UnfailedFinish(c: Config, sp: Spec, w: World, f: Fetched, d: Draft, i: Inputs)
    requires FailedKeyCount(f) == 0 && !AllFailed(sp, f) && Accepted(w, i)
    ensures var s := Finish(c, sp, w, f, d, i).secret;
            if CurrentData(w.secret) == d.data && MetadataApplied(d.labels, d.annotations, w.secret) then s == w.secret
            else if c.cleanup && d.data == map[] then s == None
            else s == Some(Secret(d.data, LabelsOf(w.secret) + d.labels, AnnotationsOf(w.secret) + d.annotations))
  {
    hide MetadataApplied, UpdateStatus, Report, WriteData, Skips;
    CleanWrite(c, sp, f, d, CurrentData(w.secret));
    assert |d.data| == 0 <==> d.data == map[];
    NothingUnder(d.labels);
    NothingUnder(d.annotations);
  }

  lemma CleanWrite(c: Config, sp: Spec, f: Fetched, d: Draft, current: Data)
    requires FailedKeyCount(f) == 0 && !AllFailed(sp, f)
    ensures WriteData(c, sp, f, d, current) == Some(d.data) && !Skips(c, sp, f, d)
  {
    hide FailedKeyCount, AllFailed;
  }

  lemma OverlayCarries(before: Metadata, targets: Metadata)
    ensures Carries(before + targets, before, targets)
    ensures Carries(before, before, targets) <==> Holds(targets, before)
  {
    assert forall k | k in targets :: Lookup(before, k) == if k in before then before[k] else "";
  }

  /** The Secret of a templated object holds the rendered data and nothing else, whether or
      not there were warnings. Every rendered label and annotation is on it, its other
      metadata is as before. A template of metadata alone leaves no Secret under cleanup,
      unless nothing had to be written. */
  lemma TemplatedRoundPublishes(c: Config, sp: Spec, w: World, i: Inputs)
    requires Aligned(sp, i.answers) && Renders(sp, w, i) && Accepted(w, i)
    ensures CurrentData(Round(c, sp, w, i).secret) == i.template.data
    ensures i.template.data != map[] ==> Round(c, sp, w, i).secret.Some?
    ensures i.template.data != map[] || !c.cleanup ==>
              && Carries(LabelsOf(Round(c, sp, w, i).secret), LabelsOf(w.secret), i.template.labels)
              && Carries(AnnotationsOf(Round(c, sp, w, i).secret), AnnotationsOf(w.secret), i.template.annotations)
    ensures i.template.data == map[] && c.cleanup ==>
              Round(c, sp, w, i).secret
              == if && Carries(LabelsOf(w.secret), LabelsOf(w.secret), i.template.labels)
                    && Carries(AnnotationsOf(w.secret), AnnotationsOf(w.secret), i.template.annotations)
                 then w.secret else None
  {
    var d := RenderedReaches(c, sp, w, i);
    CleanFinish(c, sp, w, i, d);
    OverlayCarries(LabelsOf(w.secret), d.labels);
    OverlayCarries(AnnotationsOf(w.secret), d.annotations);
    assert d.data == map[] ==> CurrentData(w.secret) == map[];
    hide Round, AllFetched, Reaches, Interrupted, Emitted, ProducesNothing, Carries, Holds;
  }

  /** A template that would empty the Secret is not written, and the guard is on record. */
  lemma EmptyRenderingIsReported(c: Config, sp: Spec, w: World, i: Inputs)
    requires Aligned(sp, i.answers) && sp.templated && !Interrupted(sp, i) && AllFetched(sp, i.answers)
    requires !ProducesNothing(sp, w, i) && RendersNothing(sp, w, i)
    ensures Round(c, sp, w, i).secret == w.secret
    ensures Failing(Round(c, sp, w, i).results, "template_zero_output_guard",
                    if exists k :: Emitted(sp, i.answers, k)
                    then Text("template rendering produced 0 data keys while source data was non-empty")
                    else Counting("no data source declared and template rendering produced 0 data keys",
                                  |CurrentData(w.secret)|))
  {
    var f := FetchAll(sp, i.answers);
    NothingProduced(sp, w, i);
    CountsMatchAnswers(sp, i.answers);
    hide FetchAll, AllFetched, HasSources, TotalSources, AllFailed, SomeSourceFetched, Emitted, Templating, Round;
    hide Stale, Failing, FailedKeyCount, ProducesNothing, ZeroOutput, Finish;
    EmptyRenderingEnds(c, sp, w, f, i);
    RoundEnds(c, sp, w, i);
  }

  lemma EmptyRenderingEnds(c: Config, sp: Spec, w: World, f: Fetched, i: Inputs)
    requires sp.templated && i.template.Rendered? && i.template.data == map[] && FailedKeyCount(f) == 0
    requires f.out != map[] || CurrentData(w.secret) != map[]
    ensures Templating(c, sp, w, f, i).Ended?
    ensures Failing(Templating(c, sp, w, f, i).world.results, "template_zero_output_guard",
                    if f.out != map[]
                    then Text("template rendering produced 0 data keys while source data was non-empty")
                    else Counting("no data source declared and template rendering produced 0 data keys",
                                  |CurrentData(w.secret)|))
  {
    hide Report, Failing, RecordNotice, FailedKeyCount;
    assert |f.out| == 0 <==> f.out == map[];
    assert |CurrentData(w.secret)| == 0 <==> CurrentData(w.secret) == map[];
    var n := RecordNotice(c, sp, w, i.now);
    var r := if i.template.warnings != "" then
               Report(n, "template_processing_warnings", Text(i.template.warnings), i.now) else n;
    ReportLands(r, "template_zero_output_guard",
                if |f.out| > 0 then Text(EMPTIED) else Counting(NOTHING, |CurrentData(w.secret)|), i.now);
  }

  lemma RoundEnds(c: Config, sp: Spec, w: World, i: Inputs)
    requires Aligned(sp, i.answers) && !Interrupted(sp, i)
    requires !ZeroOutput(sp, FetchAll(sp, i.answers), |CurrentData(w.secret)|)
    ensures var t := Templating(c, sp, w, FetchAll(sp, i.answers), i);
            Round(c, sp, w, i)
            == if t.Ended? then t.world else Finish(c, sp, t.world, FetchAll(sp, i.answers), t.draft, i)
  {
    hide FetchAll, ZeroOutput, Stale, Templating, Finish, Report;
  }

  /** A template that cannot be rendered ends a round whose sources were all fetched, and
      is reported; with failed sources it is still reported when the round ends. */
  lemma FatalTemplateIsReported(c: Config, sp: Spec, w: World, i: Inputs)
    requires Legal(sp, i) && sp.templated && !Interrupted(sp, i) && i.template.Fatal?
    requires !ProducesNothing(sp, w, i)
    ensures AllFetched(sp, i.answers) ==>
              && Round(c, sp, w, i).secret == w.secret
              && Failing(Round(c, sp, w, i).results, "template_processing_fatal", Text(i.template.reason))
    ensures !AllFetched(sp, i.answers) && i.write.Written? ==>
              Reported(Round(c, sp, w, i).results, "template_processing_errors")
  {
    var f := FetchAll(sp, i.answers);
    NothingProduced(sp, w, i);
    CountsMatchAnswers(sp, i.answers);
    PlaceholdersAreDistinct();
    hide FetchAll, AllFetched, HasSources, TotalSources, AllFailed, SomeSourceFetched, Emitted, OrderOf, Reported;
    hide Stale, Failing, FailedKeyCount, ProducesNothing, ZeroOutput, Finish, PLACEHOLDER_KEYS, Templating, Round;
    FatalTemplating(c, sp, w, f, i);
    RoundEnds(c, sp, w, i);
    if !AllFetched(sp, i.answers) && i.write.Written? {
      var t := Templating(c, sp, w, f, i);
      OwnPlaceholderStaysVisible(c, sp, t.world, f, t.draft, i, "template_processing_errors");
    }
  }

  lemma FatalTemplating(c: Config, sp: Spec, w: World, f: Fetched, i: Inputs)
    requires sp.templated && i.template.Fatal?
    ensures var t := Templating(c, sp, w, f, i);
            if FailedKeyCount(f) == 0 && !AllFailed(sp, f) then
              t.Ended? && Failing(t.world.results, "template_processing_fatal", Text(i.template.reason))
            else t.Continue? && t.draft.reported && Reported(t.world.results, "template_processing_errors")
  {
    var n := RecordNotice(c, sp, w, i.now);
    ReportLands(n, "template_processing_fatal", Text(i.template.reason), i.now);
    ReportIsReported(n, "template_processing_errors", Text(i.template.reason), i.now);
    hide Report, Failing, Reported, RecordNotice, FailedKeyCount, AllFailed;
  }

  lemma PlaceholdersAreDistinct()
    ensures "template_processing_errors" in PLACEHOLDER_KEYS && "template_processing_warnings" in PLACEHOLDER_KEYS
    ensures "zero_output_guard" in PLACEHOLDER_KEYS && "template_zero_output_guard" in PLACEHOLDER_KEYS
    ensures "template_processing_fatal" in PLACEHOLDER_KEYS && "update_operation" in PLACEHOLDER_KEYS
    ensures NOTICE_KEY !in PLACEHOLDER_KEYS && "" !in PLACEHOLDER_KEYS
  {
    NoticeIsNoPlaceholder();
  }

  lemma ReportIsReported(w: World, key: string, reason: Reason, now: nat)
    ensures Reported(Report(w, key, reason, now).results, key)
  {
    ReportLands(w, key, reason, now);
    hide Report;
  }

  /** Template warnings are on record when the round ends, next to the data they left. */
  lemma WarningsAreReported(c: Config, sp: Spec, w: World, i: Inputs)
    requires Legal(sp, i) && Renders(sp, w, i) && i.template.warnings != "" && i.write.Written?
    ensures Reported(Round(c, sp, w, i).results, "template_processing_warnings")
    ensures CurrentData(Round(c, sp, w, i).secret) == i.template.data
  {
    var f := FetchAll(sp, i.answers);
    var d := RenderedReaches(c, sp, w, i);
    TemplatedRoundPublishes(c, sp, w, i);
    RoundIsFinish(c, sp, w, i, d);
    PlaceholdersAreDistinct();
    var n := RecordNotice(c, sp, w, i.now);
    ReportIsReported(n, "template_processing_warnings", Text(i.template.warnings), i.now);
    hide FetchAll, AllFetched, Emitted, OrderOf, Reported, Round, ProducesNothing, RendersNothing, ZeroOutput;
    hide Stale, Report, RecordNotice, Finish, PLACEHOLDER_KEYS, AllFailed, FailedKeyCount;
    var r := Templating(c, sp, w, f, i).world;
    assert r == Report(n, "template_processing_warnings", Text(i.template.warnings), i.now);
    OwnPlaceholderStaysVisible(c, sp, r, f, d, i, "template_processing_warnings");
  }

  // ------------------------------------------------------- the untemplated Secret

  /** Some entry naming a failed document could have written this key, or a whole
      document that could hold any key failed. */
  ghost predicate LostWithDocument(sp: Spec, a: Answers, k: string)
    requires Aligned(sp, a)
  {
    || (exists n, m, raw, ms :: && 0 <= n < |sp.data| && Names(sp, m, sp.data[n].key) && a.data[m].Failed?
                                && k in Emission(sp.data[n], raw, ms))
    || (exists n :: 0 <= n < |sp.dataProcess| && sp.dataProcess[n].extract.Some? && a.extracts[n].ExtractFailed?)
  }

  lemma RetainedAreLost(sp: Spec, a: Answers, k: string)
    requires Aligned(sp, a)
    ensures k in FailedTargets(sp.data, FetchAll(sp, a)) || RetainAll(sp.dataProcess, FetchAll(sp, a))
       <==> LostWithDocument(sp, a, k)
  {
    var f := FetchAll(sp, a);
    if k in FailedTargets(sp.data, f) {
      var d :| d in sp.data && d.key in f.dataErrors && k in TargetKeys(d);
      var n :| 0 <= n < |sp.data| && sp.data[n] == d;
      ErrorKeys(sp.data, a.data, d.key);
      var m :| 0 <= m < |sp.data| && a.data[m].Failed? && sp.data[m].key == d.key;
      TargetKeysAreEmittable(d, k);
      var raw, ms :| k in Emission(d, raw, ms);
      assert Names(sp, m, sp.data[n].key) && k in Emission(sp.data[n], raw, ms);
    } else if RetainAll(sp.dataProcess, f) {
      var p :| p in sp.dataProcess && p.extract.Some? && p.extract.value.key in f.extractErrors;
      ExtractErrorKeys(sp.dataProcess, a.extracts, p.extract.value.key);
      assert exists n :: 0 <= n < |sp.dataProcess| && sp.dataProcess[n].extract.Some? && a.extracts[n].ExtractFailed?;
    }
    if LostWithDocument(sp, a, k) {
      LostAreRetained(sp, a, k);
    }
    hide FailedTargets, RetainAll, FetchAll;
  }

  lemma LostAreRetained(sp: Spec, a: Answers, k: string)
    requires Aligned(sp, a) && LostWithDocument(sp, a, k)
    ensures k in FailedTargets(sp.data, FetchAll(sp, a)) || RetainAll(sp.dataProcess, FetchAll(sp, a))
  {
    if n, m, raw, ms :| (&& 0 <= n < |sp.data| && Names(sp, m, sp.data[n].key) && a.data[m].Failed?
                         && k in Emission(sp.data[n], raw, ms)) {
      ErrorKeys(sp.data, a.data, sp.data[n].key);
      TargetKeysAreEmittable(sp.data[n], k);
      assert sp.data[n] in sp.data;
    } else {
      var n :| 0 <= n < |sp.dataProcess| && sp.dataProcess[n].extract.Some? && a.extracts[n].ExtractFailed?;
      ExtractErrorKeys(sp.dataProcess, a.extracts, sp.dataProcess[n].extract.value.key);
      assert sp.dataProcess[n] in sp.dataProcess;
    }
  }

  /** The Secret of an untemplated object after a round that fetched something: all that
      was emitted, plus the old value of exactly those other keys that were lost with a
      failed document. With nothing failed that is the output alone. */
  lemma RoundPublishesExactly(c: Config, sp: Spec, w: World, i: Inputs)
    requires Aligned(sp, i.answers) && !sp.templated && !Interrupted(sp, i) && Accepted(w, i)
    requires (exists k :: Emitted(sp, i.answers, k)) && !Loses(c, sp, i)
    ensures Round(c, sp, w, i).secret.Some?
    ensures var before := CurrentData(w.secret);
            var after := CurrentData(Round(c, sp, w, i).secret);
            && (forall k :: k in after <==>
                  Emitted(sp, i.answers, k) || (k in before && LostWithDocument(sp, i.answers, k)))
            && (forall k | k in after && k in FetchAll(sp, i.answers).out :: after[k] == FetchAll(sp, i.answers).out[k])
            && (forall k | k in after && !Emitted(sp, i.answers, k) :: k in before && after[k] == before[k])
    ensures forall k :: k in FetchAll(sp, i.answers).out <==> Emitted(sp, i.answers, k)
    ensures LabelsOf(Round(c, sp, w, i).secret) == LabelsOf(w.secret)
    ensures AnnotationsOf(Round(c, sp, w, i).secret) == AnnotationsOf(w.secret)
  {
    var f := FetchAll(sp, i.answers);
    var before := CurrentData(w.secret);
    var data := UntemplatedRound(c, sp, w, i);
    forall k
      ensures k in f.out <==> Emitted(sp, i.answers, k)
      ensures k in FailedTargets(sp.data, f) || RetainAll(sp.dataProcess, f) <==> LostWithDocument(sp, i.answers, k)
    {
      OutputIsEmitted(sp, i.answers, k);
      RetainedAreLost(sp, i.answers, k);
    }
    MergedOrFetched(sp, i, before, data);
    hide Round, FetchAll, Emitted, LostWithDocument, FailedTargets, RetainAll, Loses, Interrupted, Merge, AllFetched;
  }

  lemma UntemplatedRound(c: Config, sp: Spec, w: World, i: Inputs) returns (data: Data)
    requires Aligned(sp, i.answers) && !sp.templated && !Interrupted(sp, i) && Accepted(w, i)
    requires (exists k :: Emitted(sp, i.answers, k)) && !Loses(c, sp, i)
    ensures Round(c, sp, w, i).secret == Some(Secret(data, LabelsOf(w.secret), AnnotationsOf(w.secret)))
    ensures var f := FetchAll(sp, i.answers);
            data == if AllFetched(sp, i.answers) then f.out
                    else Merge(f.out, CurrentData(w.secret), FailedTargets(sp.data, f), RetainAll(sp.dataProcess, f))
  {
    var f := FetchAll(sp, i.answers);
    NothingProduced(sp, w, i);
    NothingEmitted(sp, i.answers);
    assert !ProducesNothing(sp, w, i);
    hide HasSources, Emitted, AllFetched, FetchAll, Interrupted, Loses, ZeroOutput, ProducesNothing;
    assert !ZeroOutput(sp, f, |CurrentData(w.secret)|);
    var d := Draft(f.out, false, map[], map[], Noticed(c, sp, w, i));
    UntemplatedReaches(c, sp, w, i);
    RoundIsFinish(c, sp, w, i, d);
    data := PublishedData(c, sp, w, i, d);
    var s := Templating(c, sp, w, f, i).world;
    assert s.secret == w.secret;
    hide Round, Reaches, Templating, Finish, FailedTargets, RetainAll, WriteData, Skips, Merge;
    FinishPublishes(c, sp, s, f, d, i, data);
  }

  lemma NothingEmitted(sp: Spec, a: Answers)
    requires Aligned(sp, a)
    ensures !HasSources(sp) ==> forall k :: !Emitted(sp, a, k)
  {
  }

  lemma PublishedData(c: Config, sp: Spec, w: World, i: Inputs, d: Draft) returns (data: Data)
    requires Aligned(sp, i.answers) && !Interrupted(sp, i) && !Loses(c, sp, i) && Accepted(w, i)
    requires d.data == FetchAll(sp, i.answers).out != map[] && !d.processed
    ensures WriteData(c, sp, FetchAll(sp, i.answers), d, CurrentData(w.secret)) == Some(data) && data != map[]
    ensures !Skips(c, sp, FetchAll(sp, i.answers), d)
    ensures var f := FetchAll(sp, i.answers);
            data == if AllFetched(sp, i.answers) then f.out
                    else Merge(f.out, CurrentData(w.secret), FailedTargets(sp.data, f), RetainAll(sp.dataProcess, f))
  {
    var f := FetchAll(sp, i.answers);
    CountsMatchAnswers(sp, i.answers);
    hide FetchAll, AllFetched, AllFailed, FailedKeyCount, FailedTargets, RetainAll, TotalSources, Stale;
    hide HasSources, SomeSourceFetched;
    assert |d.data| > 0;
    data := WriteData(c, sp, f, d, CurrentData(w.secret)).value;
    var k :| k in f.out;
    assert k in data;
  }

  lemma MergedOrFetched(sp: Spec, i: Inputs, before: Data, data: Data)
    requires Aligned(sp, i.answers)
    requires var f := FetchAll(sp, i.answers);
             data == if AllFetched(sp, i.answers) then f.out
                     else Merge(f.out, before, FailedTargets(sp.data, f), RetainAll(sp.dataProcess, f))
    ensures var f := FetchAll(sp, i.answers);
            && (forall k :: k in data <==>
                  k in f.out || (k in before && (k in FailedTargets(sp.data, f) || RetainAll(sp.dataProcess, f))))
            && (forall k | k in data :: data[k] == if k in f.out then f.out[k] else before[k])
  {
    var f := FetchAll(sp, i.answers);
    ErrorsMatchAnswers(sp, i.answers);
    hide FetchAll, AllFetched;
    if AllFetched(sp, i.answers) {
      assert FailedTargets(sp.data, f) == {} && !RetainAll(sp.dataProcess, f);
    }
  }

  lemma FinishPublishes(c: Config, sp: Spec, w: World, f: Fetched, d: Draft, i: Inputs, data: Data)
    requires WriteData(c, sp, f, d, CurrentData(w.secret)) == Some(data) && data != map[] && !Skips(c, sp, f, d)
    requires Accepted(w, i) && d.labels == map[] && d.annotations == map[]
    ensures Finish(c, sp, w, f, d, i).secret == Some(Secret(data, LabelsOf(w.secret), AnnotationsOf(w.secret)))
  {
    hide WriteData, Skips, UpdateStatus, Report;
    assert |data| > 0;
    PlusNothing(LabelsOf(w.secret));
    PlusNothing(AnnotationsOf(w.secret));
  }

  lemma PlusNothing(m: Metadata)
    ensures m + map[] == m
  {
  }

  /** With sources declared and none fetched, an accepted write deletes the Secret under
      cleanup and a round leaves it alone otherwise. */
  lemma NothingFetchedRound(c: Config, sp: Spec, w: World, i: Inputs)
    requires Aligned(sp, i.answers) && !Interrupted(sp, i) && HasSources(sp) && !SomeSourceFetched(sp, i.answers)
    requires i.write.Written?
    ensures Round(c, sp, w, i).secret == if c.cleanup then None else w.secret
  {
    CountsMatchAnswers(sp, i.answers);
    if c.cleanup {
      LossDeletes(c, sp, w, i);
    } else {
      TotalFailureWithoutCleanup(c, sp, i);
    }
    hide Round, FetchAll, AllFailed, AllFetched, Interrupted, SomeSourceFetched;
  }

  // ------------------------------------------------------ what a write reports

  /** A clean dataset the API server refuses to store: the old Secret stays and the
      refusal is on record. */
  lemma RefusedWriteIsReported(c: Config, sp: Spec, w: World, i: Inputs, d: Draft)
    requires Aligned(sp, i.answers) && AllFetched(sp, i.answers) && Reaches(c, sp, w, i, d)
    requires d.data != CurrentData(w.secret) && i.write.WriteFailed?
    ensures Round(c, sp, w, i).secret == w.secret
    ensures Failing(Round(c, sp, w, i).results, "update_operation", Text(i.write.reason))
  {
    var f := FetchAll(sp, i.answers);
    CountsMatchAnswers(sp, i.answers);
    RoundIsFinish(c, sp, w, i, d);
    hide Round, FetchAll, AllFetched, HasSources, TotalSources, AllFailed, SomeSourceFetched, Reaches;
    hide Stale, Report, UpdateStatus, FailedKeyCount, MetadataApplied, Templating, Failing;
    var t := Templating(c, sp, w, f, i).world;
    ReportLands(UpdateStatus(c, sp, t, f, !d.reported, false, i), "update_operation", Text(i.write.reason), i.now);
  }

  /** Whenever a round changes the Secret it also writes the status, and every record of
      the round is in it, stamped with the round's time. */
  lemma ChangeRefreshesStatus(c: Config, sp: Spec, w: World, i: Inputs, r: DataSyncResult)
    requires Legal(sp, i) && Round(c, sp, w, i).secret != w.secret
    ensures Round(c, sp, w, i).writes > w.writes
    ensures Build(sp, FetchAll(sp, i.answers), i.order, i.now) != []
    ensures r in Build(sp, FetchAll(sp, i.answers), i.order, i.now) ==>
              r in Round(c, sp, w, i).results && r.time == i.now
  {
    var f := FetchAll(sp, i.answers);
    SecretAfter(c, sp, w, i);
    StatusOnlyGrows(c, sp, w, f, i);
    hide Round, Skips, UpToDate, Commit, Build, OrderOf, Reaches;
    var d :| (&& Reaches(c, sp, w, i, d) && !Skips(c, sp, f, d) && !UpToDate(c, sp, f, d, w.secret)
              && !i.write.WriteFailed? && Round(c, sp, w, i).secret == Commit(c, sp, f, d, w.secret, i.write));
    RoundIsFinish(c, sp, w, i, d);
    var t := Templating(c, sp, w, f, i).world;
    hide FetchAll, Templating;
    BuildIsStamped(sp, i, r);
    ForcedWrite(c, sp, t, f, d, i, r);
  }

  lemma BuildIsStamped(sp: Spec, i: Inputs, r: DataSyncResult)
    requires Legal(sp, i)
    ensures Build(sp, FetchAll(sp, i.answers), i.order, i.now) != []
    ensures r in Build(sp, FetchAll(sp, i.answers), i.order, i.now) ==> r.time == i.now
  {
    if r in Build(sp, FetchAll(sp, i.answers), i.order, i.now) {
      RecordsCarryTheirErrors(sp, i.answers, i.order, i.now, r);
    }
    hide FetchAll, Failures, OrderOf;
  }

  lemma ForcedWrite(c: Config, sp: Spec, w: World, f: Fetched, d: Draft, i: Inputs, r: DataSyncResult)
    requires !Skips(c, sp, f, d) && !UpToDate(c, sp, f, d, w.secret) && !i.write.WriteFailed?
    ensures Finish(c, sp, w, f, d, i).writes > w.writes
    ensures r in Build(sp, f, i.order, i.now) ==> r in Finish(c, sp, w, f, d, i).results
  {
    hide Build, Retained, Bag, Skips, UpToDate, Commit, RetainNotice, NoticeActive;
    var s := UpdateStatus(c, sp, w, f, !d.reported, false, i);
    var built := Build(sp, f, i.order, i.now);
    var kept := if !d.reported then built else built + Retained(built, s.results);
    assert r in built ==> r in kept;
    NoticeKeeps(kept, s.results, r);
  }

  lemma NoticeKeeps(kept: Results, previous: Results, r: DataSyncResult)
    ensures r in kept ==> r in RetainNotice(kept, previous)
  {
  }

  // ---------------------------------------------------------------- the notice

  /** A data entry or an extract block reads from this ClusterSecretStore. */
  predicate ReadsClusterStore(sp: Spec, name: string) {
    || (exists n | 0 <= n < |sp.data| :: ClusterStoreNamed(sp.data[n], name))
    || (exists n | 0 <= n < |sp.dataProcess| && sp.dataProcess[n].extract.Some? ::
          ClusterStoreNamed(sp.dataProcess[n].extract.value, name))
  }

  predicate ClusterStoreNamed(d: DataSource, name: string) {
    d.storeRef.Some? && d.storeRef.value.kind == "ClusterSecretStore" && d.storeRef.value.name == name
  }

  lemma DisabledStoresExact(sp: Spec, name: string)
    ensures name in DisabledReferences(Sources(sp)) <==> ReadsClusterStore(sp, name)
  {
    if name in DisabledReferences(Sources(sp)) {
      var d :| d in Sources(sp) && RefersToClusterStore(d) && d.storeRef.value.name == name;
      SourcesAreEntries(sp, d);
      assert ClusterStoreNamed(d, name);
    }
    if n :| 0 <= n < |sp.data| && ClusterStoreNamed(sp.data[n], name) {
      SourcesAreEntries(sp, sp.data[n]);
      assert RefersToClusterStore(sp.data[n]);
    } else if n :| (&& 0 <= n < |sp.dataProcess| && sp.dataProcess[n].extract.Some?
                    && ClusterStoreNamed(sp.dataProcess[n].extract.value, name)) {
      SourcesAreEntries(sp, sp.dataProcess[n].extract.value);
      assert RefersToClusterStore(sp.dataProcess[n].extract.value);
    }
  }

  /** While the controller of cluster stores is switched off, a calm round over an object
      that reads from one leaves a warning listing exactly the cluster stores it reads
      from, once; no document's failure may use the warning's key. */
  lemma NoticeListsClusterStores(c: Config, sp: Spec, w: World, i: Inputs, store: string) returns (r: DataSyncResult)
    requires Calm(c, sp, w, i) && !NoticeClash(c, sp, FetchAll(sp, i.answers))
    requires !c.processClusterStores && ReadsClusterStore(sp, store)
    ensures r in Round(c, sp, w, i).results && CountKey(Round(c, sp, w, i).results, r.key) == 1
    ensures r.key == "cluster_secret_store_controller_disabled" && r.status == StatusWarning && r.reason.DisabledStores?
    ensures forall name :: name in r.reason.names <==> ReadsClusterStore(sp, name)
  {
    forall name
      ensures name in DisabledReferences(Sources(sp)) <==> ReadsClusterStore(sp, name)
    {
      DisabledStoresExact(sp, name);
    }
    assert NoticeActive(c, sp);
    RoundWithoutClash(c, sp, w, i);
    var rs := Round(c, sp, w, i).results;
    InBag(rs, NoticePrint(sp));
    KeyCountInBag(rs, NOTICE_KEY, NoticePrint(sp));
    hide Round, Calm, NoticeClash, ReadsClusterStore, Bag, FetchAll, CountKey;
    r :| r in rs && FingerprintOf(r) == NoticePrint(sp);
  }

  lemma {:induction false} KeyCountInBag(rs: Results, k: string, p: Fingerprint)
    requires p.key == k && forall q: Fingerprint | q.key == k && q != p :: Bag(rs)[q] == 0
    ensures CountKey(rs, k) == Bag(rs)[p]
  {
    if rs != [] {
      var n := |rs| - 1;
      assert forall q: Fingerprint | q.key == k && q != p :: Bag(rs[..n])[q] <= Bag(rs)[q];
      KeyCountInBag(rs[..n], k, p);
      assert rs[n].key == k ==> Bag(rs)[FingerprintOf(rs[n])] > 0;
    }
  }

  /** With the controller running, or without a cluster store to read from, rounds write no
      notice and keep none. */
  lemma NoNoticeOtherwise(c: Config, sp: Spec, w: World, previous: Results, f: Fetched, i: Inputs, drop: bool)
    requires c.processClusterStores || forall name :: !ReadsClusterStore(sp, name)
    ensures RecordNotice(c, sp, w, i.now) == w
    ensures Proposed(c, sp, previous, f, drop, i)
         == Build(sp, f, i.order, i.now) + (if drop then [] else Retained(Build(sp, f, i.order, i.now), previous))
  {
    if NoticeActive(c, sp) {
      var name :| name in DisabledReferences(Sources(sp));
      DisabledStoresExact(sp, name);
    }
    hide Build, Retained;
  }
}
