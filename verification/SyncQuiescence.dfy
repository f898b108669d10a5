/** Repeating a sync round: when the status and the Secret stop changing. */
module SyncQuiescence {
  import opened Wrappers
  import opened ExternalSecrets
  import opened SyncFetch
  import opened PartialFailure
  import opened SyncStatus
  import opened SyncRound
  import opened SyncGuarantees

  /** A round without faults that writes no placeholder. */
  ghost predicate Calm(c: Config, sp: Spec, w: World, i: Inputs) {
    && Legal(sp, i)
    && !Interrupted(sp, i)
    && i.write.Written?
    && !ZeroOutput(sp, FetchAll(sp, i.answers), |CurrentData(w.secret)|)
    && (sp.templated ==>
          && i.template.Rendered? && i.template.warnings == ""
          && !TemplateRenderedZeroOutput(FailedKeyCount(FetchAll(sp, i.answers)), |i.template.data|,
                                         |FetchAll(sp, i.answers).out|, |CurrentData(w.secret)|))
  }

  /** The round cannot ask for the Secret's deletion. */
  ghost predicate NonDeleting(c: Config, sp: Spec, i: Inputs)
    requires Aligned(sp, i.answers)
  {
    c.cleanup ==>
      && !AllFailed(sp, FetchAll(sp, i.answers))
      && (sp.templated && TotalSources(sp) == 0 && i.template.Rendered? ==> i.template.data != map[])
  }

  /** The same round again: only the clock and the map iteration order differ. */
  ghost predicate Repeats(sp: Spec, i: Inputs, j: Inputs) {
    Legal(sp, j) && j == i.(order := j.order, now := j.now)
  }

  /** A reported failure whose document key is the notice's own key. */
  ghost predicate NoticeClash(c: Config, sp: Spec, f: Fetched) {
    NoticeActive(c, sp) && (DataFailure(sp.data, f, NOTICE_KEY) || ExtractFailure(f, NOTICE_KEY))
  }

  // ------------------------------------------------------------- shape of a round

  function CalmDraft(sp: Spec, f: Fetched, i: Inputs, reported: bool): Draft {
    if sp.templated && i.template.Rendered? then
      Draft(i.template.data, true, i.template.labels, i.template.annotations, reported)
    else Draft(f.out, false, map[], map[], reported)
  }

  function Noticed(c: Config, sp: Spec, w: World, i: Inputs): bool {
    RecordNotice(c, sp, w, i.now).writes != w.writes
  }

  lemma CalmRound(c: Config, sp: Spec, w: World, i: Inputs)
    requires Calm(c, sp, w, i)
    ensures var f := FetchAll(sp, i.answers);
            Round(c, sp, w, i)
            == Finish(c, sp, RecordNotice(c, sp, w, i.now), f, CalmDraft(sp, f, i, Noticed(c, sp, w, i)), i)
  {
    hide FetchAll, Finish, RecordNotice, Report, Stale, ZeroOutput, FailedKeyCount, AllFailed, OrderOf;
  }

  // ------------------------------------------------------------------ the Secret

  lemma NoSourcesNoOutput(sp: Spec, a: Answers)
    requires Aligned(sp, a) && TotalSources(sp) == 0
    ensures FetchAll(sp, a).out == map[]
  {
    AllFailing(sp.dataProcess, FetchAll(sp, a));
    AllExtractsFailed(sp.dataProcess, a.extracts);
  }

  /** An uncommitted empty draft belongs to a spec without sources and a Secret
      without data. */
  lemma EmptyDraft(c: Config, sp: Spec, w: World, i: Inputs, d: Draft)
    requires Calm(c, sp, w, i) && d == CalmDraft(sp, FetchAll(sp, i.answers), i, d.reported) && d.data == map[]
    requires !Skips(c, sp, FetchAll(sp, i.answers), d) && !(c.cleanup && AllFailed(sp, FetchAll(sp, i.answers)))
    ensures TotalSources(sp) == 0 && CurrentData(w.secret) == map[]
    ensures FetchAll(sp, i.answers).out == map[] && FailedKeyCount(FetchAll(sp, i.answers)) == 0
  {
    hide FetchAll, AllFailed, FailedKeyCount, TotalSources, Stale, OrderOf;
    assert |CurrentData(w.secret)| == 0;
    assert |FetchAll(sp, i.answers).out| == 0;
  }

  /** What a calm, non-deleting write leaves is what the next round would write. */
  lemma CommitSettles(c: Config, sp: Spec, w: World, i: Inputs, d: Draft)
    requires Calm(c, sp, w, i) && NonDeleting(c, sp, i) && d == CalmDraft(sp, FetchAll(sp, i.answers), i, d.reported)
    requires !Skips(c, sp, FetchAll(sp, i.answers), d) && !UpToDate(c, sp, FetchAll(sp, i.answers), d, w.secret)
    ensures UpToDate(c, sp, FetchAll(sp, i.answers), d, Commit(c, sp, FetchAll(sp, i.answers), d, w.secret, i.write))
    ensures d.data == map[] ==> CurrentData(Commit(c, sp, FetchAll(sp, i.answers), d, w.secret, i.write)) == map[]
    ensures d.data != map[] ==> CurrentData(Commit(c, sp, FetchAll(sp, i.answers), d, w.secret, i.write)) != map[]
  {
    var f := FetchAll(sp, i.answers);
    var data := WriteData(c, sp, f, d, CurrentData(w.secret));
    assert data.Some?;
    MergeIdempotent(d.data, CurrentData(w.secret), FailedTargets(sp.data, f), RetainAll(sp.dataProcess, f));
    if d.data == map[] {
      EmptyDraft(c, sp, w, i, d);
      assert !c.cleanup;
      assert data == Some(map[]);
    } else {
      var k :| k in d.data;
      assert k in data.value;
      assert data.value != map[];
    }
    CommitIsUpToDate(c, sp, f, d, w.secret, i.write, data.value);
  }

  lemma CommitIsUpToDate(c: Config, sp: Spec, f: Fetched, d: Draft, s: Option<Secret>, write: Write, data: Data)
    requires write.Written? && WriteData(c, sp, f, d, CurrentData(s)) == Some(data) && (data != map[] || !c.cleanup)
    requires WriteData(c, sp, f, d, data) == Some(data)
    ensures CurrentData(Commit(c, sp, f, d, s, write)) == data
    ensures UpToDate(c, sp, f, d, Commit(c, sp, f, d, s, write))
  {
    hide WriteData;
  }

  /** The round would leave this Secret as it is. */
  ghost predicate Untouched(c: Config, sp: Spec, s: Option<Secret>, i: Inputs)
    requires Aligned(sp, i.answers)
  {
    var f := FetchAll(sp, i.answers);
    var d := CalmDraft(sp, f, i, false);
    Skips(c, sp, f, d) || UpToDate(c, sp, f, d, s)
  }

  /** One calm, non-deleting round leaves a Secret the same round would not touch,
      and is still calm when repeated. */
  lemma SecretSettles(c: Config, sp: Spec, w: World, i: Inputs, j: Inputs)
    requires Calm(c, sp, w, i) && NonDeleting(c, sp, i) && Repeats(sp, i, j)
    ensures Calm(c, sp, Round(c, sp, w, i), j) && NonDeleting(c, sp, j)
    ensures Untouched(c, sp, Round(c, sp, w, i).secret, j)
  {
    var f := FetchAll(sp, i.answers);
    var d := CalmDraft(sp, f, i, Noticed(c, sp, w, i));
    CalmRound(c, sp, w, i);
    if !Skips(c, sp, f, d) && !UpToDate(c, sp, f, d, w.secret) {
      CommitSettles(c, sp, w, i, d);
      if d.data == map[] {
        EmptyDraft(c, sp, w, i, d);
      }
    }
    FinishSecret(c, sp, w, i, d);
    CalmStays(c, sp, w, Round(c, sp, w, i), i, j);
    assert CalmDraft(sp, f, j, false) == d.(reported := false);
    hide Round, FetchAll, FailedKeyCount, AllFailed, WriteData, CalmDraft;
  }

  lemma FinishSecret(c: Config, sp: Spec, w: World, i: Inputs, d: Draft)
    requires Calm(c, sp, w, i) && d == CalmDraft(sp, FetchAll(sp, i.answers), i, Noticed(c, sp, w, i))
    ensures Round(c, sp, w, i).secret
         == if Skips(c, sp, FetchAll(sp, i.answers), d) || UpToDate(c, sp, FetchAll(sp, i.answers), d, w.secret)
            then w.secret
            else Commit(c, sp, FetchAll(sp, i.answers), d, w.secret, i.write)
  {
    CalmRound(c, sp, w, i);
    hide Round, FetchAll, Skips, UpToDate, Commit, RecordNotice, UpdateStatus, Report, CalmDraft, ZeroOutput, OrderOf;
  }

  lemma CalmStays(c: Config, sp: Spec, w: World, w': World, i: Inputs, j: Inputs)
    requires Calm(c, sp, w, i) && NonDeleting(c, sp, i) && Repeats(sp, i, j)
    requires w'.secret == w.secret
          || (CurrentData(w'.secret) == map[] <==> CalmDraft(sp, FetchAll(sp, i.answers), i, false).data == map[])
    ensures Calm(c, sp, w', j) && NonDeleting(c, sp, j)
  {
    hide FetchAll, FailedKeyCount, AllFailed, TotalSources, Stale, OrderOf;
    if w'.secret != w.secret && TotalSources(sp) == 0 && !sp.templated {
      NoSourcesNoOutput(sp, i.answers);
    }
    assert |CurrentData(w'.secret)| > 0 <==> CurrentData(w'.secret) != map[];
  }

  // ------------------------------------------------------------------ the status

  lemma NoticeIsNoPlaceholder()
    ensures NOTICE_KEY !in PLACEHOLDER_KEYS && NOTICE_KEY != ""
  {
    assert |NOTICE_KEY| == 40;
  }

  lemma BuildReports(sp: Spec, a: Answers, o: Order, now: nat, k: string)
    requires Aligned(sp, a) && OrderOf(o, FetchAll(sp, a)) && k != ""
    ensures Reported(Build(sp, FetchAll(sp, a), o, now), k)
       <==> DataFailure(sp.data, FetchAll(sp, a), k) || ExtractFailure(FetchAll(sp, a), k)
  {
    var f := FetchAll(sp, a);
    var d, s := DataRecords(sp.data, f, now), StrayRecords(o.data, sp.data, f, now);
    var x := ExtractRecords(o.extracts, f, now);
    DataRecordsExact(sp.data, f, now, k);
    StrayRecordsExact(o.data, sp.data, f, now, k);
    ExtractRecordsExact(o.extracts, f, now, k);
    CountKeyAppend(d + s, x, k);
    CountKeyAppend(d, s, k);
    ErrorKeys(sp.data, a.data, k);
    CountedKeyIsReported(Failures(sp, f, o, now), k);
    if k in f.dataErrors {
      var n :| 0 <= n < |sp.data| && a.data[n].Failed? && sp.data[n].key == k;
      assert sp.data[n] in sp.data;
    }
    hide FetchAll, DataRecords, StrayRecords, ExtractRecords, DataFailure, ExtractFailure;
  }

  lemma UnreportedBag(rs: Results, k: string)
    requires !Reported(rs, k)
    ensures forall p: Fingerprint | p.key == k :: Bag(rs)[p] == 0
  {
    KeyInBag(rs, k);
  }

  ghost function NoticePrint(sp: Spec): Fingerprint {
    FingerprintOf(Notice(sp, 0))
  }

  /** The records a repeated round ends up with. */
  ghost function SettledBag(c: Config, sp: Spec, i: Inputs): multiset<Fingerprint>
    requires Aligned(sp, i.answers)
  {
    Bag(Build(sp, FetchAll(sp, i.answers), i.order, i.now))
    + (if NoticeActive(c, sp) then multiset{NoticePrint(sp)} else multiset{})
  }

  lemma SettledBagRepeats(c: Config, sp: Spec, i: Inputs, j: Inputs)
    requires Legal(sp, i) && Repeats(sp, i, j)
    ensures SettledBag(c, sp, i) == SettledBag(c, sp, j)
  {
    BuildIsOrderFree(sp, FetchAll(sp, i.answers), i.order, j.order, i.now, j.now);
    hide FetchAll, OrderOf, Build, Bag;
  }

  lemma NoticeInPlaceOnce(c: Config, sp: Spec, rs: Results)
    requires NoticeInPlace(c, sp, rs) && NoticeActive(c, sp)
    ensures Bag(rs)[NoticePrint(sp)] == 1
  {
  }

  /** The notice is in place, if it has to be. */
  ghost predicate NoticeInPlace(c: Config, sp: Spec, rs: Results) {
    NoticeActive(c, sp) ==> OneNotice(Bag(rs), NoticePrint(sp))
  }

  lemma KeptHasNoNotice(sp: Spec, a: Answers, o: Order, now: nat, previous: Results)
    requires Aligned(sp, a) && OrderOf(o, FetchAll(sp, a))
    requires !DataFailure(sp.data, FetchAll(sp, a), NOTICE_KEY) && !ExtractFailure(FetchAll(sp, a), NOTICE_KEY)
    ensures !Reported(Build(sp, FetchAll(sp, a), o, now), NOTICE_KEY)
    ensures var built := Build(sp, FetchAll(sp, a), o, now); !Reported(built + Retained(built, previous), NOTICE_KEY)
  {
    NoticeIsNoPlaceholder();
    BuildReports(sp, a, o, now, NOTICE_KEY);
    RetainedKeys(Build(sp, FetchAll(sp, a), o, now), previous);
    hide FetchAll, Build, Retained, PLACEHOLDER_KEYS, NOTICE_KEY, DataFailure, ExtractFailure;
  }

  /** Without a clash a proposal keeps the notice in place, and is the settled one
      when no placeholder is retained. */
  lemma ProposalWithoutClash(c: Config, sp: Spec, previous: Results, drop: bool, i: Inputs)
    requires Legal(sp, i) && !NoticeClash(c, sp, FetchAll(sp, i.answers)) && NoticeInPlace(c, sp, previous)
    ensures var rs := Proposed(c, sp, previous, FetchAll(sp, i.answers), drop, i);
            NoticeInPlace(c, sp, rs) && (drop ==> Bag(rs) == SettledBag(c, sp, i))
  {
    var f := FetchAll(sp, i.answers);
    var built := Build(sp, f, i.order, i.now);
    var kept := if drop then built else built + Retained(built, previous);
    if NoticeActive(c, sp) {
      KeptHasNoNotice(sp, i.answers, i.order, i.now, previous);
      RetainNoticeBag(kept, previous, NoticePrint(sp));
      UnreportedBag(kept, NOTICE_KEY);
    }
    hide FetchAll, Build, Bag, Retained, RetainNotice, OrderOf, Reported;
  }

  /** With a clash the proposal drops the notice. */
  lemma ProposalWithClash(c: Config, sp: Spec, previous: Results, drop: bool, i: Inputs)
    requires Legal(sp, i) && NoticeClash(c, sp, FetchAll(sp, i.answers))
    ensures NoticePrint(sp) !in Bag(Proposed(c, sp, previous, FetchAll(sp, i.answers), drop, i))
  {
    var f := FetchAll(sp, i.answers);
    var built := Build(sp, f, i.order, i.now);
    var kept := if drop then built else built + Retained(built, previous);
    NoticeIsNoPlaceholder();
    BuildReports(sp, i.answers, i.order, i.now, NOTICE_KEY);
    RetainedKeys(built, previous);
    FailuresAreFailed(sp, f, i.order, i.now);
    var r :| r in built && r.key == NOTICE_KEY;
    assert r in kept;
    assert forall q | q in built :: q.status != StatusWarning;
    InBag(kept, NoticePrint(sp));
    hide FetchAll, Failures, Bag, Retained, OrderOf, PLACEHOLDER_KEYS;
  }

  lemma UpdateWithoutClash(c: Config, sp: Spec, w: World, drop: bool, force: bool, i: Inputs)
    requires Legal(sp, i) && !NoticeClash(c, sp, FetchAll(sp, i.answers)) && NoticeInPlace(c, sp, w.results)
    ensures var r := UpdateStatus(c, sp, w, FetchAll(sp, i.answers), drop, force, i);
            && NoticeInPlace(c, sp, r.results)
            && (drop ==> Bag(r.results) == SettledBag(c, sp, i))
            && (drop && !force && Bag(w.results) == SettledBag(c, sp, i) ==> r == w)
  {
    ProposalWithoutClash(c, sp, w.results, drop, i);
    hide FetchAll, Proposed, SettledBag, OrderOf, Bag, NoticeClash, OneNotice;
  }

  lemma FinishWithoutClash(c: Config, sp: Spec, w: World, d: Draft, i: Inputs)
    requires Legal(sp, i) && i.write.Written? && !NoticeClash(c, sp, FetchAll(sp, i.answers))
    requires NoticeInPlace(c, sp, w.results)
    ensures NoticeInPlace(c, sp, Finish(c, sp, w, FetchAll(sp, i.answers), d, i).results)
    ensures !d.reported ==> Bag(Finish(c, sp, w, FetchAll(sp, i.answers), d, i).results) == SettledBag(c, sp, i)
    ensures (&& !d.reported && Bag(w.results) == SettledBag(c, sp, i)
             && (Skips(c, sp, FetchAll(sp, i.answers), d) || UpToDate(c, sp, FetchAll(sp, i.answers), d, w.secret)))
            ==> Finish(c, sp, w, FetchAll(sp, i.answers), d, i) == w
  {
    hide OrderOf, Aligned, FetchAll, UpdateStatus, Report, SettledBag;
    hide Skips, UpToDate, Commit, Bag, NoticeClash, NoticeInPlace;
    var f := FetchAll(sp, i.answers);
    UpdateWithoutClash(c, sp, w, !d.reported, false, i);
    var s := UpdateStatus(c, sp, w, f, !d.reported, false, i);
    UpdateWithoutClash(c, sp, s.(secret := Commit(c, sp, f, d, w.secret, i.write)), !d.reported, true, i);
  }

  lemma UpdateWithClash(c: Config, sp: Spec, w: World, drop: bool, force: bool, i: Inputs)
    requires Legal(sp, i) && NoticeClash(c, sp, FetchAll(sp, i.answers))
    ensures NoticePrint(sp) !in Bag(UpdateStatus(c, sp, w, FetchAll(sp, i.answers), drop, force, i).results)
    ensures UpdateStatus(c, sp, w, FetchAll(sp, i.answers), drop, force, i).writes >= w.writes
  {
    ProposalWithClash(c, sp, w.results, drop, i);
    hide FetchAll, Proposed, OrderOf, Bag, NoticeClash;
  }

  lemma FinishWithClash(c: Config, sp: Spec, w: World, d: Draft, i: Inputs)
    requires Legal(sp, i) && i.write.Written? && NoticeClash(c, sp, FetchAll(sp, i.answers))
    ensures NoticePrint(sp) !in Bag(Finish(c, sp, w, FetchAll(sp, i.answers), d, i).results)
    ensures Finish(c, sp, w, FetchAll(sp, i.answers), d, i).writes >= w.writes
  {
    hide OrderOf, Aligned, FetchAll, UpdateStatus, Report, Skips, UpToDate, Commit, Bag, NoticeClash;
    var f := FetchAll(sp, i.answers);
    UpdateWithClash(c, sp, w, !d.reported, false, i);
    var s := UpdateStatus(c, sp, w, f, !d.reported, false, i);
    UpdateWithClash(c, sp, s.(secret := Commit(c, sp, f, d, w.secret, i.write)), !d.reported, true, i);
  }

  lemma NoticeRecorded(c: Config, sp: Spec, w: World, now: nat)
    ensures NoticeInPlace(c, sp, RecordNotice(c, sp, w, now).results)
    ensures NoticeInPlace(c, sp, w.results) <==> RecordNotice(c, sp, w, now) == w
    ensures RecordNotice(c, sp, w, now) == w <==> RecordNotice(c, sp, w, now).writes == w.writes
    ensures RecordNotice(c, sp, w, now).writes >= w.writes
  {
    NoticeSettles(w.results, Notice(sp, now));
    hide Bag, WithoutNotice, OneNotice;
  }

  /** A calm round puts the notice in place; when it was there already, the records
      are the settled ones, and a settled world stays as it runs. */
  lemma RoundWithoutClash(c: Config, sp: Spec, w: World, i: Inputs)
    requires Calm(c, sp, w, i) && !NoticeClash(c, sp, FetchAll(sp, i.answers))
    ensures NoticeInPlace(c, sp, Round(c, sp, w, i).results)
    ensures NoticeInPlace(c, sp, w.results) ==> Bag(Round(c, sp, w, i).results) == SettledBag(c, sp, i)
    ensures && NoticeInPlace(c, sp, w.results)
            && Bag(w.results) == SettledBag(c, sp, i)
            && Untouched(c, sp, w.secret, i)
        ==> Round(c, sp, w, i) == w
  {
    CalmRound(c, sp, w, i);
    NoticeRecorded(c, sp, w, i.now);
    var d := CalmDraft(sp, FetchAll(sp, i.answers), i, Noticed(c, sp, w, i));
    FinishWithoutClash(c, sp, RecordNotice(c, sp, w, i.now), d, i);
    hide Round, Finish, FetchAll, SettledBag, RecordNotice, Bag, NoticeInPlace, NoticeClash;
    hide Skips, UpToDate, OrderOf, Stale, ZeroOutput;
  }

  lemma RoundWithClash(c: Config, sp: Spec, w: World, i: Inputs)
    requires Calm(c, sp, w, i) && NoticeClash(c, sp, FetchAll(sp, i.answers))
    ensures NoticePrint(sp) !in Bag(Round(c, sp, w, i).results)
    ensures Round(c, sp, w, i).writes >= w.writes
    ensures NoticePrint(sp) !in Bag(w.results) ==> Round(c, sp, w, i).writes > w.writes
  {
    CalmRound(c, sp, w, i);
    NoticeRecorded(c, sp, w, i.now);
    var d := CalmDraft(sp, FetchAll(sp, i.answers), i, Noticed(c, sp, w, i));
    FinishWithClash(c, sp, RecordNotice(c, sp, w, i.now), d, i);
    assert OneNotice(Bag(w.results), NoticePrint(sp)) ==> Bag(w.results)[NoticePrint(sp)] == 1;
    hide Round, Finish, FetchAll, RecordNotice, Bag, OneNotice, OrderOf, Stale, ZeroOutput;
  }

  // ------------------------------------------------------------------- many rounds

  ghost predicate Repeated(sp: Spec, runs: seq<Inputs>) {
    forall n | 0 <= n < |runs| :: Repeats(sp, runs[0], runs[n])
  }

  function Rounds(c: Config, sp: Spec, w: World, runs: seq<Inputs>): World
    requires forall n | 0 <= n < |runs| :: Aligned(sp, runs[n].answers)
  {
    if runs == [] then w else Round(c, sp, Rounds(c, sp, w, runs[..|runs| - 1]), runs[|runs| - 1])
  }

  ghost predicate Begins(c: Config, sp: Spec, w: World, runs: seq<Inputs>) {
    runs != [] && Repeated(sp, runs) && Calm(c, sp, w, runs[0]) && NonDeleting(c, sp, runs[0])
  }

  /** Every round of a repetition is calm, and from the second on the Secret is settled. */
  lemma {:induction false} EveryRoundIsCalm(c: Config, sp: Spec, w: World, runs: seq<Inputs>, j: Inputs)
    requires Begins(c, sp, w, runs) && Repeats(sp, runs[0], j)
    ensures Calm(c, sp, Rounds(c, sp, w, runs), j) && NonDeleting(c, sp, j)
    ensures Untouched(c, sp, Rounds(c, sp, w, runs).secret, j)
  {
    var n := |runs| - 1;
    hide Calm, NonDeleting, Round, FetchAll, Untouched;
    if n > 0 {
      EveryRoundIsCalm(c, sp, w, runs[..n], runs[n]);
    } else {
      assert runs[..n] == [];
    }
    SecretSettles(c, sp, Rounds(c, sp, w, runs[..n]), runs[n], j);
  }

  /** One round puts the notice in place, a second settles the records, and nothing
      runs written from then on. */
  lemma {:induction false} SettlesWithoutClash(c: Config, sp: Spec, w: World, runs: seq<Inputs>)
    requires Begins(c, sp, w, runs) && !NoticeClash(c, sp, FetchAll(sp, runs[0].answers))
    ensures NoticeInPlace(c, sp, Rounds(c, sp, w, runs).results)
    ensures |runs| >= 2 ==> Bag(Rounds(c, sp, w, runs).results) == SettledBag(c, sp, runs[0])
    ensures |runs| >= 2 ==> Rounds(c, sp, w, runs) == Rounds(c, sp, w, runs[..2])
  {
    var n := |runs| - 1;
    hide Calm, NonDeleting, Round, FetchAll, Untouched, SettledBag, Bag, NoticeInPlace, NoticeClash;
    if n == 0 {
      assert runs[..0] == [];
      RoundWithoutClash(c, sp, w, runs[0]);
    } else {
      SettlesWithoutClash(c, sp, w, runs[..n]);
      EveryRoundIsCalm(c, sp, w, runs[..n], runs[n]);
      RoundWithoutClash(c, sp, Rounds(c, sp, w, runs[..n]), runs[n]);
      SettledBagRepeats(c, sp, runs[0], runs[n]);
      if n == 1 {
        assert runs[..2] == runs;
      } else {
        assert runs[..n][..2] == runs[..2];
      }
    }
  }

  lemma {:induction false} ChurnsWithClash(c: Config, sp: Spec, w: World, runs: seq<Inputs>)
    requires Begins(c, sp, w, runs) && NoticeClash(c, sp, FetchAll(sp, runs[0].answers))
    ensures NoticePrint(sp) !in Bag(Rounds(c, sp, w, runs).results)
    ensures |runs| >= 2 ==> Rounds(c, sp, w, runs).writes > Rounds(c, sp, w, runs[..|runs| - 1]).writes
  {
    var n := |runs| - 1;
    hide Calm, NonDeleting, Round, FetchAll, Untouched, Bag, NoticeClash;
    if n == 0 {
      assert runs[..0] == [];
      RoundWithClash(c, sp, w, runs[0]);
    } else {
      ChurnsWithClash(c, sp, w, runs[..n]);
      EveryRoundIsCalm(c, sp, w, runs[..n], runs[n]);
      RoundWithClash(c, sp, Rounds(c, sp, w, runs[..n]), runs[n]);
    }
  }

  /** Repeating a calm, non-deleting round any number of times: from the third on
      nothing is written and nothing changes, with at most one notice present,
      exactly when no failed document shares its key with the notice. With such a
      document every further round writes the status, for ever. */
  lemma StatusSettles(c: Config, sp: Spec, w: World, runs: seq<Inputs>)
    requires Begins(c, sp, w, runs) && |runs| >= 3
    ensures Rounds(c, sp, w, runs).writes == Rounds(c, sp, w, runs[..|runs| - 1]).writes
       <==> !NoticeClash(c, sp, FetchAll(sp, runs[0].answers))
    ensures !NoticeClash(c, sp, FetchAll(sp, runs[0].answers)) ==> Rounds(c, sp, w, runs) == Rounds(c, sp, w, runs[..2])
    ensures NoticeActive(c, sp) ==> Bag(Rounds(c, sp, w, runs).results)[NoticePrint(sp)] <= 1
  {
    hide Calm, NonDeleting, Round, FetchAll, Bag, NoticeClash, OneNotice;
    if NoticeClash(c, sp, FetchAll(sp, runs[0].answers)) {
      ChurnsWithClash(c, sp, w, runs);
    } else {
      var n := |runs| - 1;
      SettlesWithoutClash(c, sp, w, runs);
      SettlesWithoutClash(c, sp, w, runs[..n]);
      assert runs[..n][..2] == runs[..2];
      if NoticeActive(c, sp) {
        NoticeInPlaceOnce(c, sp, Rounds(c, sp, w, runs).results);
      }
    }
  }

  const CLASHING_ENTRY := DataSource(Some(SecretStoreRef("shared", KIND_CLUSTER_STORE, "")), NOTICE_KEY, "", [], "")
  const CLASHING_SPEC := Spec([CLASHING_ENTRY], [], false)
  const CLASHING_ANSWERS := Answers([Failed(Failure("denied"))], [])

  lemma ClashingFetch()
    ensures FetchAll(CLASHING_SPEC, CLASHING_ANSWERS)
         == Fetched(map[], map[NOTICE_KEY := Failure("denied")], map[], {}, {})
  {
    var ds, fs := CLASHING_SPEC.data, CLASHING_ANSWERS.data;
    assert ds[..0] == [] && fs[..0] == [];
    assert Errors(ds, fs) == Errors(ds[..0], fs[..0])[NOTICE_KEY := Failure("denied")];
    assert Output(ds, fs) == Output(ds[..0], fs[..0]) + map[];
  }

  lemma ClashingNotice()
    ensures forall c: Config | !c.processClusterStores :: NoticeActive(c, CLASHING_SPEC)
  {
    assert Sources(CLASHING_SPEC) == [CLASHING_ENTRY];
    assert CLASHING_ENTRY in Sources(CLASHING_SPEC);
    assert "shared" in DisabledReferences(Sources(CLASHING_SPEC));
  }

  /** Such an object exists: one entry of a ClusterSecretStore whose document happens
      to be named like the notice, and whose fetch keeps failing. */
  lemma NoticeClashHappens(i: Inputs)
    requires i == Inputs(None, CLASHING_ANSWERS, false, None, Fatal(""), Written, Order([NOTICE_KEY], []), 0)
    ensures Begins(Config(false, false), CLASHING_SPEC, World(None, [], 0), [i, i, i])
    ensures NoticeClash(Config(false, false), CLASHING_SPEC, FetchAll(CLASHING_SPEC, i.answers))
  {
    ClashingFetch();
    ClashingNotice();
    var f := FetchAll(CLASHING_SPEC, CLASHING_ANSWERS);
    CountingIsExact(CLASHING_SPEC, f);
    assert CLASHING_ENTRY in CLASHING_SPEC.data && Uncovered(CLASHING_ENTRY, f);
    hide FetchAll, NoticeActive, FailedSources, NOTICE_KEY, FailedKeyCount;
    assert DataFailure(CLASHING_SPEC.data, f, NOTICE_KEY);
    assert FailedKeyCount(f) != 0;
  }

  const RECOVERED := Inputs(
    None, Answers([Got("value", Unparsable)], []), false, None, Fatal(""), Written, Order([], []), 0)

  /** A witness that the hypotheses of StatusSettles can be met without a clash: the same
      object once its document can be fetched again, from any world, with the notice
      active and cleanup on. */
  lemma RecoveryBegins(w: World)
    ensures Begins(Config(true, false), CLASHING_SPEC, w, [RECOVERED, RECOVERED, RECOVERED])
    ensures NoticeActive(Config(true, false), CLASHING_SPEC)
    ensures !NoticeClash(Config(true, false), CLASHING_SPEC, FetchAll(CLASHING_SPEC, RECOVERED.answers))
  {
    RecoveredFetch();
    ClashingNotice();
    RecoveryIsCalm(w);
    NoErrorsNoClash(Config(true, false), CLASHING_SPEC, FetchAll(CLASHING_SPEC, RECOVERED.answers));
    hide FetchAll, NoticeActive, Calm, NonDeleting, NoticeClash;
  }

  lemma RecoveryIsCalm(w: World)
    ensures Legal(CLASHING_SPEC, RECOVERED)
    ensures Calm(Config(true, false), CLASHING_SPEC, w, RECOVERED)
    ensures NonDeleting(Config(true, false), CLASHING_SPEC, RECOVERED)
  {
    RecoveredFetch();
    var f := FetchAll(CLASHING_SPEC, RECOVERED.answers);
    CountingIsExact(CLASHING_SPEC, f);
    assert |f.out| == 1;
    hide FetchAll, FailedSources, NOTICE_KEY, FailedKeyCount;
  }

  lemma NoErrorsNoClash(c: Config, sp: Spec, f: Fetched)
    requires f.dataErrors == map[] && f.extractErrors == map[]
    ensures !NoticeClash(c, sp, f)
  {
  }

  /** What the theorem gives for that witness. */
  lemma RecoveryIsQuiet(w: World)
    ensures Rounds(Config(true, false), CLASHING_SPEC, w, [RECOVERED, RECOVERED, RECOVERED])
         == Rounds(Config(true, false), CLASHING_SPEC, w, [RECOVERED, RECOVERED])
  {
    hide Begins, NoticeClash, FetchAll, Round, Rounds;
    var runs := [RECOVERED, RECOVERED, RECOVERED];
    assert runs[..2] == [RECOVERED, RECOVERED];
    RecoveryBegins(w);
    StatusSettles(Config(true, false), CLASHING_SPEC, w, runs);
  }

  lemma RecoveredFetch()
    ensures FetchAll(CLASHING_SPEC, Answers([Got("value", Unparsable)], []))
         == Fetched(map[NOTICE_KEY := "value"], map[], map[], {NOTICE_KEY}, {})
  {
    var ds, fs := CLASHING_SPEC.data, [Got("value", Unparsable)];
    assert ds[..0] == [] && fs[..0] == [];
    assert Output(ds, fs) == Output(ds[..0], fs[..0]) + map[NOTICE_KEY := "value"];
    assert Errors(ds, fs) == Errors(ds[..0], fs[..0]);
    assert Succeeded(ds, fs) == {NOTICE_KEY} by {
      assert fs[0].Got? && ds[0].key == NOTICE_KEY;
    }
  }

  /** Deleting rounds are outside that theorem: while every source fails with cleanup
      on, each round refreshes the status, even when there is no Secret left. */
  lemma TotalFailureRefreshesStatus(c: Config, sp: Spec, w: World, i: Inputs)
    requires Aligned(sp, i.answers) && !Interrupted(sp, i) && i.write.Written?
    requires c.cleanup && AllFailed(sp, FetchAll(sp, i.answers))
    ensures Round(c, sp, w, i).writes > w.writes
    ensures Round(c, sp, w, i).secret == None
  {
    var f := FetchAll(sp, i.answers);
    var d := TotalFailureReachesWrite(c, sp, w, i);
    CountingIsExact(sp, f);
    StatusOnlyGrows(c, sp, w, f, i);
    var t := Templating(c, sp, w, f, i).world;
    hide Round, FetchAll, FailedSources, FailedKeyCount, Finish, Templating, Reaches, AllFailed, Stale, ZeroOutput;
    TotalFailureWrites(c, sp, t, f, d, i);
  }

  lemma TotalFailureWrites(c: Config, sp: Spec, w: World, f: Fetched, d: Draft, i: Inputs)
    requires c.cleanup && AllFailed(sp, f) && FailedKeyCount(f) > 0 && i.write.Written?
    ensures Finish(c, sp, w, f, d, i).writes > w.writes
    ensures Finish(c, sp, w, f, d, i).secret == None
  {
    hide Proposed, Bag, FailedKeyCount, AllFailed, Report;
    assert WriteData(c, sp, f, d, CurrentData(w.secret)) == None;
    assert !Skips(c, sp, f, d);
  }

  lemma StatusOnlyGrows(c: Config, sp: Spec, w: World, f: Fetched, i: Inputs)
    ensures Templating(c, sp, w, f, i).world.writes >= w.writes
  {
    hide Bag, Kept, WithoutNotice, FailedKeyCount, AllFailed, NoticeActive;
  }

  /** A placeholder written earlier in the round is still reported when the round ends:
      neither the deferred nor the forced status write drops it. */
  lemma OwnPlaceholderStaysVisible(c: Config, sp: Spec, w: World, f: Fetched, d: Draft, i: Inputs, k: string)
    requires OrderOf(i.order, f) && i.write.Written?
    requires d.reported && k in PLACEHOLDER_KEYS && Reported(w.results, k)
    ensures Reported(Finish(c, sp, w, f, d, i).results, k)
  {
    hide OrderOf, PLACEHOLDER_KEYS, Bag, Reported, Skips, UpToDate, Commit, Proposed, Report;
    KeepsPlaceholder(c, sp, w.results, f, i, k);
    SameKeys(w.results, Proposed(c, sp, w.results, f, false, i), k);
    var s := UpdateStatus(c, sp, w, f, false, false, i);
    assert Reported(s.results, k);
    KeepsPlaceholder(c, sp, s.results, f, i, k);
  }

  lemma SameKeys(a: Results, b: Results, k: string)
    ensures Bag(a) == Bag(b) ==> (Reported(a, k) <==> Reported(b, k))
  {
    KeyInBag(a, k);
    KeyInBag(b, k);
    hide Bag, Reported;
  }

  lemma KeepsPlaceholder(c: Config, sp: Spec, previous: Results, f: Fetched, i: Inputs, k: string)
    requires k in PLACEHOLDER_KEYS && Reported(previous, k)
    ensures Reported(Proposed(c, sp, previous, f, false, i), k)
  {
    var built := Build(sp, f, i.order, i.now);
    var kept := built + Retained(built, previous);
    RetainedExact(built, previous, k);
    CountedKeyIsReported(Retained(built, previous), k);
    if r :| r in built && r.key == k {
      assert r in kept;
    } else {
      var r :| r in Retained(built, previous) && r.key == k;
      assert r in kept;
    }
    hide Build, Retained, PLACEHOLDER_KEYS;
    var r :| r in kept && r.key == k;
    assert r in Proposed(c, sp, previous, f, false, i);
  }
}
