/** One sync round as a function of the world it reads, and the reconciler that
    performs it step by step (syncIfNeedUpdate, updateExternalSecretStatus,
    recordCSSControllerDisabledStatus, HandleSecretOperation). */
module SyncRound {
  import opened Wrappers
  import opened ExternalSecrets
  import opened SyncFetch
  import opened PartialFailure
  import opened SyncStatus

  /** CleanUpSecretOnFailure and ProcessClusterSecretStore. */
  datatype Config = Config(cleanup: bool, processClusterStores: bool)

  type Metadata = map<string, string>

  datatype Secret = Secret(data: Data, labels: Metadata, annotations: Metadata)

  /** The target Secret, the recorded sync results, and how many times the status
      was written. */
  datatype World = World(secret: Option<Secret>, results: Results, writes: nat)

  /** What ends a round early: a cancelled context, or a resource-level error that is
      reported under its own key. */
  datatype Fault = Cancelled | Resource(key: string, reason: string)

  datatype Template =
    | Fatal(reason: string)
    | Rendered(data: Data, labels: Metadata, annotations: Metadata, warnings: string)

  datatype Write = Written | NamespaceTerminating | WriteFailed(reason: string)

  /** Everything the environment decides in one round. */
  datatype Inputs = Inputs(
    early: Option<Fault>, answers: Answers, cancelled: bool, read: Option<Fault>,
    template: Template, write: Write, order: Order, now: nat)

  ghost predicate Legal(sp: Spec, i: Inputs) {
    Aligned(sp, i.answers) && OrderOf(i.order, FetchAll(sp, i.answers))
  }

  // ------------------------------------------------------------ status writes

  function Put(w: World, rs: Results): World {
    World(w.secret, rs, w.writes + 1)
  }

  /** A status write that is dropped when it would carry no new information. */
  function Debounced(w: World, rs: Results): (r: World)
    ensures r.secret == w.secret
  {
    if Bag(w.results) == Bag(rs) then w else Put(w, rs)
  }

  /** updateResourceManagementStatus. */
  function Report(w: World, key: string, reason: Reason, now: nat): (r: World)
    ensures r.secret == w.secret
  {
    Debounced(w, Kept(w.results) + [DataSyncResult(key, StatusFailed, reason, now)])
  }

  function ReportFault(w: World, fault: Fault, now: nat): (r: World)
    ensures r.secret == w.secret
  {
    match fault
    case Cancelled => w
    case Resource(key, reason) => Report(w, key, Text(reason), now)
  }

  predicate RefersToClusterStore(d: DataSource) {
    d.storeRef.Some? && d.storeRef.value.kind == KIND_CLUSTER_STORE
  }

  /** disabledCSSReferences. */
  function DisabledReferences(ds: seq<DataSource>): set<string> {
    set d | d in ds && RefersToClusterStore(d) :: d.storeRef.value.name
  }

  predicate NoticeActive(c: Config, sp: Spec) {
    !c.processClusterStores && DisabledReferences(Sources(sp)) != {}
  }

  function Notice(sp: Spec, now: nat): DataSyncResult {
    DataSyncResult(NOTICE_KEY, StatusWarning, DisabledStores(DisabledReferences(Sources(sp))), now)
  }

  function RecordNotice(c: Config, sp: Spec, w: World, now: nat): (r: World)
    ensures r.secret == w.secret
  {
    if NoticeActive(c, sp) then Debounced(w, WithoutNotice(w.results) + [Notice(sp, now)]) else w
  }

  /** The records the deferred status write proposes. */
  function Proposed(c: Config, sp: Spec, previous: Results, f: Fetched, drop: bool, i: Inputs): Results {
    var built := Build(sp, f, i.order, i.now);
    var kept := if drop then built else built + Retained(built, previous);
    if NoticeActive(c, sp) then RetainNotice(kept, previous) else kept
  }

  /** updateExternalSecretStatus. */
  function UpdateStatus(c: Config, sp: Spec, w: World, f: Fetched, drop: bool, force: bool, i: Inputs): (r: World)
    ensures r.secret == w.secret
  {
    var rs := Proposed(c, sp, w.results, f, drop, i);
    if force then Put(w, rs) else Debounced(w, rs)
  }

  // ------------------------------------------------------------------ reading

  function CurrentData(s: Option<Secret>): Data {
    if s.Some? then s.value.data else map[]
  }

  function Lookup(m: Metadata, k: string): string {
    if k in m then m[k] else ""
  }

  predicate Holds(targets: Metadata, current: Metadata) {
    forall k | k in targets :: Lookup(current, k) == targets[k]
  }

  /** templateMetadataTargetsApplied, against a Secret that may not exist. */
  predicate MetadataApplied(labels: Metadata, annotations: Metadata, s: Option<Secret>) {
    && Holds(labels, if s.Some? then s.value.labels else map[])
    && Holds(annotations, if s.Some? then s.value.annotations else map[])
  }

  predicate Stale(f: Fetched) {
    || (exists k :: k in f.dataErrors && f.dataErrors[k].StaleClient?)
    || (exists k :: k in f.extractErrors && f.extractErrors[k].StaleClient?)
  }

  // ----------------------------------------------------------- the write path

  /** What the template stage hands to the write stage. */
  datatype Draft = Draft(data: Data, processed: bool, labels: Metadata, annotations: Metadata, reported: bool)

  datatype Stage = Ended(world: World) | Continue(world: World, draft: Draft)

  const O2 := "declared data sources produced 0 keys with 0 errors"
  const O3 := "no data source declared but existing Secret holds keys"
  const EMPTIED := "template rendering produced 0 data keys while source data was non-empty"
  const NOTHING := "no data source declared and template rendering produced 0 data keys"

  predicate ZeroOutput(sp: Spec, f: Fetched, existing: nat) {
    || DeclaredSourcesButZeroOutput(TotalSources(sp), FailedKeyCount(f), |f.out|)
    || NoDeclaredSourcesButExistingData(TotalSources(sp), sp.templated, existing)
  }

  function ZeroOutputReason(sp: Spec, f: Fetched, existing: nat): Reason {
    if DeclaredSourcesButZeroOutput(TotalSources(sp), FailedKeyCount(f), |f.out|) then Counting(O2, TotalSources(sp))
    else Counting(O3, existing)
  }

  /** The notice and the template, before any Secret write. */
  function Templating(c: Config, sp: Spec, w: World, f: Fetched, i: Inputs): (r: Stage)
    ensures r.world.secret == w.secret
  {
    var n := RecordNotice(c, sp, w, i.now);
    var noticed := n.writes != w.writes;
    if !sp.templated then Continue(n, Draft(f.out, false, map[], map[], noticed))
    else match i.template
      case Fatal(reason) =>
        if FailedKeyCount(f) > 0 || AllFailed(sp, f) then
          Continue(Report(n, "template_processing_errors", Text(reason), i.now), Draft(f.out, true, map[], map[], true))
        else
          Ended(Report(n, "template_processing_fatal", Text(reason), i.now))
      case Rendered(data, labels, annotations, warnings) =>
        var r := if warnings != "" then Report(n, "template_processing_warnings", Text(warnings), i.now) else n;
        if TemplateRenderedZeroOutput(FailedKeyCount(f), |data|, |f.out|, |CurrentData(w.secret)|) then
          var why := if |f.out| > 0 then Text(EMPTIED) else Counting(NOTHING, |CurrentData(w.secret)|);
          Ended(Report(r, "template_zero_output_guard", why, i.now))
        else
          Continue(r, Draft(data, true, labels, annotations, noticed || warnings != ""))
  }

  /** resolveWriteData; none is the deletion contract. */
  function WriteData(c: Config, sp: Spec, f: Fetched, d: Draft, current: Data): Option<Data> {
    if AllFailed(sp, f) && c.cleanup then None
    else if FailedKeyCount(f) > 0 && |d.data| > 0 && !d.processed then
      Some(Merge(d.data, current, FailedTargets(sp.data, f), RetainAll(sp.dataProcess, f)))
    else Some(d.data)
  }

  /** HandleSecretOperation when no API call fails. */
  function Handle(c: Config, s: Option<Secret>, data: Data, labels: Metadata, annotations: Metadata, write: Write)
    : Option<Secret>
  {
    if c.cleanup && |data| == 0 then None
    else match s
      case Some(previous) => Some(Secret(data, previous.labels + labels, previous.annotations + annotations))
      case None => if write.NamespaceTerminating? then None else Some(Secret(data, labels, annotations))
  }

  predicate Skips(c: Config, sp: Spec, f: Fetched, d: Draft) {
    ShouldSkipSecretWrite(|d.data|, FailedKeyCount(f), AllFailed(sp, f), c.cleanup, d.processed)
  }

  /** Nothing to write: same data, and any metadata already applied. */
  predicate UpToDate(c: Config, sp: Spec, f: Fetched, d: Draft, s: Option<Secret>) {
    && WriteData(c, sp, f, d, CurrentData(s)) == Some(CurrentData(s))
    && MetadataApplied(d.labels, d.annotations, s)
  }

  function Commit(c: Config, sp: Spec, f: Fetched, d: Draft, s: Option<Secret>, write: Write): Option<Secret> {
    var data := WriteData(c, sp, f, d, CurrentData(s));
    Handle(c, s, if data.Some? then data.value else map[], d.labels, d.annotations, write)
  }

  /** Status, then skip, leave or write the Secret. */
  function Finish(c: Config, sp: Spec, w: World, f: Fetched, d: Draft, i: Inputs): World {
    var s := UpdateStatus(c, sp, w, f, !d.reported, false, i);
    if Skips(c, sp, f, d) || UpToDate(c, sp, f, d, w.secret) then s
    else if i.write.WriteFailed? then Report(s, "update_operation", Text(i.write.reason), i.now)
    else UpdateStatus(c, sp, s.(secret := Commit(c, sp, f, d, w.secret, i.write)), f, !d.reported, true, i)
  }

  /** syncIfNeedUpdate. */
  function Round(c: Config, sp: Spec, w: World, i: Inputs): World
    requires Aligned(sp, i.answers)
  {
    if i.early.Some? then ReportFault(w, i.early.value, i.now)
    else
      var f := FetchAll(sp, i.answers);
      if Stale(f) || i.cancelled then w
      else if i.read.Some? then ReportFault(w, i.read.value, i.now)
      else if ZeroOutput(sp, f, |CurrentData(w.secret)|) then
        Report(w, "zero_output_guard", ZeroOutputReason(sp, f, |CurrentData(w.secret)|), i.now)
      else match Templating(c, sp, w, f, i)
        case Ended(world) => world
        case Continue(world, draft) => Finish(c, sp, world, f, draft, i)
  }

  // ----------------------------------------------------------- the reconciler

  method CollectDisabledReferences(sp: Spec) returns (names: set<string>)
    ensures names == DisabledReferences(Sources(sp))
  {
    names := {};
    var data, ps := sp.data, sp.dataProcess;
    for i := 0 to |data|
      invariant names == DisabledReferences(data[..i])
    {
      DisabledReferencesSnoc(data[..i], data[i]);
      assert data[..i + 1] == data[..i] + [data[i]];
      if RefersToClusterStore(data[i]) {
        names := names + {data[i].storeRef.value.name};
      }
    }
    assert data[..|data|] == data;
    assert data + Extracts(ps[..0]) == data;
    for i := 0 to |ps|
      invariant names == DisabledReferences(data + Extracts(ps[..i]))
    {
      assert ps[..i + 1] == ps[..i] + [ps[i]];
      ExtractsSnoc(ps[..i], ps[i]);
      ghost var before := data + Extracts(ps[..i]);
      match ps[i].extract
      case None =>
        assert data + Extracts(ps[..i + 1]) == before;
      case Some(extract) =>
        assert data + Extracts(ps[..i + 1]) == before + [extract];
        DisabledReferencesSnoc(before, extract);
        if RefersToClusterStore(extract) {
          names := names + {extract.storeRef.value.name};
        }
    }
    assert ps[..|ps|] == ps;
  }

  lemma DisabledReferencesSnoc(ds: seq<DataSource>, d: DataSource)
    ensures DisabledReferences(ds + [d])
         == DisabledReferences(ds) + (if RefersToClusterStore(d) then {d.storeRef.value.name} else {})
  {
    assert d in ds + [d];
    assert forall e | e in ds :: e in ds + [d];
  }

  /** One of the two loops of templateMetadataTargetsApplied. */
  method TargetsHold(targets: Metadata, current: Metadata) returns (applied: bool)
    ensures applied == Holds(targets, current)
  {
    var rest := targets.Keys;
    while rest != {}
      invariant rest <= targets.Keys
      invariant forall k | k in targets.Keys - rest :: Lookup(current, k) == targets[k]
      decreases |rest|
    {
      var k :| k in rest;
      if Lookup(current, k) != targets[k] {
        return false;
      }
      rest := rest - {k};
    }
    return true;
  }

  /** The metadata `before` with the targets written over it. */
  ghost predicate Overlaid(after: Metadata, before: Metadata, targets: Metadata) {
    && (forall k :: k in after <==> k in before || k in targets)
    && forall k | k in after :: after[k] == if k in targets then targets[k] else before[k]
  }

  method Overlay(before: Metadata, targets: Metadata) returns (after: Metadata)
    ensures Overlaid(after, before, targets)
  {
    after := before;
    var rest := targets.Keys;
    while rest != {}
      invariant rest <= targets.Keys
      invariant forall k :: k in after <==> k in before || (k in targets && k !in rest)
      invariant forall k | k in after :: after[k] == if k in targets && k !in rest then targets[k] else before[k]
      decreases |rest|
    {
      var k :| k in rest;
      after := after[k := targets[k]];
      rest := rest - {k};
    }
  }

  lemma OverlaidDetermined(after: Metadata, before: Metadata, targets: Metadata)
    requires Overlaid(after, before, targets)
    ensures after == before + targets
  {
  }

  lemma NothingUnder(targets: Metadata)
    ensures map[] + targets == targets
  {
  }

  /** That account of a write leaves one outcome. */
  lemma WriteDetermined(c: Config, s: Option<Secret>, t: Option<Secret>,
                        data: Data, labels: Metadata, annotations: Metadata, write: Write)
    requires t.None? <==> (c.cleanup && data == map[]) || (s.None? && write.NamespaceTerminating?)
    requires t.Some? ==>
               && t.value.data == data
               && Overlaid(t.value.labels, if s.Some? then s.value.labels else map[], labels)
               && Overlaid(t.value.annotations, if s.Some? then s.value.annotations else map[], annotations)
    ensures t == Handle(c, s, data, labels, annotations, write)
  {
    if t.Some? {
      var before := if s.Some? then s.value else Secret(map[], map[], map[]);
      OverlaidDetermined(t.value.labels, before.labels, labels);
      OverlaidDetermined(t.value.annotations, before.annotations, annotations);
      hide Overlaid;
      NothingUnder(labels);
      NothingUnder(annotations);
      assert data != map[] ==> |data| > 0;
    }
  }

  method ResolveWriteData(c: Config, sp: Spec, f: Fetched, secretMap: Data, current: Data,
                          allFailed: bool, failedKeyCount: nat, processed: bool)
    returns (data: Option<Data>)
    requires allFailed == AllFailed(sp, f) && failedKeyCount == FailedKeyCount(f)
    ensures forall d: Draft | d.data == secretMap && d.processed == processed :: data == WriteData(c, sp, f, d, current)
  {
    if allFailed && c.cleanup {
      return None;
    }
    if failedKeyCount > 0 && |secretMap| > 0 && !processed {
      var targets, retainAll := CollectFailedEntryTargetKeys(sp, f);
      var merged := MergeWithFailedKeys(secretMap, current, targets, retainAll);
      return Some(merged);
    }
    return Some(secretMap);
  }

  /** The ExternalSecret reconciler's view of one object: its target Secret and its
      recorded results, both behind the API server. */
  class Reconciler {
    const config: Config
    var secret: Option<Secret>
    var results: Results
    var writes: nat

    constructor (config: Config)
      ensures this.config == config && Model() == World(None, [], 0)
    {
      this.config := config;
      secret, results, writes := None, [], 0;
    }

    function Model(): World
      reads this
    {
      World(secret, results, writes)
    }

    method WriteResults(merged: Results) returns (written: bool)
      modifies this
      ensures Model() == Debounced(old(Model()), merged) && written == (writes != old(writes))
    {
      written := DataSyncResultsChanged(results, merged);
      if written {
        results := merged;
        writes := writes + 1;
      }
    }

    method UpdateResourceManagementStatus(key: string, reason: Reason, now: nat)
      modifies this
      ensures Model() == Report(old(Model()), key, reason, now)
    {
      var placeholder := DataSyncResult(key, StatusFailed, reason, now);
      var merged := MergeResourceManagementResults(results, placeholder);
      var _ := WriteResults(merged);
    }

    method RecordFault(fault: Fault, now: nat)
      modifies this
      ensures Model() == ReportFault(old(Model()), fault, now)
    {
      match fault
      case Cancelled =>
      case Resource(key, reason) => UpdateResourceManagementStatus(key, Text(reason), now);
    }

    method RecordCSSControllerDisabledStatus(sp: Spec, now: nat) returns (written: bool)
      modifies this
      ensures Model() == RecordNotice(config, sp, old(Model()), now) && written == (writes != old(writes))
    {
      var names := CollectDisabledReferences(sp);
      written := false;
      if !config.processClusterStores && names != {} {
        var merged := WithNotice(results, DataSyncResult(NOTICE_KEY, StatusWarning, DisabledStores(names), now));
        written := WriteResults(merged);
      }
    }

    method UpdateExternalSecretStatus(sp: Spec, f: Fetched, drop: bool, force: bool, i: Inputs)
      requires OrderOf(i.order, f)
      modifies this
      ensures Model() == UpdateStatus(config, sp, old(Model()), f, drop, force, i)
    {
      var latest := BuildDataSyncResults(sp, f, i.order, i.now);
      if !drop {
        latest := RetainResourceManagementPlaceholder(latest, results);
      }
      var names := CollectDisabledReferences(sp);
      if !config.processClusterStores && names != {} {
        latest := RetainCSSDisabledNotice(latest, results);
      }
      assert latest == Proposed(config, sp, results, f, drop, i);
      if force {
        results := latest;
        writes := writes + 1;
      } else {
        var _ := WriteResults(latest);
      }
    }

    /** HandleSecretOperation. The Secret is gone afterwards only on the deletion contract,
        or when its namespace is going away and there was none; otherwise it holds exactly
        this data, every rendered target, and all other metadata it had. */
    method HandleSecretOperation(data: Data, labels: Metadata, annotations: Metadata, write: Write)
      requires !write.WriteFailed?
      modifies this
      ensures results == old(results) && writes == old(writes)
      ensures secret.None? <==>
              (config.cleanup && data == map[]) || (old(secret).None? && write.NamespaceTerminating?)
      ensures secret.Some? ==>
                && secret.value.data == data
                && Overlaid(secret.value.labels, if old(secret).Some? then old(secret).value.labels else map[], labels)
                && Overlaid(secret.value.annotations,
                            if old(secret).Some? then old(secret).value.annotations else map[], annotations)
    {
      if config.cleanup && |data| == 0 {
        secret := None;
        return;
      }
      var merged := Overlay(if secret.Some? then secret.value.labels else map[], labels);
      var noted := Overlay(if secret.Some? then secret.value.annotations else map[], annotations);
      if secret.Some? || !write.NamespaceTerminating? {
        secret := Some(Secret(data, merged, noted));
      }
    }

    /** The tail of the round: deferred status, skip decision, write, forced status. */
    method WriteStage(sp: Spec, f: Fetched, d: Draft, current: Option<Secret>,
                      allFailed: bool, failedKeyCount: nat, i: Inputs)
      requires OrderOf(i.order, f) && current == secret
      requires allFailed == AllFailed(sp, f) && failedKeyCount == FailedKeyCount(f)
      modifies this
      ensures Model() == Finish(config, sp, old(Model()), f, d, i)
    {
      hide Proposed, Debounced, Report, FailedKeyCount, AllFailed, WriteData, Handle;
      hide ShouldSkipSecretWrite, Holds, Overlaid, OrderOf;
      UpdateExternalSecretStatus(sp, f, !d.reported, false, i);
      if ShouldSkipSecretWrite(|d.data|, failedKeyCount, allFailed, config.cleanup, d.processed) {
        return;
      }
      var data := ResolveWriteData(config, sp, f, d.data, CurrentData(current), allFailed, failedKeyCount, d.processed);
      var labelsHold := TargetsHold(d.labels, if current.Some? then current.value.labels else map[]);
      var annotationsHold := TargetsHold(d.annotations, if current.Some? then current.value.annotations else map[]);
      if data == Some(CurrentData(current)) && labelsHold && annotationsHold {
        return;
      }
      if i.write.WriteFailed? {
        UpdateResourceManagementStatus("update_operation", Text(i.write.reason), i.now);
        return;
      }
      var written := if data.Some? then data.value else map[];
      HandleSecretOperation(written, d.labels, d.annotations, i.write);
      WriteDetermined(config, current, secret, written, d.labels, d.annotations, i.write);
      UpdateExternalSecretStatus(sp, f, !d.reported, true, i);
    }

    /** The notice and template stage; nothing means the round ended here. */
    method TemplateStage(sp: Spec, f: Fetched, allFailed: bool, failedKeyCount: nat, i: Inputs)
      returns (draft: Option<Draft>)
      requires allFailed == AllFailed(sp, f) && failedKeyCount == FailedKeyCount(f)
      modifies this
      ensures draft.None? ==> Templating(config, sp, old(Model()), f, i) == Ended(Model())
      ensures draft.Some? ==> Templating(config, sp, old(Model()), f, i) == Continue(Model(), draft.value)
    {
      hide Debounced, Report, RecordNotice, FailedKeyCount, AllFailed;
      var existing := |CurrentData(secret)|;
      var reported := RecordCSSControllerDisabledStatus(sp, i.now);
      if !sp.templated {
        return Some(Draft(f.out, false, map[], map[], reported));
      }
      match i.template
      case Fatal(reason) =>
        if failedKeyCount > 0 || allFailed {
          UpdateResourceManagementStatus("template_processing_errors", Text(reason), i.now);
          return Some(Draft(f.out, true, map[], map[], true));
        }
        UpdateResourceManagementStatus("template_processing_fatal", Text(reason), i.now);
        return None;
      case Rendered(data, labels, annotations, warnings) =>
        if warnings != "" {
          UpdateResourceManagementStatus("template_processing_warnings", Text(warnings), i.now);
          reported := true;
        }
        if TemplateRenderedZeroOutput(failedKeyCount, |data|, |f.out|, existing) {
          UpdateResourceManagementStatus("template_zero_output_guard",
            if |f.out| > 0 then Text(EMPTIED) else Counting(NOTHING, existing), i.now);
          return None;
        }
        return Some(Draft(data, true, labels, annotations, reported));
    }

    method SyncIfNeedUpdate(sp: Spec, i: Inputs)
      requires Legal(sp, i)
      modifies this
      ensures Model() == Round(config, sp, old(Model()), i)
    {
      hide Finish, Templating, Report, FailedKeyCount, FailedSources;
      hide Output, ExtractOutput, Errors, ExtractErrors, OrderOf;
      if i.early.Some? {
        RecordFault(i.early.value, i.now);
        return;
      }
      var out, dataErrors, dataSucceeded := GetExternalSecret(sp.data, i.answers.data);
      var xout, extractErrors, extractSucceeded := GetExternalSecretWithExtract(sp.dataProcess, i.answers.extracts);
      var f := Fetched(out + xout, dataErrors, extractErrors, dataSucceeded, extractSucceeded);
      assert f == FetchAll(sp, i.answers);
      if Stale(f) || i.cancelled {
        return;
      }
      var failedUncovered := FailedUncoveredEntries(sp, f);
      if i.read.Some? {
        RecordFault(i.read.value, i.now);
        return;
      }
      var current := secret;
      var total, failed, failedKeyCount := CountFailedSources(sp, failedUncovered, f);
      var allFailed := total > 0 && failed == total;
      var existing := |CurrentData(current)|;
      if DeclaredSourcesButZeroOutput(total, failedKeyCount, |f.out|) {
        UpdateResourceManagementStatus("zero_output_guard", Counting(O2, total), i.now);
        return;
      }
      if NoDeclaredSourcesButExistingData(total, sp.templated, existing) {
        UpdateResourceManagementStatus("zero_output_guard", Counting(O3, existing), i.now);
        return;
      }
      var draft := TemplateStage(sp, f, allFailed, failedKeyCount, i);
      if draft.Some? {
        WriteStage(sp, f, draft.value, current, allFailed, failedKeyCount, i);
      }
    }
  }
}
