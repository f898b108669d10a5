/** status.dataSyncResults: how a round's errors become records, how records are
    compared, and how placeholders and the disabled-controller notice are carried
    (status_sync_results.go). */
module SyncStatus {
  import opened Wrappers
  import opened ExternalSecrets
  import opened SyncFetch
  import opened PartialFailure

  const NOTICE_KEY := "cluster_secret_store_controller_disabled"

  /** resourceManagementStatusKeys. */
  const PLACEHOLDER_KEYS: set<string> := {
    "operation", "finalizer", "namespace_access", "namespace_check", "namespace_terminating",
    "endpoint_client_cleanup", "provider_configuration", "provider_lookup", "rate_limit",
    "state_retrieval", "update_operation", "zero_output_guard", "template_zero_output_guard",
    "template_processing_errors", "template_processing_fatal", "template_processing_warnings"
  }

  datatype Verdict = StatusSucceeded | StatusFailed | StatusWarning

  /** A message: plain, with a number in it, or listing store names. */
  datatype Reason = Text(text: string) | Counting(text: string, n: nat) | DisabledStores(names: set<string>)

  datatype DataSyncResult = DataSyncResult(key: string, status: Verdict, reason: Reason, time: nat)

  /** dataSyncResultFingerprint. */
  datatype Fingerprint = Fingerprint(key: string, status: Verdict, reason: Reason)

  function FingerprintOf(r: DataSyncResult): Fingerprint {
    Fingerprint(r.key, r.status, r.reason)
  }

  type Results = seq<DataSyncResult>

  /** The records up to order and synchronization time. */
  function Bag(rs: Results): multiset<Fingerprint> {
    if rs == [] then multiset{} else Bag(rs[..|rs| - 1]) + multiset{FingerprintOf(rs[|rs| - 1])}
  }

  predicate Reported(rs: Results, k: string) {
    exists r :: r in rs && r.key == k
  }

  lemma {:induction false} BagAppend(a: Results, b: Results)
    ensures Bag(a + b) == Bag(a) + Bag(b)
  {
    if b == [] {
      assert a + b == a;
    } else {
      var n := |b| - 1;
      assert (a + b)[..|a| + n] == a + b[..n];
      assert Bag(a + b) == Bag(a + b[..n]) + multiset{FingerprintOf(b[n])};
      assert Bag(b) == Bag(b[..n]) + multiset{FingerprintOf(b[n])};
      BagAppend(a, b[..n]);
    }
  }

  lemma {:induction false} BagSize(rs: Results)
    ensures |Bag(rs)| == |rs|
  {
    if rs != [] {
      BagSize(rs[..|rs| - 1]);
    }
  }

  lemma {:induction false} InBag(rs: Results, p: Fingerprint)
    ensures p in Bag(rs) <==> exists r :: r in rs && FingerprintOf(r) == p
  {
    if rs != [] {
      var n := |rs| - 1;
      InBag(rs[..n], p);
      assert rs == rs[..n] + [rs[n]];
      assert rs[n] in rs;
    }
  }

  lemma KeyInBag(rs: Results, k: string)
    ensures Reported(rs, k) <==> exists p :: p in Bag(rs) && p.key == k
  {
    if r :| r in rs && r.key == k {
      InBag(rs, FingerprintOf(r));
    }
    forall p | p in Bag(rs) && p.key == k
      ensures Reported(rs, k)
    {
      InBag(rs, p);
    }
  }

  // --------------------------------------------------------------- comparison

  function CountOf(count: map<Fingerprint, int>, p: Fingerprint): int {
    if p in count then count[p] else 0
  }

  lemma SameSizeBags(a: multiset<Fingerprint>, b: multiset<Fingerprint>)
    requires a <= b && |a| == |b|
    ensures a == b
  {
    assert b == a + (b - a);
    assert |b - a| == 0;
  }

  lemma BagStep(rs: Results, i: nat)
    requires i < |rs|
    ensures Bag(rs[..i + 1]) == Bag(rs[..i]) + multiset{FingerprintOf(rs[i])}
  {
    assert rs[..i + 1][..i] == rs[..i];
  }

  lemma BagPrefix(rs: Results, i: nat)
    requires i <= |rs|
    ensures Bag(rs[..i]) <= Bag(rs)
  {
    hide Bag;
    BagAppend(rs[..i], rs[i..]);
    assert rs[..i] + rs[i..] == rs;
  }

  /** The count map holds what `previous` has and the first part of `latest` has not. */
  ghost predicate Counted(count: map<Fingerprint, int>, previous: multiset<Fingerprint>,
                          latest: multiset<Fingerprint>)
  {
    forall p :: CountOf(count, p) + latest[p] == previous[p]
  }

  lemma NothingCounted()
    ensures Bag([]) == multiset{} && Counted(map[], multiset{}, multiset{})
  {
  }

  lemma CountedAdd(count: map<Fingerprint, int>, seen: multiset<Fingerprint>, p: Fingerprint)
    requires Counted(count, seen, multiset{})
    ensures Counted(count[p := CountOf(count, p) + 1], seen + multiset{p}, multiset{})
  {
  }

  lemma CountedRemove(count: map<Fingerprint, int>, previous: multiset<Fingerprint>, seen: multiset<Fingerprint>,
                      p: Fingerprint)
    requires Counted(count, previous, seen)
    ensures Counted(count[p := CountOf(count, p) - 1], previous, seen + multiset{p})
    ensures seen <= previous ==> (CountOf(count, p) - 1 >= 0 <==> seen + multiset{p} <= previous)
  {
    assert CountOf(count, p) + seen[p] == previous[p];
  }

  /** dataSyncResultsChanged: false exactly when every key, status and reason occurs
      equally often in both lists. */
  method DataSyncResultsChanged(previous: Results, latest: Results) returns (changed: bool)
    ensures changed <==> Bag(previous) != Bag(latest)
    ensures changed <==> exists k, v, x :: Count(previous, k, v, x) != Count(latest, k, v, x)
  {
    ChangedMeansDifferentCounts(previous, latest);
    hide Count, Bag, FingerprintOf, CountOf, Counted;
    BagSize(previous);
    BagSize(latest);
    if |previous| != |latest| {
      return true;
    }
    var count: map<Fingerprint, int> := map[];
    NothingCounted();
    assert previous[..0] == [] && latest[..0] == [];
    for i := 0 to |previous|
      invariant Counted(count, Bag(previous[..i]), multiset{})
    {
      BagStep(previous, i);
      var p := FingerprintOf(previous[i]);
      CountedAdd(count, Bag(previous[..i]), p);
      count := count[p := CountOf(count, p) + 1];
    }
    assert previous[..|previous|] == previous;
    for i := 0 to |latest|
      invariant Counted(count, Bag(previous), Bag(latest[..i]))
      invariant Bag(latest[..i]) <= Bag(previous)
    {
      BagStep(latest, i);
      var p := FingerprintOf(latest[i]);
      CountedRemove(count, Bag(previous), Bag(latest[..i]), p);
      var left := CountOf(count, p) - 1;
      count := count[p := left];
      if left < 0 {
        BagPrefix(latest, i + 1);
        return true;
      }
    }
    assert latest[..|latest|] == latest;
    SameSizeBags(Bag(latest), Bag(previous));
    return false;
  }

  // ------------------------------------------------------- the round's records

  function ErrorText(e: Error): string {
    if e.StaleClient? then "store client is stale, Store controller is rebuilding it" else e.reason
  }

  function FailedRecord(k: string, e: Error, now: nat): DataSyncResult {
    DataSyncResult(k, StatusFailed, Text(ErrorText(e)), now)
  }

  function SucceededRecord(now: nat): DataSyncResult {
    DataSyncResult("", StatusSucceeded, Text(""), now)
  }

  /** Go ranges over a map in any order; an order lists its keys, each once. */
  datatype Order = Order(data: seq<string>, extracts: seq<string>)

  ghost predicate Enumerates(order: seq<string>, keys: set<string>) {
    && (forall k :: k in order <==> k in keys)
    && (forall i, j | 0 <= i < j < |order| :: order[i] != order[j])
  }

  ghost predicate OrderOf(o: Order, f: Fetched) {
    Enumerates(o.data, f.dataErrors.Keys) && Enumerates(o.extracts, f.extractErrors.Keys)
  }

  /** One record per distinct key with an uncovered failed entry. */
  function DataRecords(ds: seq<DataSource>, f: Fetched, now: nat): Results {
    if ds == [] then []
    else
      var d := ds[|ds| - 1];
      var before := DataRecords(ds[..|ds| - 1], f, now);
      if Uncovered(d, f) && !Reported(before, d.key) then before + [FailedRecord(d.key, f.dataErrors[d.key], now)]
      else before
  }

  /** Error keys that belong to no spec entry. */
  function StrayRecords(order: seq<string>, ds: seq<DataSource>, f: Fetched, now: nat): Results {
    if order == [] then []
    else
      var k := order[|order| - 1];
      var before := StrayRecords(order[..|order| - 1], ds, f, now);
      if k in f.dataErrors && (forall d | d in ds :: d.key != k) then before + [FailedRecord(k, f.dataErrors[k], now)]
      else before
  }

  function ExtractRecords(order: seq<string>, f: Fetched, now: nat): Results {
    if order == [] then []
    else
      var k := order[|order| - 1];
      var before := ExtractRecords(order[..|order| - 1], f, now);
      if k in f.extractErrors && k !in f.extractSucceeded then before + [FailedRecord(k, f.extractErrors[k], now)]
      else before
  }

  function Failures(sp: Spec, f: Fetched, o: Order, now: nat): Results {
    DataRecords(sp.data, f, now) + StrayRecords(o.data, sp.data, f, now) + ExtractRecords(o.extracts, f, now)
  }

  function Build(sp: Spec, f: Fetched, o: Order, now: nat): Results {
    var rs := Failures(sp, f, o, now);
    if rs == [] then [SucceededRecord(now)] else rs
  }

  lemma DataRecordsStep(ds: seq<DataSource>, f: Fetched, now: nat, i: nat)
    requires i < |ds|
    ensures DataRecords(ds[..i + 1], f, now)
         == if Uncovered(ds[i], f) && !Reported(DataRecords(ds[..i], f, now), ds[i].key)
            then DataRecords(ds[..i], f, now) + [FailedRecord(ds[i].key, f.dataErrors[ds[i].key], now)]
            else DataRecords(ds[..i], f, now)
  {
    assert ds[..i + 1][..i] == ds[..i];
  }

  lemma ReportedSnoc(rs: Results, r: DataSyncResult, k: string)
    ensures Reported(rs + [r], k) <==> Reported(rs, k) || r.key == k
  {
    assert r in rs + [r];
    assert forall q | q in rs :: q in rs + [r];
  }

  // The three loops of buildDataSyncResults.

  method BuildDataRecords(ds: seq<DataSource>, f: Fetched, now: nat) returns (results: Results, handled: set<string>)
    ensures results == DataRecords(ds, f, now)
    ensures forall k :: k in handled <==> k in f.dataErrors && exists d :: d in ds && d.key == k
  {
    results, handled := [], {};
    var reportedFailed: set<string> := {};
    for i := 0 to |ds|
      invariant results == DataRecords(ds[..i], f, now)
      invariant forall k :: k in reportedFailed <==> Reported(results, k)
      invariant forall k :: k in handled <==> k in f.dataErrors && exists d :: d in ds[..i] && d.key == k
    {
      DataRecordsStep(ds, f, now, i);
      assert ds[..i + 1] == ds[..i] + [ds[i]];
      assert ds[i] in ds[..i + 1];
      hide DataRecords, Reported;
      var key := ds[i].key;
      if key !in f.dataErrors {
        continue;
      }
      handled := handled + {key};
      if key in reportedFailed {
        continue;
      }
      var covered := DataEntryTargetCovered(ds[i], f.out, f.dataSucceeded);
      if covered {
        continue;
      }
      forall k
        ensures Reported(results + [FailedRecord(key, f.dataErrors[key], now)], k) <==> Reported(results, k) || k == key
      {
        ReportedSnoc(results, FailedRecord(key, f.dataErrors[key], now), k);
      }
      reportedFailed := reportedFailed + {key};
      results := results + [FailedRecord(key, f.dataErrors[key], now)];
    }
    assert ds[..|ds|] == ds;
  }

  method BuildStrayRecords(order: seq<string>, ds: seq<DataSource>, handled: set<string>, f: Fetched, now: nat)
    returns (results: Results)
    requires forall k | k in order :: k in f.dataErrors
    requires forall k :: k in handled <==> k in f.dataErrors && exists d :: d in ds && d.key == k
    ensures results == StrayRecords(order, ds, f, now)
  {
    results := [];
    for i := 0 to |order|
      invariant results == StrayRecords(order[..i], ds, f, now)
    {
      assert order[..i + 1][..i] == order[..i];
      var k := order[i];
      if k !in handled {
        results := results + [FailedRecord(k, f.dataErrors[k], now)];
      }
    }
    assert order[..|order|] == order;
  }

  method BuildExtractRecords(order: seq<string>, f: Fetched, now: nat) returns (results: Results)
    requires forall k | k in order :: k in f.extractErrors
    ensures results == ExtractRecords(order, f, now)
  {
    results := [];
    for i := 0 to |order|
      invariant results == ExtractRecords(order[..i], f, now)
    {
      assert order[..i + 1][..i] == order[..i];
      var k := order[i];
      if k !in f.extractSucceeded {
        results := results + [FailedRecord(k, f.extractErrors[k], now)];
      }
    }
    assert order[..|order|] == order;
  }

  method BuildDataSyncResults(sp: Spec, f: Fetched, o: Order, now: nat) returns (results: Results)
    requires OrderOf(o, f)
    ensures results == Build(sp, f, o, now)
  {
    hide DataRecords, StrayRecords, ExtractRecords;
    var data, handled := BuildDataRecords(sp.data, f, now);
    var stray := BuildStrayRecords(o.data, sp.data, handled, f, now);
    var extracts := BuildExtractRecords(o.extracts, f, now);
    results := data + stray + extracts;
    if |results| == 0 {
      results := results + [SucceededRecord(now)];
    }
  }

  /** How many records carry key k. */
  function CountKey(rs: Results, k: string): nat {
    if rs == [] then 0 else CountKey(rs[..|rs| - 1], k) + (if rs[|rs| - 1].key == k then 1 else 0)
  }

  lemma {:induction false} CountKeyAppend(a: Results, b: Results, k: string)
    ensures CountKey(a + b, k) == CountKey(a, k) + CountKey(b, k)
  {
    if b == [] {
      assert a + b == a;
    } else {
      var n := |b| - 1;
      assert (a + b)[..|a| + n] == a + b[..n];
      CountKeyAppend(a, b[..n], k);
    }
  }

  /** Does some uncovered failed entry name document k? */
  predicate DataFailure(ds: seq<DataSource>, f: Fetched, k: string) {
    exists d :: d in ds && d.key == k && Uncovered(d, f)
  }

  predicate ExtractFailure(f: Fetched, k: string) {
    k in f.extractErrors && k !in f.extractSucceeded
  }

  predicate Stray(ds: seq<DataSource>, f: Fetched, k: string) {
    k in f.dataErrors && forall d | d in ds :: d.key != k
  }

  lemma {:induction false} DataRecordsExact(ds: seq<DataSource>, f: Fetched, now: nat, k: string)
    ensures CountKey(DataRecords(ds, f, now), k) == if DataFailure(ds, f, k) then 1 else 0
    ensures Reported(DataRecords(ds, f, now), k) <==> DataFailure(ds, f, k)
    ensures forall r | r in DataRecords(ds, f, now) ::
              r.key in f.dataErrors && r == FailedRecord(r.key, f.dataErrors[r.key], now)
  {
    if ds != [] {
      var n := |ds| - 1;
      DataRecordsExact(ds[..n], f, now, k);
      DataRecordsExact(ds[..n], f, now, ds[n].key);
      assert ds == ds[..n] + [ds[n]];
      assert ds[n] in ds;
      var before, after := DataRecords(ds[..n], f, now), DataRecords(ds, f, now);
      if after != before {
        assert after[..|after| - 1] == before;
        assert after[|after| - 1] in after;
      }
      assert DataFailure(ds, f, k) <==> DataFailure(ds[..n], f, k) || (ds[n].key == k && Uncovered(ds[n], f));
    }
  }

  lemma {:induction false} StrayRecordsExact(order: seq<string>, ds: seq<DataSource>, f: Fetched, now: nat, k: string)
    requires forall i, j | 0 <= i < j < |order| :: order[i] != order[j]
    ensures CountKey(StrayRecords(order, ds, f, now), k) == if k in order && Stray(ds, f, k) then 1 else 0
    ensures forall r | r in StrayRecords(order, ds, f, now) ::
              Stray(ds, f, r.key) && r == FailedRecord(r.key, f.dataErrors[r.key], now)
  {
    if order != [] {
      var n := |order| - 1;
      StrayRecordsExact(order[..n], ds, f, now, k);
      assert order == order[..n] + [order[n]];
      var before, after := StrayRecords(order[..n], ds, f, now), StrayRecords(order, ds, f, now);
      if after != before {
        assert after[..|after| - 1] == before;
      }
    }
  }

  lemma {:induction false} ExtractRecordsExact(order: seq<string>, f: Fetched, now: nat, k: string)
    requires forall i, j | 0 <= i < j < |order| :: order[i] != order[j]
    ensures CountKey(ExtractRecords(order, f, now), k) == if k in order && ExtractFailure(f, k) then 1 else 0
    ensures forall r | r in ExtractRecords(order, f, now) ::
              ExtractFailure(f, r.key) && r == FailedRecord(r.key, f.extractErrors[r.key], now)
  {
    if order != [] {
      var n := |order| - 1;
      ExtractRecordsExact(order[..n], f, now, k);
      assert order == order[..n] + [order[n]];
      var before, after := ExtractRecords(order[..n], f, now), ExtractRecords(order, f, now);
      if after != before {
        assert after[..|after| - 1] == before;
      }
    }
  }

  lemma {:induction false} CountedKeyIsReported(rs: Results, k: string)
    ensures CountKey(rs, k) > 0 <==> Reported(rs, k)
  {
    if rs != [] {
      var n := |rs| - 1;
      CountedKeyIsReported(rs[..n], k);
      assert rs == rs[..n] + [rs[n]];
      assert rs[n] in rs;
    }
  }

  /** Does some extract entry naming document k fail with no successful sibling? */
  predicate ExtractEntryFailure(ps: seq<DataProcess>, f: Fetched, k: string) {
    exists p :: p in ps && ExtractFailing(p, f) && p.extract.value.key == k
  }

  lemma FailuresExist(sp: Spec, f: Fetched)
    ensures FailedSources(sp, f) > 0
       <==> exists k :: DataFailure(sp.data, f, k) || ExtractEntryFailure(sp.dataProcess, f, k)
  {
    CountingIsExact(sp, f);
    if i :| 0 <= i < |sp.data| && Uncovered(sp.data[i], f) {
      assert DataFailure(sp.data, f, sp.data[i].key);
    }
    if i :| 0 <= i < |sp.dataProcess| && ExtractFailing(sp.dataProcess[i], f) {
      assert ExtractEntryFailure(sp.dataProcess, f, sp.dataProcess[i].extract.value.key);
    }
  }

  /** A round reports success exactly when no source was counted as failed; otherwise
      each failed document has one record on the data side and one on the extract
      side, whatever order the error maps were read in, and nothing else is reported. */
  lemma StatusAgreesWithCounting(sp: Spec, a: Answers, o: Order, now: nat)
    requires Aligned(sp, a) && OrderOf(o, FetchAll(sp, a))
    ensures Build(sp, FetchAll(sp, a), o, now) == [SucceededRecord(now)] <==> FailedSources(sp, FetchAll(sp, a)) == 0
    ensures FailedSources(sp, FetchAll(sp, a)) > 0 ==>
              forall k :: CountKey(Build(sp, FetchAll(sp, a), o, now), k)
                       == (if DataFailure(sp.data, FetchAll(sp, a), k) then 1 else 0)
                        + (if ExtractEntryFailure(sp.dataProcess, FetchAll(sp, a), k) then 1 else 0)
  {
    var f := FetchAll(sp, a);
    var rs := Failures(sp, f, o, now);
    forall k
      ensures CountKey(rs, k)
           == (if DataFailure(sp.data, f, k) then 1 else 0)
            + (if ExtractEntryFailure(sp.dataProcess, f, k) then 1 else 0)
      ensures CountKey(rs, k) > 0 <==> Reported(rs, k)
    {
      FailuresCounted(sp, a, o, now, k);
      CountedKeyIsReported(rs, k);
    }
    FailuresExist(sp, f);
    FailuresAreFailed(sp, f, o, now);
    hide Failures, FetchAll, CountKey, DataFailure, ExtractEntryFailure, FailedSources;
    if rs != [] {
      assert rs[0] in rs;
      assert Reported(rs, rs[0].key);
      assert CountKey(rs, rs[0].key) > 0;
    }
    if k :| DataFailure(sp.data, f, k) || ExtractEntryFailure(sp.dataProcess, f, k) {
      assert CountKey(rs, k) > 0;
      assert Reported(rs, k);
    }
  }

  lemma FailuresCounted(sp: Spec, a: Answers, o: Order, now: nat, k: string)
    requires Aligned(sp, a) && OrderOf(o, FetchAll(sp, a))
    ensures CountKey(Failures(sp, FetchAll(sp, a), o, now), k)
         == (if DataFailure(sp.data, FetchAll(sp, a), k) then 1 else 0)
          + (if ExtractEntryFailure(sp.dataProcess, FetchAll(sp, a), k) then 1 else 0)
  {
    var f := FetchAll(sp, a);
    var d, s := DataRecords(sp.data, f, now), StrayRecords(o.data, sp.data, f, now);
    var x := ExtractRecords(o.extracts, f, now);
    CountKeyAppend(d + s, x, k);
    CountKeyAppend(d, s, k);
    DataRecordsExact(sp.data, f, now, k);
    StrayRecordsExact(o.data, sp.data, f, now, k);
    ExtractRecordsExact(o.extracts, f, now, k);
    ErrorKeys(sp.data, a.data, k);
    ExtractErrorKeys(sp.dataProcess, a.extracts, k);
    if k in f.dataErrors {
      var i :| 0 <= i < |sp.data| && a.data[i].Failed? && sp.data[i].key == k;
      assert sp.data[i] in sp.data;
    }
    if ExtractFailure(f, k) {
      var ps := sp.dataProcess;
      var i :| 0 <= i < |ps| && ps[i].extract.Some? && a.extracts[i].ExtractFailed? && ps[i].extract.value.key == k;
      assert sp.dataProcess[i] in sp.dataProcess && ExtractFailing(sp.dataProcess[i], f);
    }
  }

  lemma FailuresAreFailed(sp: Spec, f: Fetched, o: Order, now: nat)
    requires OrderOf(o, f)
    ensures forall r | r in Failures(sp, f, o, now) :: r.status == StatusFailed
  {
    DataRecordsExact(sp.data, f, now, "");
    StrayRecordsExact(o.data, sp.data, f, now, "");
    ExtractRecordsExact(o.extracts, f, now, "");
  }

  // ------------------------------------------------- independence of map order

  lemma {:induction false} BagOfRecords(rs: Results, p: Fingerprint)
    requires forall r | r in rs && r.key == p.key :: FingerprintOf(r) == p
    ensures Bag(rs)[p] == CountKey(rs, p.key)
  {
    if rs != [] {
      var n := |rs| - 1;
      assert rs == rs[..n] + [rs[n]];
      assert rs[n] in rs;
      BagOfRecords(rs[..n], p);
    }
  }

  lemma {:induction false} BagWithout(rs: Results, p: Fingerprint)
    requires forall r | r in rs :: FingerprintOf(r) != p
    ensures Bag(rs)[p] == 0
  {
    if rs != [] {
      var n := |rs| - 1;
      assert rs == rs[..n] + [rs[n]];
      assert rs[n] in rs;
      BagWithout(rs[..n], p);
    }
  }

  lemma StrayBag(o1: seq<string>, o2: seq<string>, ds: seq<DataSource>, f: Fetched, t1: nat, t2: nat)
    requires Enumerates(o1, f.dataErrors.Keys) && Enumerates(o2, f.dataErrors.Keys)
    ensures Bag(StrayRecords(o1, ds, f, t1)) == Bag(StrayRecords(o2, ds, f, t2))
  {
    var r1, r2 := StrayRecords(o1, ds, f, t1), StrayRecords(o2, ds, f, t2);
    forall p
      ensures Bag(r1)[p] == Bag(r2)[p]
    {
      StrayRecordsExact(o1, ds, f, t1, p.key);
      StrayRecordsExact(o2, ds, f, t2, p.key);
      if p.key in f.dataErrors && p == FingerprintOf(FailedRecord(p.key, f.dataErrors[p.key], 0)) {
        BagOfRecords(r1, p);
        BagOfRecords(r2, p);
      } else {
        BagWithout(r1, p);
        BagWithout(r2, p);
      }
    }
  }

  lemma ExtractBag(o1: seq<string>, o2: seq<string>, f: Fetched, t1: nat, t2: nat)
    requires Enumerates(o1, f.extractErrors.Keys) && Enumerates(o2, f.extractErrors.Keys)
    ensures Bag(ExtractRecords(o1, f, t1)) == Bag(ExtractRecords(o2, f, t2))
  {
    var r1, r2 := ExtractRecords(o1, f, t1), ExtractRecords(o2, f, t2);
    forall p
      ensures Bag(r1)[p] == Bag(r2)[p]
    {
      ExtractRecordsExact(o1, f, t1, p.key);
      ExtractRecordsExact(o2, f, t2, p.key);
      if p.key in f.extractErrors && p == FingerprintOf(FailedRecord(p.key, f.extractErrors[p.key], 0)) {
        BagOfRecords(r1, p);
        BagOfRecords(r2, p);
      } else {
        BagWithout(r1, p);
        BagWithout(r2, p);
      }
    }
  }

  lemma {:induction false} DataBag(ds: seq<DataSource>, f: Fetched, t1: nat, t2: nat)
    ensures Bag(DataRecords(ds, f, t1)) == Bag(DataRecords(ds, f, t2))
  {
    if ds != [] {
      var n := |ds| - 1;
      DataBag(ds[..n], f, t1, t2);
      KeyInBag(DataRecords(ds[..n], f, t1), ds[n].key);
      KeyInBag(DataRecords(ds[..n], f, t2), ds[n].key);
      var b1, b2 := DataRecords(ds[..n], f, t1), DataRecords(ds[..n], f, t2);
      if Uncovered(ds[n], f) && !Reported(b1, ds[n].key) {
        BagAppend(b1, [FailedRecord(ds[n].key, f.dataErrors[ds[n].key], t1)]);
        BagAppend(b2, [FailedRecord(ds[n].key, f.dataErrors[ds[n].key], t2)]);
      }
    }
  }

  /** The same failures give the same records, in whatever order and at whatever time. */
  lemma BuildIsOrderFree(sp: Spec, f: Fetched, o1: Order, o2: Order, t1: nat, t2: nat)
    requires OrderOf(o1, f) && OrderOf(o2, f)
    ensures Bag(Build(sp, f, o1, t1)) == Bag(Build(sp, f, o2, t2))
  {
    DataBag(sp.data, f, t1, t2);
    StrayBag(o1.data, o2.data, sp.data, f, t1, t2);
    ExtractBag(o1.extracts, o2.extracts, f, t1, t2);
    BagAppend(DataRecords(sp.data, f, t1), StrayRecords(o1.data, sp.data, f, t1));
    BagAppend(DataRecords(sp.data, f, t2), StrayRecords(o2.data, sp.data, f, t2));
    BagAppend(DataRecords(sp.data, f, t1) + StrayRecords(o1.data, sp.data, f, t1), ExtractRecords(o1.extracts, f, t1));
    BagAppend(DataRecords(sp.data, f, t2) + StrayRecords(o2.data, sp.data, f, t2), ExtractRecords(o2.extracts, f, t2));
    BagSize(Failures(sp, f, o1, t1));
    BagSize(Failures(sp, f, o2, t2));
  }

  // --------------------------------------------------- placeholders and notice

  function Retained(latest: Results, previous: Results): Results {
    if previous == [] then []
    else
      var r := previous[|previous| - 1];
      var before := Retained(latest, previous[..|previous| - 1]);
      if r.key in PLACEHOLDER_KEYS && !Reported(latest, r.key) && !Reported(before, r.key) then before + [r] else before
  }

  method RetainResourceManagementPlaceholder(latest: Results, previous: Results) returns (results: Results)
    ensures results == latest + Retained(latest, previous)
  {
    var existing: set<string> := set r | r in latest :: r.key;
    var retained: Results := [];
    for i := 0 to |previous|
      invariant retained == Retained(latest, previous[..i])
      invariant forall k :: k in existing <==> Reported(latest, k) || Reported(retained, k)
    {
      assert previous[..i + 1][..i] == previous[..i];
      var r := previous[i];
      if r.key !in PLACEHOLDER_KEYS || r.key in existing {
        continue;
      }
      retained := retained + [r];
      existing := existing + {r.key};
    }
    assert previous[..|previous|] == previous;
    results := latest + retained;
  }

  /** The entries a new placeholder leaves in place. */
  function Kept(previous: Results): Results {
    if previous == [] then []
    else
      var r := previous[|previous| - 1];
      var before := Kept(previous[..|previous| - 1]);
      if r.key == NOTICE_KEY || (r.key !in PLACEHOLDER_KEYS && r.key != "") then before + [r] else before
  }

  method MergeResourceManagementResults(previous: Results, placeholder: DataSyncResult) returns (merged: Results)
    ensures merged == Kept(previous) + [placeholder]
  {
    merged := [];
    for i := 0 to |previous|
      invariant merged == Kept(previous[..i])
    {
      assert previous[..i + 1][..i] == previous[..i];
      var r := previous[i];
      if r.key == NOTICE_KEY {
        merged := merged + [r];
        continue;
      }
      if r.key in PLACEHOLDER_KEYS || r.key == "" {
        continue;
      }
      merged := merged + [r];
    }
    assert previous[..|previous|] == previous;
    merged := merged + [placeholder];
  }

  function FirstNotice(rs: Results): Option<DataSyncResult> {
    if rs == [] then None else if rs[0].key == NOTICE_KEY then Some(rs[0]) else FirstNotice(rs[1..])
  }

  function RetainNotice(latest: Results, previous: Results): Results {
    if Reported(latest, NOTICE_KEY) || FirstNotice(previous).None? then latest
    else latest + [FirstNotice(previous).value]
  }

  method RetainCSSDisabledNotice(latest: Results, previous: Results) returns (results: Results)
    ensures results == RetainNotice(latest, previous)
  {
    for i := 0 to |latest|
      invariant forall j | 0 <= j < i :: latest[j].key != NOTICE_KEY
    {
      if latest[i].key == NOTICE_KEY {
        assert latest[i] in latest;
        return latest;
      }
    }
    assert !Reported(latest, NOTICE_KEY);
    for i := 0 to |previous|
      invariant FirstNotice(previous) == FirstNotice(previous[i..])
    {
      if previous[i].key == NOTICE_KEY {
        return latest + [previous[i]];
      }
    }
    return latest;
  }

  /** recordCSSControllerDisabledStatus keeps every entry but earlier notices. */
  function WithoutNotice(rs: Results): Results {
    if rs == [] then []
    else
      var r := rs[|rs| - 1];
      var before := WithoutNotice(rs[..|rs| - 1]);
      if r.key == NOTICE_KEY then before else before + [r]
  }

  method WithNotice(previous: Results, notice: DataSyncResult) returns (merged: Results)
    ensures merged == WithoutNotice(previous) + [notice]
  {
    merged := [];
    for i := 0 to |previous|
      invariant merged == WithoutNotice(previous[..i])
    {
      assert previous[..i + 1][..i] == previous[..i];
      if previous[i].key == NOTICE_KEY {
        continue;
      }
      merged := merged + [previous[i]];
    }
    assert previous[..|previous|] == previous;
    merged := merged + [notice];
  }

  /** The notice is there once, and nothing else carries its key. */
  ghost predicate OneNotice(bag: multiset<Fingerprint>, notice: Fingerprint) {
    forall p: Fingerprint | p.key == NOTICE_KEY :: bag[p] == if p == notice then 1 else 0
  }

  lemma {:induction false} WithoutNoticeBag(rs: Results, p: Fingerprint)
    ensures Bag(WithoutNotice(rs))[p] == if p.key == NOTICE_KEY then 0 else Bag(rs)[p]
  {
    if rs != [] {
      var n := |rs| - 1;
      WithoutNoticeBag(rs[..n], p);
      BagAppend(WithoutNotice(rs[..n]), [rs[n]]);
    }
  }

  lemma WithNoticeBag(rs: Results, notice: DataSyncResult, p: Fingerprint)
    ensures Bag(WithoutNotice(rs) + [notice])[p]
         == (if p.key == NOTICE_KEY then 0 else Bag(rs)[p]) + (if p == FingerprintOf(notice) then 1 else 0)
  {
    BagAppend(WithoutNotice(rs), [notice]);
    WithoutNoticeBag(rs, p);
    assert Bag([notice]) == multiset{FingerprintOf(notice)};
    hide Bag, WithoutNotice;
  }

  lemma SettledBags(before: multiset<Fingerprint>, after: multiset<Fingerprint>, notice: Fingerprint)
    requires notice.key == NOTICE_KEY
    requires forall p: Fingerprint ::
               after[p] == (if p.key == NOTICE_KEY then 0 else before[p]) + (if p == notice then 1 else 0)
    ensures OneNotice(after, notice)
    ensures after == before <==> OneNotice(before, notice)
  {
    hide NOTICE_KEY;
    if OneNotice(before, notice) {
      forall p: Fingerprint
        ensures after[p] == before[p]
      {
        assert p.key == NOTICE_KEY ==> before[p] == if p == notice then 1 else 0;
      }
    }
  }

  /** Recording the notice settles on exactly one copy, and is a no-op from then on. */
  lemma NoticeSettles(rs: Results, notice: DataSyncResult)
    requires notice.key == NOTICE_KEY
    ensures OneNotice(Bag(WithoutNotice(rs) + [notice]), FingerprintOf(notice))
    ensures Bag(WithoutNotice(rs) + [notice]) == Bag(rs) <==> OneNotice(Bag(rs), FingerprintOf(notice))
  {
    hide Bag, WithoutNotice, OneNotice, NOTICE_KEY;
    forall p: Fingerprint
      ensures Bag(WithoutNotice(rs) + [notice])[p]
           == (if p.key == NOTICE_KEY then 0 else Bag(rs)[p]) + (if p == FingerprintOf(notice) then 1 else 0)
    {
      WithNoticeBag(rs, notice, p);
    }
    SettledBags(Bag(rs), Bag(WithoutNotice(rs) + [notice]), FingerprintOf(notice));
  }

  lemma {:induction false} FirstNoticeFound(rs: Results)
    ensures FirstNotice(rs).None? <==> !Reported(rs, NOTICE_KEY)
    ensures FirstNotice(rs).Some? ==> FirstNotice(rs).value in rs && FirstNotice(rs).value.key == NOTICE_KEY
  {
    if rs != [] {
      FirstNoticeFound(rs[1..]);
      assert rs == [rs[0]] + rs[1..];
      assert rs[0] in rs;
    }
  }

  lemma RetainNoticeBag(latest: Results, previous: Results, notice: Fingerprint)
    requires notice.key == NOTICE_KEY && OneNotice(Bag(previous), notice)
    ensures Reported(latest, NOTICE_KEY) ==> RetainNotice(latest, previous) == latest
    ensures !Reported(latest, NOTICE_KEY) ==> Bag(RetainNotice(latest, previous)) == Bag(latest) + multiset{notice}
  {
    FirstNoticeFound(previous);
    assert Bag(previous)[notice] == 1;
    KeyInBag(previous, NOTICE_KEY);
    var r := FirstNotice(previous).value;
    InBag(previous, FingerprintOf(r));
    assert Bag(previous)[FingerprintOf(r)] == if FingerprintOf(r) == notice then 1 else 0;
    BagAppend(latest, [r]);
    assert Bag([r]) == multiset{notice};
  }

  lemma {:induction false} RetainedKeys(latest: Results, previous: Results)
    ensures forall r | r in Retained(latest, previous) :: r.key in PLACEHOLDER_KEYS && r in previous
  {
    if previous != [] {
      RetainedKeys(latest, previous[..|previous| - 1]);
    }
  }

  /** Entries a new placeholder never displaces: document records and the notice. */
  predicate Genuine(k: string) {
    k == NOTICE_KEY || (k !in PLACEHOLDER_KEYS && k != "")
  }

  lemma {:induction false} KeptBag(rs: Results, p: Fingerprint)
    ensures Bag(Kept(rs))[p] == if Genuine(p.key) then Bag(rs)[p] else 0
  {
    if rs != [] {
      var n := |rs| - 1;
      KeptBag(rs[..n], p);
      BagAppend(Kept(rs[..n]), [rs[n]]);
      hide PLACEHOLDER_KEYS, NOTICE_KEY;
    }
  }

  /** A placeholder replaces every earlier one and the success verdict, and leaves each
      genuine record with its multiplicity. */
  lemma PlaceholderSupersedes(rs: Results, placeholder: DataSyncResult, p: Fingerprint)
    requires placeholder.key in PLACEHOLDER_KEYS
    ensures Bag(Kept(rs) + [placeholder])[p]
         == (if Genuine(p.key) then Bag(rs)[p] else 0) + (if p == FingerprintOf(placeholder) then 1 else 0)
  {
    KeptBag(rs, p);
    BagAppend(Kept(rs), [placeholder]);
    assert Bag([placeholder]) == multiset{FingerprintOf(placeholder)};
    hide PLACEHOLDER_KEYS, NOTICE_KEY, Bag, Kept;
  }

  /** What the deferred write keeps of a round's own placeholders: one record per
      placeholder key that the fresh results do not report themselves. */
  lemma {:induction false} RetainedExact(latest: Results, previous: Results, k: string)
    ensures CountKey(Retained(latest, previous), k)
         == if k in PLACEHOLDER_KEYS && !Reported(latest, k) && Reported(previous, k) then 1 else 0
  {
    if previous != [] {
      var n := |previous| - 1;
      var before := Retained(latest, previous[..n]);
      RetainedExact(latest, previous[..n], k);
      CountedKeyIsReported(before, k);
      assert previous == previous[..n] + [previous[n]];
      assert previous[n] in previous;
      CountKeyAppend(before, [previous[n]], k);
      assert CountKey([previous[n]], k) == if previous[n].key == k then 1 else 0;
      RetainedExact(latest, previous[..n], previous[n].key);
      CountedKeyIsReported(before, previous[n].key);
      hide PLACEHOLDER_KEYS;
    }
  }

  // ------------------------------------------- what the comparison looks at

  /** How many records say this, compared field by field. */
  function Count(rs: Results, k: string, v: Verdict, x: Reason): nat {
    if rs == [] then 0
    else
      var r := rs[|rs| - 1];
      Count(rs[..|rs| - 1], k, v, x) + (if r.key == k && r.status == v && r.reason == x then 1 else 0)
  }

  lemma {:induction false} CountIsMultiplicity(rs: Results, k: string, v: Verdict, x: Reason)
    ensures Bag(rs)[Fingerprint(k, v, x)] == Count(rs, k, v, x)
  {
    if rs != [] {
      CountIsMultiplicity(rs[..|rs| - 1], k, v, x);
    }
  }

  /** Two lists count as changed exactly when some key, status and reason occur a
      different number of times; order and time do not matter. */
  lemma ChangedMeansDifferentCounts(previous: Results, latest: Results)
    ensures Bag(previous) != Bag(latest)
       <==> exists k, v, x :: Count(previous, k, v, x) != Count(latest, k, v, x)
  {
    if forall k, v, x :: Count(previous, k, v, x) == Count(latest, k, v, x) {
      forall p: Fingerprint
        ensures Bag(previous)[p] == Bag(latest)[p]
      {
        CountIsMultiplicity(previous, p.key, p.status, p.reason);
        CountIsMultiplicity(latest, p.key, p.status, p.reason);
        assert Count(previous, p.key, p.status, p.reason) == Count(latest, p.key, p.status, p.reason);
      }
    } else {
      var k, v, x :| Count(previous, k, v, x) != Count(latest, k, v, x);
      CountIsMultiplicity(previous, k, v, x);
      CountIsMultiplicity(latest, k, v, x);
    }
  }

  // -------------------------------------------------- what the records carry

  /** The text recorded for an error: its own, or the guard's for a stale client. */
  predicate TextOf(e: Error, r: DataSyncResult) {
    match e
    case StaleClient => r.reason == Text("store client is stale, Store controller is rebuilding it")
    case Failure(reason) => r.reason == Text(reason)
  }

  /** Entry n's error is the one kept for its document. */
  predicate LastFailure(ds: seq<DataSource>, fs: seq<Fetch>, n: int)
    requires |fs| == |ds|
  {
    && 0 <= n < |ds| && fs[n].Failed?
    && forall m | n < m < |ds| && ds[m].key == ds[n].key :: fs[m].Got?
  }

  predicate LastExtractFailure(ps: seq<DataProcess>, fs: seq<ExtractFetch>, n: int)
    requires |fs| == |ps|
  {
    && 0 <= n < |ps| && ps[n].extract.Some? && fs[n].ExtractFailed?
    && forall m | n < m < |ps| && ps[m].extract.Some? && ps[m].extract.value.key == ps[n].extract.value.key ::
         fs[m].ExtractGot?
  }

  lemma LatestFailure(ds: seq<DataSource>, fs: seq<Fetch>, k: string, from_: nat) returns (n: nat)
    requires |fs| == |ds| && from_ < |ds| && fs[from_].Failed? && ds[from_].key == k
    ensures LastFailure(ds, fs, n) && ds[n].key == k
    decreases |ds| - from_
  {
    if m: nat :| from_ < m < |ds| && fs[m].Failed? && ds[m].key == k {
      n := LatestFailure(ds, fs, k, m);
    } else {
      n := from_;
    }
  }

  lemma LatestExtractFailure(ps: seq<DataProcess>, fs: seq<ExtractFetch>, k: string, from_: nat) returns (n: nat)
    requires |fs| == |ps| && from_ < |ps|
    requires ps[from_].extract.Some? && fs[from_].ExtractFailed? && ps[from_].extract.value.key == k
    ensures LastExtractFailure(ps, fs, n) && ps[n].extract.value.key == k
    decreases |ps| - from_
  {
    if m: nat :| from_ < m < |ps| && ps[m].extract.Some? && fs[m].ExtractFailed? && ps[m].extract.value.key == k {
      n := LatestExtractFailure(ps, fs, k, m);
    } else {
      n := from_;
    }
  }

  lemma LastFailureOf(ds: seq<DataSource>, fs: seq<Fetch>, k: string) returns (n: nat)
    requires |fs| == |ds| && k in Errors(ds, fs)
    ensures LastFailure(ds, fs, n) && ds[n].key == k && Errors(ds, fs)[k] == fs[n].error
  {
    ErrorKeys(ds, fs, k);
    n :| n < |ds| && fs[n].Failed? && ds[n].key == k;
    n := LatestFailure(ds, fs, k, n);
    ErrorsExact(ds, fs, n);
  }

  lemma LastExtractFailureOf(ps: seq<DataProcess>, fs: seq<ExtractFetch>, k: string) returns (n: nat)
    requires |fs| == |ps| && k in ExtractErrors(ps, fs)
    ensures LastExtractFailure(ps, fs, n) && ps[n].extract.value.key == k && ExtractErrors(ps, fs)[k] == fs[n].error
  {
    ExtractErrorKeys(ps, fs, k);
    n :| n < |ps| && ps[n].extract.Some? && fs[n].ExtractFailed? && ps[n].extract.value.key == k;
    n := LatestExtractFailure(ps, fs, k, n);
    ExtractErrorsExact(ps, fs, n);
  }

  /** Entry n or extract n is where a record's message comes from. */
  ghost predicate FromFailure(sp: Spec, a: Answers, r: DataSyncResult)
    requires Aligned(sp, a)
  {
    || (exists n :: LastFailure(sp.data, a.data, n) && sp.data[n].key == r.key && TextOf(a.data[n].error, r))
    || (exists n :: LastExtractFailure(sp.dataProcess, a.extracts, n) && sp.dataProcess[n].extract.value.key == r.key
                    && TextOf(a.extracts[n].error, r))
  }

  /** Every record of a round is stamped with the round's time. It is the one success
      record, or it names a failed document and carries the message of the last entry
      that failed to fetch it. */
  lemma RecordsCarryTheirErrors(sp: Spec, a: Answers, o: Order, now: nat, r: DataSyncResult)
    requires Aligned(sp, a) && OrderOf(o, FetchAll(sp, a)) && r in Build(sp, FetchAll(sp, a), o, now)
    ensures r.time == now
    ensures || (&& r.key == "" && r.status == StatusSucceeded && r.reason == Text("")
                && |Build(sp, FetchAll(sp, a), o, now)| == 1)
            || (r.status == StatusFailed && FromFailure(sp, a, r))
  {
    var f := FetchAll(sp, a);
    if r in Failures(sp, f, o, now) {
      DataRecordsExact(sp.data, f, now, "");
      StrayRecordsExact(o.data, sp.data, f, now, "");
      ExtractRecordsExact(o.extracts, f, now, "");
      if r in ExtractRecords(o.extracts, f, now) {
        var n := LastExtractFailureOf(sp.dataProcess, a.extracts, r.key);
      } else {
        var n := LastFailureOf(sp.data, a.data, r.key);
      }
    }
    hide DataRecords, StrayRecords, ExtractRecords, Errors, ExtractErrors;
  }
}
