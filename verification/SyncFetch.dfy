/** The fetch stage of a sync round: what each declared source emits, which keys
    failed and which succeeded (getExternalSecret, getExternalSecretWithExtract and
    the key derivation behind them). Backend answers are arbitrary inputs. */
module SyncFetch {
  import opened Wrappers
  import opened ExternalSecrets

  type Data = map<string, string>

  /** A per-source error; the freshness guard's is told apart from all others. */
  datatype Error = StaleClient | Failure(reason: string)

  /** Evaluating the jmesPath expressions: the document may not parse, and each
      expression may match nothing. */
  datatype Matches = Unparsable | Values(values: seq<Option<string>>)

  datatype Fetch = Failed(error: Error) | Got(raw: string, matches: Matches)

  /** A fetched extract entry, after its key and value rewriting. */
  datatype ExtractFetch = ExtractFailed(error: Error) | ExtractGot(data: Data)

  /** common.ResolveTargetKey. */
  function ResolveTargetKey(d: DataSource): string {
    if d.name != "" then d.name else d.key
  }

  function AliasKey(d: DataSource, jp: JMESPath): string {
    if jp.alias != "" then jp.alias else d.key
  }

  /** jmesPathTargetKeys, as a set. */
  function AliasKeys(d: DataSource): set<string> {
    set jp | jp in d.jmesPath :: AliasKey(d, jp)
  }

  /** The keys a failed entry is assumed to own. */
  function TargetKeys(d: DataSource): set<string> {
    AliasKeys(d) + {ResolveTargetKey(d)}
  }

  /** utils.GetJsonSecrets: matched expressions, in order, later ones winning. */
  function JsonSecrets(d: DataSource, exprs: seq<JMESPath>, values: seq<Option<string>>): (m: Data)
    ensures m.Keys <= set jp | jp in exprs :: AliasKey(d, jp)
  {
    if exprs == [] then map[]
    else
      var n := |exprs| - 1;
      var before := JsonSecrets(d, exprs[..n], values);
      if n < |values| && values[n].Some? then before[AliasKey(d, exprs[n]) := values[n].value] else before
  }

  method GetJsonSecrets(d: DataSource, values: seq<Option<string>>) returns (jsonMap: Data)
    ensures jsonMap == JsonSecrets(d, d.jmesPath, values)
  {
    jsonMap := map[];
    var exprs := d.jmesPath;
    for i := 0 to |exprs|
      invariant jsonMap == JsonSecrets(d, exprs[..i], values)
    {
      assert exprs[..i + 1][..i] == exprs[..i];
      if i >= |values| || values[i].None? {
        continue;
      }
      var targetKey := exprs[i].alias;
      if targetKey == "" {
        targetKey := d.key;
      }
      jsonMap := jsonMap[targetKey := values[i].value];
    }
    assert exprs[..|exprs|] == exprs;
  }

  /** Expression n matched, and no later expression that writes the same key did. */
  predicate Decides(d: DataSource, exprs: seq<JMESPath>, values: seq<Option<string>>, n: int) {
    && 0 <= n < |exprs| && n < |values| && values[n].Some?
    && forall m | n < m < |exprs| && m < |values| && AliasKey(d, exprs[m]) == AliasKey(d, exprs[n]) :: values[m].None?
  }

  /** Each key holds the value of the last matched expression that writes it. */
  lemma {:induction false} JsonSecretsValue(d: DataSource, exprs: seq<JMESPath>, values: seq<Option<string>>, n: nat)
    requires Decides(d, exprs, values, n)
    ensures AliasKey(d, exprs[n]) in JsonSecrets(d, exprs, values)
    ensures JsonSecrets(d, exprs, values)[AliasKey(d, exprs[n])] == values[n].value
    decreases |exprs|
  {
    hide AliasKey;
    var last := |exprs| - 1;
    if n < last {
      assert Decides(d, exprs[..last], values, n);
      JsonSecretsValue(d, exprs[..last], values, n);
    }
  }

  /** There are no other keys. */
  lemma {:induction false} JsonSecretsKey(d: DataSource, exprs: seq<JMESPath>, values: seq<Option<string>>, k: string)
    returns (n: nat)
    requires k in JsonSecrets(d, exprs, values)
    ensures Decides(d, exprs, values, n) && AliasKey(d, exprs[n]) == k
    decreases |exprs|
  {
    hide AliasKey;
    var last := |exprs| - 1;
    if last < |values| && values[last].Some? && AliasKey(d, exprs[last]) == k {
      n := last;
    } else {
      n := JsonSecretsKey(d, exprs[..last], values, k);
    }
  }

  /** ProcessExternalSecretData: matched aliases, or the raw document under the
      entry's own key when nothing matched. */
  function Emission(d: DataSource, raw: string, ms: Matches): Data {
    var m := if ms.Values? then JsonSecrets(d, d.jmesPath, ms.values) else map[];
    if m != map[] then m else map[ResolveTargetKey(d) := raw]
  }

  method ProcessExternalSecretData(d: DataSource, raw: string, ms: Matches) returns (secretDatas: Data)
    ensures secretDatas == Emission(d, raw, ms)
  {
    if |d.jmesPath| > 0 && ms.Values? {
      secretDatas := GetJsonSecrets(d, ms.values);
      if |secretDatas| > 0 {
        return;
      }
      assert secretDatas == map[];
    }
    secretDatas := map[ResolveTargetKey(d) := raw];
  }

  /** The success path and the static derivation used for failed entries agree: a
      key is assumed owned exactly when some backend answer would emit it. */
  lemma TargetKeysAreEmittable(d: DataSource, k: string)
    ensures k in TargetKeys(d) <==> exists raw, ms :: k in Emission(d, raw, ms)
  {
    if k == ResolveTargetKey(d) {
      assert k in Emission(d, "", Unparsable);
    } else if k in TargetKeys(d) {
      var jp :| jp in d.jmesPath && AliasKey(d, jp) == k;
      var n :| 0 <= n < |d.jmesPath| && d.jmesPath[n] == jp;
      var values := seq(|d.jmesPath|, _ => Some(""));
      AllMatched(d, d.jmesPath, values, n);
      assert k in Emission(d, "", Values(values));
    }
    forall raw, ms | k in Emission(d, raw, ms)
      ensures k in TargetKeys(d)
    {
    }
  }

  lemma {:induction false} AllMatched(d: DataSource, exprs: seq<JMESPath>, values: seq<Option<string>>, n: nat)
    requires n < |exprs| <= |values| && forall i | 0 <= i < |exprs| :: values[i].Some?
    ensures AliasKey(d, exprs[n]) in JsonSecrets(d, exprs, values)
  {
    if n < |exprs| - 1 {
      AllMatched(d, exprs[..|exprs| - 1], values, n);
    }
  }

  lemma EmissionNonEmpty(d: DataSource, raw: string, ms: Matches)
    ensures Emission(d, raw, ms) != map[]
    ensures Emission(d, raw, ms).Keys <= TargetKeys(d)
    ensures d.jmesPath == [] ==> Emission(d, raw, ms) == map[ResolveTargetKey(d) := raw]
  {
    assert ResolveTargetKey(d) in map[ResolveTargetKey(d) := raw];
  }

  /** What a fetched entry emits: each matched alias with its own value, or, when there is
      no jmesPath, the document does not parse or nothing matches, the raw document under
      the entry's name, or its key if it has none. */
  lemma EmissionExact(d: DataSource, raw: string, ms: Matches)
    ensures var some := ms.Values? && exists n :: 0 <= n < |d.jmesPath| && n < |ms.values| && ms.values[n].Some?;
      && (!some ==> Emission(d, raw, ms) == map[if d.name != "" then d.name else d.key := raw])
      && (some ==> forall n | Decides(d, d.jmesPath, ms.values, n) ::
            var k := if d.jmesPath[n].alias != "" then d.jmesPath[n].alias else d.key;
            k in Emission(d, raw, ms) && Emission(d, raw, ms)[k] == ms.values[n].value)
      && (some ==> forall k | k in Emission(d, raw, ms) ::
            exists n :: Decides(d, d.jmesPath, ms.values, n) && AliasKey(d, d.jmesPath[n]) == k)
  {
    if ms.Values? {
      var m := JsonSecrets(d, d.jmesPath, ms.values);
      forall n: nat | Decides(d, d.jmesPath, ms.values, n)
        ensures AliasKey(d, d.jmesPath[n]) in m && m[AliasKey(d, d.jmesPath[n])] == ms.values[n].value
      {
        JsonSecretsValue(d, d.jmesPath, ms.values, n);
      }
      forall k | k in m
        ensures exists n :: Decides(d, d.jmesPath, ms.values, n) && AliasKey(d, d.jmesPath[n]) == k
      {
        var n := JsonSecretsKey(d, d.jmesPath, ms.values, k);
      }
      if n :| 0 <= n < |d.jmesPath| && n < |ms.values| && ms.values[n].Some? {
        var last := LastMatch(d, ms.values, n);
        assert AliasKey(d, d.jmesPath[last]) in m;
      }
      if k :| k in m {
        var n :| Decides(d, d.jmesPath, ms.values, n) && AliasKey(d, d.jmesPath[n]) == k;
      } else {
        assert m == map[];
      }
    }
    hide JsonSecrets;
  }

  lemma LastMatch(d: DataSource, values: seq<Option<string>>, n: nat) returns (last: nat)
    requires n < |d.jmesPath| && n < |values| && values[n].Some?
    ensures Decides(d, d.jmesPath, values, last) && AliasKey(d, d.jmesPath[last]) == AliasKey(d, d.jmesPath[n])
    decreases |d.jmesPath| - n
  {
    if m :| (&& n < m < |d.jmesPath| && m < |values| && values[m].Some?
             && AliasKey(d, d.jmesPath[m]) == AliasKey(d, d.jmesPath[n])) {
      last := LastMatch(d, values, m);
    } else {
      last := n;
    }
  }

  // ---------------------------------------------------------- the data entries

  function Output(ds: seq<DataSource>, fs: seq<Fetch>): Data
    requires |fs| == |ds|
  {
    if ds == [] then map[]
    else
      var n := |ds| - 1;
      Output(ds[..n], fs[..n]) + (if fs[n].Got? then Emission(ds[n], fs[n].raw, fs[n].matches) else map[])
  }

  function Errors(ds: seq<DataSource>, fs: seq<Fetch>): map<string, Error>
    requires |fs| == |ds|
  {
    if ds == [] then map[]
    else
      var n := |ds| - 1;
      var before := Errors(ds[..n], fs[..n]);
      if fs[n].Failed? then before[ds[n].key := fs[n].error] else before
  }

  function Succeeded(ds: seq<DataSource>, fs: seq<Fetch>): set<string>
    requires |fs| == |ds|
  {
    set i | 0 <= i < |ds| && fs[i].Got? :: ds[i].key
  }

  method GetExternalSecret(ds: seq<DataSource>, fs: seq<Fetch>)
    returns (out: Data, errors: map<string, Error>, succeeded: set<string>)
    requires |fs| == |ds|
    ensures out == Output(ds, fs) && errors == Errors(ds, fs) && succeeded == Succeeded(ds, fs)
  {
    out, errors, succeeded := map[], map[], {};
    NothingFetched();
    hide Emission, Output, Errors, Succeeded;
    assert ds[..0] == [] && fs[..0] == [];
    for i := 0 to |ds|
      invariant out == Output(ds[..i], fs[..i]) && errors == Errors(ds[..i], fs[..i])
      invariant succeeded == Succeeded(ds[..i], fs[..i])
    {
      FetchStep(ds, fs, i);
      match fs[i]
      case Failed(e) =>
        errors := errors[ds[i].key := e];
      case Got(raw, matches) =>
        succeeded := succeeded + {ds[i].key};
        var single := ProcessExternalSecretData(ds[i], raw, matches);
        out := out + single;
    }
    assert ds[..|ds|] == ds && fs[..|fs|] == fs;
  }

  lemma NothingFetched()
    ensures Output([], []) == map[] && Errors([], []) == map[] && Succeeded([], []) == {}
  {
  }

  lemma FetchStep(ds: seq<DataSource>, fs: seq<Fetch>, i: nat)
    requires |fs| == |ds| && i < |ds|
    ensures Errors(ds[..i + 1], fs[..i + 1])
         == if fs[i].Failed? then Errors(ds[..i], fs[..i])[ds[i].key := fs[i].error] else Errors(ds[..i], fs[..i])
    ensures Succeeded(ds[..i + 1], fs[..i + 1])
         == Succeeded(ds[..i], fs[..i]) + (if fs[i].Got? then {ds[i].key} else {})
    ensures Output(ds[..i + 1], fs[..i + 1])
         == if fs[i].Got? then Output(ds[..i], fs[..i]) + Emission(ds[i], fs[i].raw, fs[i].matches)
            else Output(ds[..i], fs[..i])
  {
    hide Emission;
    assert ds[..i + 1][..i] == ds[..i] && fs[..i + 1][..i] == fs[..i];
    NothingAdded(Output(ds[..i], fs[..i]));
    SucceededSnoc(ds, fs, i);
  }

  lemma NothingAdded(m: Data)
    ensures m + map[] == m
  {
  }

  lemma SucceededSnoc(ds: seq<DataSource>, fs: seq<Fetch>, i: nat)
    requires |fs| == |ds| && i < |ds|
    ensures Succeeded(ds[..i + 1], fs[..i + 1])
         == Succeeded(ds[..i], fs[..i]) + (if fs[i].Got? then {ds[i].key} else {})
  {
    forall k
      ensures k in Succeeded(ds[..i + 1], fs[..i + 1])
         <==> k in Succeeded(ds[..i], fs[..i]) || (fs[i].Got? && k == ds[i].key)
    {
      if k in Succeeded(ds[..i], fs[..i]) {
        var m :| 0 <= m < i && fs[..i][m].Got? && ds[..i][m].key == k;
        assert fs[..i + 1][m].Got? && ds[..i + 1][m].key == k;
      }
      if fs[i].Got? && k == ds[i].key {
        assert fs[..i + 1][i].Got? && ds[..i + 1][i].key == k;
      }
      if k in Succeeded(ds[..i + 1], fs[..i + 1]) {
        var m :| 0 <= m < i + 1 && fs[..i + 1][m].Got? && ds[..i + 1][m].key == k;
        if m < i {
          assert fs[..i][m].Got? && ds[..i][m].key == k;
        }
      }
    }
  }

  lemma {:induction false} ErrorKeys(ds: seq<DataSource>, fs: seq<Fetch>, k: string)
    requires |fs| == |ds|
    ensures k in Errors(ds, fs) <==> exists i :: 0 <= i < |ds| && fs[i].Failed? && ds[i].key == k
  {
    if ds != [] {
      var n := |ds| - 1;
      ErrorKeys(ds[..n], fs[..n], k);
      if k in Errors(ds[..n], fs[..n]) {
        var i :| 0 <= i < n && fs[..n][i].Failed? && ds[..n][i].key == k;
        assert fs[i].Failed? && ds[i].key == k;
      }
      if k in Errors(ds, fs) {
        if fs[n].Failed? && ds[n].key == k {
        } else {
          assert k in Errors(ds[..n], fs[..n]);
        }
      }
      forall i | 0 <= i < |ds| && fs[i].Failed? && ds[i].key == k
        ensures k in Errors(ds, fs)
      {
        if i < n {
          assert fs[..n][i].Failed? && ds[..n][i].key == k;
        }
      }
    }
  }

  /** The error kept for a document is that of the last entry naming it that failed. */
  lemma {:induction false} ErrorsExact(ds: seq<DataSource>, fs: seq<Fetch>, n: nat)
    requires |fs| == |ds| && n < |ds| && fs[n].Failed?
    requires forall m | n < m < |ds| && ds[m].key == ds[n].key :: fs[m].Got?
    ensures ds[n].key in Errors(ds, fs) && Errors(ds, fs)[ds[n].key] == fs[n].error
  {
    var last := |ds| - 1;
    if n < last {
      ErrorsExact(ds[..last], fs[..last], n);
    }
  }

  /** A key holds what the last fetched entry that emits it emitted. */
  lemma {:induction false} OutputExact(ds: seq<DataSource>, fs: seq<Fetch>, n: nat, k: string)
    requires |fs| == |ds| && n < |ds| && fs[n].Got? && k in Emission(ds[n], fs[n].raw, fs[n].matches)
    requires forall m | n < m < |ds| && fs[m].Got? :: k !in Emission(ds[m], fs[m].raw, fs[m].matches)
    ensures k in Output(ds, fs) && Output(ds, fs)[k] == Emission(ds[n], fs[n].raw, fs[n].matches)[k]
  {
    hide Emission;
    var last := |ds| - 1;
    if n < last {
      OutputExact(ds[..last], fs[..last], n, k);
    }
  }

  /** Whatever a successful entry emits reaches the output. */
  lemma {:induction false} OutputHasEmission(ds: seq<DataSource>, fs: seq<Fetch>, i: nat)
    requires |fs| == |ds| && i < |ds| && fs[i].Got?
    ensures Emission(ds[i], fs[i].raw, fs[i].matches).Keys <= Output(ds, fs).Keys
  {
    var n := |ds| - 1;
    if i < n {
      OutputHasEmission(ds[..n], fs[..n], i);
    }
  }

  // ------------------------------------------------------- the extract entries

  function ExtractOutput(ps: seq<DataProcess>, fs: seq<ExtractFetch>): Data
    requires |fs| == |ps|
  {
    if ps == [] then map[]
    else
      var n := |ps| - 1;
      var before := ExtractOutput(ps[..n], fs[..n]);
      if ps[n].extract.Some? && fs[n].ExtractGot? then before + fs[n].data else before
  }

  function ExtractErrors(ps: seq<DataProcess>, fs: seq<ExtractFetch>): map<string, Error>
    requires |fs| == |ps|
  {
    if ps == [] then map[]
    else
      var n := |ps| - 1;
      var before := ExtractErrors(ps[..n], fs[..n]);
      if ps[n].extract.Some? && fs[n].ExtractFailed? then before[ps[n].extract.value.key := fs[n].error] else before
  }

  function ExtractSucceeded(ps: seq<DataProcess>, fs: seq<ExtractFetch>): set<string>
    requires |fs| == |ps|
  {
    set i | 0 <= i < |ps| && ps[i].extract.Some? && fs[i].ExtractGot? :: ps[i].extract.value.key
  }

  method GetExternalSecretWithExtract(ps: seq<DataProcess>, fs: seq<ExtractFetch>)
    returns (out: Data, errors: map<string, Error>, succeeded: set<string>)
    requires |fs| == |ps|
    ensures out == ExtractOutput(ps, fs) && errors == ExtractErrors(ps, fs) && succeeded == ExtractSucceeded(ps, fs)
  {
    out, errors, succeeded := map[], map[], {};
    for i := 0 to |ps|
      invariant out == ExtractOutput(ps[..i], fs[..i]) && errors == ExtractErrors(ps[..i], fs[..i])
      invariant succeeded == set j | 0 <= j < i && ps[j].extract.Some? && fs[j].ExtractGot? :: ps[j].extract.value.key
    {
      assert ps[..i + 1][..i] == ps[..i] && fs[..i + 1][..i] == fs[..i];
      if ps[i].extract.None? {
        continue;
      }
      match fs[i]
      case ExtractFailed(e) =>
        errors := errors[ps[i].extract.value.key := e];
      case ExtractGot(data) =>
        succeeded := succeeded + {ps[i].extract.value.key};
        out := out + data;
    }
    assert ps[..|ps|] == ps && fs[..|fs|] == fs;
  }

  lemma {:induction false} ExtractErrorKeys(ps: seq<DataProcess>, fs: seq<ExtractFetch>, k: string)
    requires |fs| == |ps|
    ensures k in ExtractErrors(ps, fs)
       <==> exists i :: 0 <= i < |ps| && ps[i].extract.Some? && fs[i].ExtractFailed? && ps[i].extract.value.key == k
  {
    if ps != [] {
      var n := |ps| - 1;
      ExtractErrorKeys(ps[..n], fs[..n], k);
      if k in ExtractErrors(ps[..n], fs[..n]) {
        var i :| (&& 0 <= i < n && ps[..n][i].extract.Some? && fs[..n][i].ExtractFailed?
                  && ps[..n][i].extract.value.key == k);
        assert ps[i].extract.Some? && fs[i].ExtractFailed? && ps[i].extract.value.key == k;
      }
      forall i | 0 <= i < |ps| && ps[i].extract.Some? && fs[i].ExtractFailed? && ps[i].extract.value.key == k
        ensures k in ExtractErrors(ps, fs)
      {
        if i < n {
          assert ps[..n][i].extract.Some? && fs[..n][i].ExtractFailed? && ps[..n][i].extract.value.key == k;
        }
      }
    }
  }

  lemma {:induction false} ExtractErrorsExact(ps: seq<DataProcess>, fs: seq<ExtractFetch>, n: nat)
    requires |fs| == |ps| && n < |ps| && ps[n].extract.Some? && fs[n].ExtractFailed?
    requires forall m | n < m < |ps| && ps[m].extract.Some? && ps[m].extract.value.key == ps[n].extract.value.key ::
               fs[m].ExtractGot?
    ensures ps[n].extract.value.key in ExtractErrors(ps, fs)
    ensures ExtractErrors(ps, fs)[ps[n].extract.value.key] == fs[n].error
  {
    var last := |ps| - 1;
    if n < last {
      ExtractErrorsExact(ps[..last], fs[..last], n);
    }
  }

  lemma {:induction false} ExtractOutputExact(ps: seq<DataProcess>, fs: seq<ExtractFetch>, n: nat, k: string)
    requires |fs| == |ps| && n < |ps| && ps[n].extract.Some? && fs[n].ExtractGot? && k in fs[n].data
    requires forall m | n < m < |ps| && ps[m].extract.Some? && fs[m].ExtractGot? :: k !in fs[m].data
    ensures k in ExtractOutput(ps, fs) && ExtractOutput(ps, fs)[k] == fs[n].data[k]
  {
    var last := |ps| - 1;
    if n < last {
      ExtractOutputExact(ps[..last], fs[..last], n, k);
    }
  }

  // ------------------------------------------------------------ both together

  /** The backend's answers to one round. */
  datatype Answers = Answers(data: seq<Fetch>, extracts: seq<ExtractFetch>)

  predicate Aligned(sp: Spec, a: Answers) {
    |a.data| == |sp.data| && |a.extracts| == |sp.dataProcess|
  }

  /** Everything the rest of the round looks at. */
  datatype Fetched = Fetched(
    out: Data, dataErrors: map<string, Error>, extractErrors: map<string, Error>,
    dataSucceeded: set<string>, extractSucceeded: set<string>)

  function FetchAll(sp: Spec, a: Answers): Fetched
    requires Aligned(sp, a)
  {
    Fetched(Output(sp.data, a.data) + ExtractOutput(sp.dataProcess, a.extracts),
            Errors(sp.data, a.data), ExtractErrors(sp.dataProcess, a.extracts),
            Succeeded(sp.data, a.data), ExtractSucceeded(sp.dataProcess, a.extracts))
  }

  /** Of a document extracted whole and an entry writing the same key, the extract wins. */
  lemma ExtractsWin(sp: Spec, a: Answers, k: string)
    requires Aligned(sp, a)
    ensures k in ExtractOutput(sp.dataProcess, a.extracts) ==>
              k in FetchAll(sp, a).out && FetchAll(sp, a).out[k] == ExtractOutput(sp.dataProcess, a.extracts)[k]
    ensures k !in ExtractOutput(sp.dataProcess, a.extracts) && k in Output(sp.data, a.data) ==>
              k in FetchAll(sp, a).out && FetchAll(sp, a).out[k] == Output(sp.data, a.data)[k]
    ensures k in FetchAll(sp, a).out ==> k in ExtractOutput(sp.dataProcess, a.extracts) || k in Output(sp.data, a.data)
  {
  }
}
