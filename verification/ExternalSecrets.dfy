/** The ExternalSecret object and the references it makes
    (pkg/apis/alibabacloud/v1alpha1/externalsecret_types.go). */
module ExternalSecrets {
  import opened Wrappers
  import opened ClientKeys

  const KIND_STORE := "SecretStore"
  const KIND_CLUSTER_STORE := "ClusterSecretStore"

  datatype SecretStoreRef = SecretStoreRef(name: string, kind: string, namespace: string)

  datatype JMESPath = JMESPath(path: string, alias: string)

  datatype DataSource = DataSource(
    storeRef: Option<SecretStoreRef>, key: string, name: string,
    jmesPath: seq<JMESPath>, kmsEndpoint: string)

  /** A dataProcess entry; its extract block may be missing. */
  datatype DataProcess = DataProcess(extract: Option<DataSource>)

  /** `templated`: does spec.target configure a template? */
  datatype Spec = Spec(data: seq<DataSource>, dataProcess: seq<DataProcess>, templated: bool)

  datatype ExternalSecret = ExternalSecret(
    uid: nat, namespace: string, name: string, finalizer: bool, deleting: bool, spec: Spec)

  // --------------------------------------------------------------- references

  /** resolveClientName: the registry key of the client an entry uses. */
  function ResolveClientName(ref: Option<SecretStoreRef>, esNamespace: string): string {
    match ref
    case None => ENV_CLIENT
    case Some(r) =>
      if r.kind == KIND_CLUSTER_STORE then ClusterStoreKey(r.name)
      else SecretStoreKey(if r.namespace != "" then r.namespace else esNamespace, r.name)
  }

  /** storeRefKey: the index key of a reference, "" when it can match no store. */
  function StoreRefKey(ref: Option<SecretStoreRef>, esNamespace: string): string {
    match ref
    case None => ""
    case Some(r) =>
      if r.kind == KIND_CLUSTER_STORE then ClusterStoreKey(r.name)
      else if r.kind == "" || r.kind == KIND_STORE then
        SecretStoreKey(if r.namespace != "" then r.namespace else esNamespace, r.name)
      else ""
  }

  /** The kinds the CRD admits. */
  predicate LegalKind(ref: Option<SecretStoreRef>) {
    ref.Some? ==> ref.value.kind == "" || ref.value.kind == KIND_STORE || ref.value.kind == KIND_CLUSTER_STORE
  }

  /** All sources an object declares, the extract blocks included. */
  function Sources(sp: Spec): seq<DataSource> {
    sp.data + Extracts(sp.dataProcess)
  }

  function Extracts(ps: seq<DataProcess>): seq<DataSource> {
    if ps == [] then []
    else (if ps[0].extract.Some? then [ps[0].extract.value] else []) + Extracts(ps[1..])
  }

  lemma {:induction false} ExtractsSnoc(ps: seq<DataProcess>, p: DataProcess)
    ensures Extracts(ps + [p]) == Extracts(ps) + (if p.extract.Some? then [p.extract.value] else [])
  {
    if ps == [] {
      assert ps + [p] == [p];
    } else {
      var head := if ps[0].extract.Some? then [ps[0].extract.value] else [];
      assert (ps + [p])[1..] == ps[1..] + [p];
      assert Extracts(ps + [p]) == head + Extracts(ps[1..] + [p]);
      ExtractsSnoc(ps[1..], p);
    }
  }

  /** The index key says exactly what the client key says, for every legal kind. */
  lemma RefKeysAgree(ref: Option<SecretStoreRef>, esNamespace: string)
    ensures StoreRefKey(ref, esNamespace) == ResolveClientName(ref, esNamespace)
       <==> ref.Some? && LegalKind(ref)
    ensures StoreRefKey(ref, esNamespace) == "" <==> ref.None? || !LegalKind(ref)
  {
    if ref.Some? {
      assert ClusterStoreKey(ref.value.name)[0] == 'c';
      var namespace := if ref.value.namespace != "" then ref.value.namespace else esNamespace;
      assert SecretStoreKey(namespace, ref.value.name)[0] == 'n';
    }
  }

  // ---------------------------------------------------------------- endpoints

  /** unicode.IsSpace. */
  predicate IsSpace(c: char) {
    || '\U{9}' <= c <= '\U{D}' || c == ' ' || c == '\U{85}' || c == '\U{A0}' || c == '\U{1680}'
    || '\U{2000}' <= c <= '\U{200A}' || c == '\U{2028}' || c == '\U{2029}' || c == '\U{202F}'
    || c == '\U{205F}' || c == '\U{3000}'
  }

  function TrimLeft(s: string): string {
    if s != "" && IsSpace(s[0]) then TrimLeft(s[1..]) else s
  }

  function TrimRight(s: string): string {
    if s != "" && IsSpace(s[|s| - 1]) then TrimRight(s[..|s| - 1]) else s
  }

  /** strings.TrimSpace. */
  function NormalizeEndpoint(endpoint: string): string {
    TrimRight(TrimLeft(endpoint))
  }

  /** The key a source's client is cached under. */
  function ClientKey(d: DataSource, esNamespace: string): string {
    CompositeClientKey(ResolveClientName(d.storeRef, esNamespace), NormalizeEndpoint(d.kmsEndpoint))
  }

  predicate CustomEndpoint(d: DataSource) {
    NormalizeEndpoint(d.kmsEndpoint) != ""
  }

  /** The endpoint-specific client keys of some sources. */
  function EndpointKeys(ds: seq<DataSource>, esNamespace: string): set<string> {
    set d | d in ds && CustomEndpoint(d) :: ClientKey(d, esNamespace)
  }

  lemma EndpointKeysSnoc(ds: seq<DataSource>, d: DataSource, ns: string)
    ensures EndpointKeys(ds + [d], ns) == EndpointKeys(ds, ns) + (if CustomEndpoint(d) then {ClientKey(d, ns)} else {})
  {
    forall e | e in ds ensures e in ds + [d] {
    }
    assert d in ds + [d];
  }

  /** compositeClientKeysFromSpec: the keys an object holds in the registry. */
  function CompositeKeys(es: ExternalSecret): set<string> {
    EndpointKeys(Sources(es.spec), es.namespace)
  }

  method CollectCompositeKeys(es: ExternalSecret) returns (keys: set<string>)
    ensures keys == CompositeKeys(es)
  {
    keys := {};
    var ns := es.namespace;
    var data := es.spec.data;
    for i := 0 to |data|
      invariant keys == EndpointKeys(data[..i], ns)
    {
      assert data[..i + 1] == data[..i] + [data[i]];
      EndpointKeysSnoc(data[..i], data[i], ns);
      var endpoint := NormalizeEndpoint(data[i].kmsEndpoint);
      if endpoint == "" {
        continue;
      }
      keys := keys + {CompositeClientKey(ResolveClientName(data[i].storeRef, ns), endpoint)};
    }
    assert data[..|data|] == data;
    var ps := es.spec.dataProcess;
    assert data + Extracts(ps[..0]) == data;
    for i := 0 to |ps|
      invariant keys == EndpointKeys(data + Extracts(ps[..i]), ns)
    {
      assert ps[..i + 1] == ps[..i] + [ps[i]];
      ExtractsSnoc(ps[..i], ps[i]);
      ghost var before := data + Extracts(ps[..i]);
      match ps[i].extract
      case None =>
        assert data + Extracts(ps[..i + 1]) == before;
      case Some(extract) =>
        assert data + Extracts(ps[..i + 1]) == before + [extract];
        EndpointKeysSnoc(before, extract, ns);
        var endpoint := NormalizeEndpoint(extract.kmsEndpoint);
        if endpoint != "" {
          keys := keys + {CompositeClientKey(ResolveClientName(extract.storeRef, ns), endpoint)};
        }
    }
    assert ps[..|ps|] == ps;
  }

  // --------------------------------------------------------------- what they mean

  /** The sources are the data entries and the extract blocks, and nothing else. */
  lemma {:induction false} SourcesAreEntries(sp: Spec, d: DataSource)
    ensures d in Sources(sp)
       <==> d in sp.data || exists p :: p in sp.dataProcess && p.extract == Some(d)
  {
    ExtractsAreBlocks(sp.dataProcess, d);
  }

  lemma {:induction false} ExtractsAreBlocks(ps: seq<DataProcess>, d: DataSource)
    ensures d in Extracts(ps) <==> exists p :: p in ps && p.extract == Some(d)
  {
    if ps != [] {
      ExtractsAreBlocks(ps[1..], d);
      assert ps == [ps[0]] + ps[1..];
      assert ps[0] in ps;
    }
  }

  /** A normalized endpoint is the endpoint without the space around it. */
  lemma EndpointIsTrimmed(endpoint: string) returns (left: string, right: string)
    ensures endpoint == left + NormalizeEndpoint(endpoint) + right
    ensures (forall c | c in left + right :: IsSpace(c))
    ensures var e := NormalizeEndpoint(endpoint); e != "" ==> !IsSpace(e[0]) && !IsSpace(e[|e| - 1])
  {
    left := LeftSpace(endpoint);
    right := RightSpace(TrimLeft(endpoint));
  }

  lemma {:induction false} LeftSpace(s: string) returns (left: string)
    ensures s == left + TrimLeft(s) && forall c | c in left :: IsSpace(c)
    ensures TrimLeft(s) != "" ==> !IsSpace(TrimLeft(s)[0])
  {
    left := "";
    if s != "" && IsSpace(s[0]) {
      var rest := LeftSpace(s[1..]);
      left := [s[0]] + rest;
    }
  }

  lemma {:induction false} RightSpace(s: string) returns (right: string)
    ensures s == TrimRight(s) + right && forall c | c in right :: IsSpace(c)
    ensures TrimRight(s) != "" ==> TrimRight(s)[0] == s[0] && !IsSpace(TrimRight(s)[|TrimRight(s)| - 1])
  {
    right := "";
    if s != "" && IsSpace(s[|s| - 1]) {
      var rest := RightSpace(s[..|s| - 1]);
      right := rest + [s[|s| - 1]];
    }
  }

  /** The keys an object holds are those of its entries with an endpoint of their own, and
      each is the entry's client name, '#', and that endpoint: a plain client of a store
      is never among them. */
  lemma CompositeKeysArePerEndpoint(es: ExternalSecret, k: string)
    ensures k in CompositeKeys(es) <==>
            exists d :: (&& d in Sources(es.spec) && NormalizeEndpoint(d.kmsEndpoint) != ""
                         && k == ResolveClientName(d.storeRef, es.namespace) + "#" + NormalizeEndpoint(d.kmsEndpoint))
    ensures k in CompositeKeys(es) ==> '#' in k
  {
  }
}
