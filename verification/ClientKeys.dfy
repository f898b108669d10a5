/** The key space of the provider client registry (pkg/backend/client_keys.go):
    every cached client lives under a string key built by one of three functions,
    and a store's whole family of clients is recognised by a string prefix. */
module ClientKeys {
  const ENV_CLIENT := "env.client"

  function SecretStoreKey(namespace: string, name: string): string {
    "namespace/" + namespace + "/" + name
  }

  function ClusterStoreKey(name: string): string {
    "cluster/" + name
  }

  function CompositeClientKey(clientName: string, endpoint: string): string {
    if endpoint == "" then clientName else clientName + "#" + endpoint
  }

  /** The test DeletePrefixed applies to each registered key. */
  predicate IsVariant(clientName: string, key: string) {
    key == clientName || clientName + "#" <= key
  }

  // ---------------------------------------------------------------- identities

  /** What a key stands for. */
  datatype Owner =
    | Env
    | NamespacedStore(namespace: string, name: string)
    | ClusterStore(name: string)

  datatype Identity = Identity(owner: Owner, endpoint: string)

  /** Kubernetes object names contain neither separator. */
  predicate Clean(s: string) {
    '/' !in s && '#' !in s
  }

  predicate CleanOwner(o: Owner) {
    match o
    case Env => true
    case NamespacedStore(ns, n) => Clean(ns) && Clean(n)
    case ClusterStore(n) => Clean(n)
  }

  function OwnerKey(o: Owner): string {
    match o
    case Env => ENV_CLIENT
    case NamespacedStore(ns, n) => SecretStoreKey(ns, n)
    case ClusterStore(n) => ClusterStoreKey(n)
  }

  function KeyOf(id: Identity): string {
    CompositeClientKey(OwnerKey(id.owner), id.endpoint)
  }

  /** Position of the first `c` in `s`, or |s|. */
  function IndexOf(s: string, c: char): (i: nat)
    ensures i <= |s|
    ensures forall k | 0 <= k < i :: s[k] != c
    ensures i < |s| ==> s[i] == c
  {
    if s == "" || s[0] == c then 0 else 1 + IndexOf(s[1..], c)
  }

  function ParseOwner(s: string): Owner {
    if "namespace/" <= s then
      var rest := s[10..];
      var i := IndexOf(rest, '/');
      NamespacedStore(rest[..i], if i < |rest| then rest[i + 1..] else "")
    else if "cluster/" <= s then ClusterStore(s[8..])
    else Env
  }

  /** Reads a key back: everything before the first '#' names the owner. */
  function Parse(key: string): Identity {
    var i := IndexOf(key, '#');
    Identity(ParseOwner(key[..i]), if i < |key| then key[i + 1..] else "")
  }

  lemma IndexOfSplit(a: string, c: char, b: string)
    requires c !in a
    ensures IndexOf(a + [c] + b, c) == |a|
    ensures IndexOf(a, c) == |a|
  {
    var s := a + [c] + b;
    assert forall k | 0 <= k < |a| :: s[k] == a[k] != c;
    assert s[|a|] == c;
  }

  lemma OwnerKeyHasNoHash(o: Owner)
    requires CleanOwner(o)
    ensures '#' !in OwnerKey(o)
  {
    match o
    case Env =>
    case NamespacedStore(ns, n) =>
    case ClusterStore(n) =>
  }

  lemma ParseOwnerKey(o: Owner)
    requires CleanOwner(o)
    ensures ParseOwner(OwnerKey(o)) == o
  {
    match o
    case Env =>
      assert OwnerKey(o)[0] == 'e';
    case NamespacedStore(ns, n) =>
      var s := OwnerKey(o);
      assert s[..10] == "namespace/";
      assert s[10..] == ns + "/" + n;
      IndexOfSplit(ns, '/', n);
      assert (ns + "/" + n)[..|ns|] == ns;
      assert (ns + "/" + n)[|ns| + 1..] == n;
    case ClusterStore(n) =>
      var s := OwnerKey(o);
      assert s[0] == 'c';
      assert s[..8] == "cluster/";
      assert s[8..] == n;
  }

  lemma ParseComposite(base: string, o: Owner, endpoint: string)
    requires '#' !in base && ParseOwner(base) == o
    ensures Parse(CompositeClientKey(base, endpoint)) == Identity(o, endpoint)
  {
    IndexOfSplit(base, '#', endpoint);
    if endpoint == "" {
      assert base[..|base|] == base;
    } else {
      var key := base + ['#'] + endpoint;
      assert CompositeClientKey(base, endpoint) == key;
      assert key[..|base|] == base;
      assert key[|base| + 1..] == endpoint;
    }
  }

  /** Round trip: a key determines the store (or the environment) and the endpoint
      it was built from, whatever characters the endpoint holds. */
  lemma ParseKeyOf(id: Identity)
    requires CleanOwner(id.owner)
    ensures Parse(KeyOf(id)) == id
  {
    OwnerKeyHasNoHash(id.owner);
    ParseOwnerKey(id.owner);
    ParseComposite(OwnerKey(id.owner), id.owner, id.endpoint);
  }

  /** Distinct identities never share a key: the plain, cluster, environment and
      endpoint-specific key spaces are disjoint and each is injective. */
  lemma KeyOfInjective(a: Identity, b: Identity)
    requires CleanOwner(a.owner) && CleanOwner(b.owner)
    ensures KeyOf(a) == KeyOf(b) <==> a == b
  {
    ParseKeyOf(a);
    ParseKeyOf(b);
  }

  /** No key ends right after its first separator: an empty endpoint adds none. */
  lemma TrailingHash(o: Owner, id: Identity)
    requires CleanOwner(o) && CleanOwner(id.owner)
    ensures KeyOf(id) != OwnerKey(o) + "#"
  {
    var key := OwnerKey(o) + ['#'] + "";
    OwnerKeyHasNoHash(o);
    OwnerKeyHasNoHash(id.owner);
    IndexOfSplit(OwnerKey(o), '#', "");
    IndexOfSplit(OwnerKey(id.owner), '#', id.endpoint);
    assert key == OwnerKey(o) + "#";
    assert id.endpoint != "" ==> KeyOf(id) == OwnerKey(id.owner) + ['#'] + id.endpoint;
  }

  /** The prefix test accepts the keys of one owner, plain and per endpoint, and
      of nobody else. */
  lemma VariantsAreOneOwner(o: Owner, id: Identity)
    requires CleanOwner(o) && CleanOwner(id.owner)
    ensures IsVariant(OwnerKey(o), KeyOf(id)) <==> id.owner == o
  {
    var base := OwnerKey(o);
    var key := KeyOf(id);
    if id.owner == o {
      if id.endpoint != "" {
        assert key == (base + "#") + id.endpoint;
      }
    }
    if IsVariant(base, key) {
      TrailingHash(o, id);
      var endpoint := if key == base then "" else key[|base| + 1..];
      if key != base {
        assert key == base + "#" + endpoint;
      }
      KeyOfInjective(Identity(o, endpoint), id);
    }
  }

  /** Every string in a store's family is that store's key for some endpoint, so a
      prefix deletion removes no unrelated key even from a registry holding
      arbitrary strings; the one exception is a trailing separator. */
  lemma VariantIsComposite(clientName: string, key: string)
    requires IsVariant(clientName, key)
    ensures key == clientName + "#" || exists e :: key == CompositeClientKey(clientName, e)
  {
    if key == clientName {
      assert key == CompositeClientKey(clientName, "");
    } else if key != clientName + "#" {
      var e := key[|clientName| + 1..];
      assert key == clientName + "#" + e;
      assert key == CompositeClientKey(clientName, e);
    }
  }
}
