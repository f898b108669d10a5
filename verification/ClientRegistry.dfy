/** A provider's client manager (kms.Manager; oos.Manager is the same code): the
    client map and, beside it, the credential refreshers that must be stopped when
    their client is retired. */
module ClientRegistry {
  import opened Wrappers
  import opened ClientKeys
  import opened RamStoppers

  /** The registered keys a prefix deletion on `clientName` retires. */
  function Family(clients: map<string, nat>, clientName: string): set<string> {
    set k | k in clients && IsVariant(clientName, k)
  }

  class Manager {
    var clients: map<string, nat>
    var ram: map<string, nat>
    var stops: multiset<nat>

    constructor ()
      ensures clients == map[] && ram == map[] && stops == multiset{}
    {
      clients, ram, stops := map[], map[], multiset{};
    }

    /** Where a refresher is: still current, or stopped (so many times). */
    ghost function Accounted(p: nat): nat
      reads this
    {
      |Holders(ram, p)| + stops[p]
    }

    method GetClient(clientName: string) returns (client: Option<nat>)
      ensures client == if clientName in clients then Some(clients[clientName]) else None
    {
      client := if clientName in clients then Some(clients[clientName]) else None;
    }

    /** Register ignores a client without a live SDK handle. */
    method Register(clientName: string, client: Option<nat>)
      modifies this`clients
      ensures clients == if client.Some? then old(clients)[clientName := client.value] else old(clients)
    {
      if client.Some? {
        clients := clients[clientName := client.value];
      }
    }

    method RegisterRamProvider(clientName: string, stopper: nat)
      modifies this`ram, this`stops
      ensures ram == old(ram)[clientName := stopper]
      ensures forall p :: Accounted(p) == old(Accounted(p)) + (if p == stopper then 1 else 0)
    {
      forall p ensures |Holders(ram[clientName := stopper], p)|
        == |Holders(ram, p)| - (if clientName in ram && ram[clientName] == p then 1 else 0)
           + (if stopper == p then 1 else 0)
      {
        HoldersPut(ram, clientName, stopper, p);
      }
      var had := clientName in ram;
      var previous := if had then ram[clientName] else 0;
      ram := ram[clientName := stopper];
      if had {
        stops := stops + multiset{previous};
      }
    }

    method StopProvider(clientName: string)
      modifies this`ram, this`stops
      ensures ram == old(ram) - {clientName}
      ensures stops == old(stops) + (if clientName in old(ram) then multiset{old(ram)[clientName]} else multiset{})
      ensures forall p :: Accounted(p) == old(Accounted(p))
    {
      forall p ensures |Holders(ram - {clientName}, p)|
        == |Holders(ram, p)| - (if clientName in ram && ram[clientName] == p then 1 else 0)
      {
        HoldersDrop(ram, clientName, p);
      }
      if clientName in ram {
        var instance := ram[clientName];
        ram := ram - {clientName};
        stops := stops + multiset{instance};
      }
    }

    method Delete(clientName: string)
      modifies this
      ensures clients == old(clients) - {clientName} && ram == old(ram) - {clientName}
      ensures forall p :: Accounted(p) == old(Accounted(p))
    {
      clients := clients - {clientName};
      StopProvider(clientName);
    }

    /** Removes exactly the plain client and its endpoint variants, whatever else is
        registered, together with the refreshers filed under those keys; every
        refresher taken out is stopped. */
    method DeletePrefixed(clientName: string)
      modifies this
      ensures clients == old(clients) - Family(old(clients), clientName)
      ensures ram == old(ram) - Family(old(clients), clientName)
      ensures forall p :: Accounted(p) == old(Accounted(p))
      ensures forall k :: k in clients <==> k in old(clients) && !IsVariant(clientName, k)
    {
      var compositePrefix := clientName + "#";
      var staleKeys: seq<string> := [];
      var rest := clients.Keys;
      while rest != {}
        invariant rest <= clients.Keys
        invariant clients == old(clients) && ram == old(ram) && stops == old(stops)
        invariant forall k :: k in staleKeys <==> k in clients && k !in rest && IsVariant(clientName, k)
        decreases |rest|
      {
        var k :| k in rest;
        rest := rest - {k};
        if k == clientName || compositePrefix <= k {
          staleKeys := staleKeys + [k];
        }
      }
      ghost var gone: set<string> := {};
      for n := 0 to |staleKeys|
        invariant gone == set k | k in staleKeys[..n]
        invariant clients == old(clients) - gone && ram == old(ram) - gone
        invariant forall p :: Accounted(p) == old(Accounted(p))
      {
        Delete(staleKeys[n]);
        assert staleKeys[..n + 1] == staleKeys[..n] + [staleKeys[n]];
        gone := gone + {staleKeys[n]};
      }
      assert staleKeys[..|staleKeys|] == staleKeys;
      assert gone == Family(old(clients), clientName);
    }
  }

  /** Over a registry whose keys all come from the key functions, deleting a store's
      prefix leaves exactly the clients of everybody else. */
  lemma PrefixDeletionIsExact(clients: map<string, nat>, ids: set<Identity>, o: Owner)
    requires CleanOwner(o)
    requires forall id | id in ids :: CleanOwner(id.owner)
    requires clients.Keys == set id | id in ids :: KeyOf(id)
    ensures var rest := clients - Family(clients, OwnerKey(o));
      rest.Keys == set id | id in ids && id.owner != o :: KeyOf(id)
  {
    var rest := clients - Family(clients, OwnerKey(o));
    forall id | id in ids
      ensures KeyOf(id) in rest <==> id.owner != o
    {
      VariantsAreOneOwner(o, id);
    }
    forall k | k in rest
      ensures k in set id | id in ids && id.owner != o :: KeyOf(id)
    {
      assert k in clients.Keys;
      var id :| id in ids && KeyOf(id) == k;
    }
  }
}
