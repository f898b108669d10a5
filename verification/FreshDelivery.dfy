/** The rebuild protocol and the sync round together: with which clients the values in
    the Secret were fetched. */
module FreshDelivery {
  import opened ExternalSecrets
  import opened SyncFetch
  import opened ClientAccess
  import SyncGuarantees
  import SyncRound
  import StoreProtocol
  import StoreTheorems

  /** One entry's call for a client: the state of the referenced store at that moment,
      and the call's circumstances and outcome. */
  datatype Visit = Visit(
    state: StoreProtocol.State, provider: StoreProtocol.Provider, flags: Flags,
    outcome: Outcome, after: Clients, access: Access)

  /** The visit is what the entry's reference leads to, in some run of its store. */
  ghost predicate VisitOf(v: Visit, d: DataSource, ns: string) {
    d.storeRef.Some? ==>
      && Reached(StoreKey(d.storeRef.value, ns), v.state)
      && IsAccess(v.flags, v.outcome, StoreProtocol.Get(v.state, v.provider), v.after, StoresIn(v.state),
                  d.storeRef, ns, d.kmsEndpoint, v.access)
  }

  /** The entry is under the protocol's guarantee: its store was accepted by a round and
      its controller runs. */
  predicate Guaranteed(v: Visit, d: DataSource) {
    && d.storeRef.Some? && |v.state.log| > 0
    && StoreTheorems.Managed(StoreProtocol.Cur(v.state))
    && (IsCluster(d.storeRef.value) ==> v.flags.processClusterStores)
  }

  /** Fetched with a client built from the store object as it then was. */
  predicate FetchedFresh(v: Visit) {
    && v.access.Served? && |v.state.log| > 0
    && Current(v.access.client, v.state)
  }

  /** A round's answers are obtained through its visits: a refused call is the entry's
      error, and only a served one reaches the backend. */
  ghost predicate Obtained(sp: Spec, ns: string, a: Answers, data: seq<Visit>, extracts: seq<Visit>)
    requires Aligned(sp, a)
  {
    && |data| == |sp.data| && |extracts| == |sp.dataProcess|
    && (forall n | 0 <= n < |data| ::
          && VisitOf(data[n], sp.data[n], ns)
          && (data[n].access.Refused? ==> a.data[n] == Failed(data[n].access.error)))
    && (forall n | 0 <= n < |extracts| && sp.dataProcess[n].extract.Some? ::
          && VisitOf(extracts[n], sp.dataProcess[n].extract.value, ns)
          && (extracts[n].access.Refused? ==> a.extracts[n] == ExtractFailed(extracts[n].access.error)))
  }

  lemma VisitIsFresh(v: Visit, d: DataSource, ns: string)
    requires VisitOf(v, d, ns) && v.access.Served? && Guaranteed(v, d)
    ensures FetchedFresh(v)
  {
    ServedClientIsCurrent(
      v.state, v.provider, v.flags, v.outcome, v.after, d.storeRef.value, ns, d.kmsEndpoint, v.access);
    hide Reached, IsAccess, StoreTheorems.Managed, Current;
  }

  /** Where an output value comes from. */
  lemma {:induction false} OutputSource(ds: seq<DataSource>, fs: seq<Fetch>, k: string) returns (n: nat)
    requires |fs| == |ds| && k in Output(ds, fs)
    ensures n < |ds| && fs[n].Got? && k in Emission(ds[n], fs[n].raw, fs[n].matches)
    ensures Output(ds, fs)[k] == Emission(ds[n], fs[n].raw, fs[n].matches)[k]
  {
    hide Emission;
    var last := |ds| - 1;
    if fs[last].Got? && k in Emission(ds[last], fs[last].raw, fs[last].matches) {
      n := last;
    } else {
      n := OutputSource(ds[..last], fs[..last], k);
    }
  }

  lemma {:induction false} ExtractSource(ps: seq<DataProcess>, fs: seq<ExtractFetch>, k: string) returns (n: nat)
    requires |fs| == |ps| && k in ExtractOutput(ps, fs)
    ensures n < |ps| && ps[n].extract.Some? && fs[n].ExtractGot? && k in fs[n].data
    ensures ExtractOutput(ps, fs)[k] == fs[n].data[k]
  {
    var last := |ps| - 1;
    if ps[last].extract.Some? && fs[last].ExtractGot? && k in fs[last].data {
      n := last;
    } else {
      n := ExtractSource(ps[..last], fs[..last], k);
    }
  }

  /** Value `x` under key `k` is what some entry emitted, and if that entry is under the
      protocol's guarantee it was fetched with a client of the store's current generation. */
  ghost predicate FreshlyDelivered(sp: Spec, a: Answers, data: seq<Visit>, extracts: seq<Visit>, k: string, x: string)
    requires Aligned(sp, a) && |data| == |sp.data| && |extracts| == |sp.dataProcess|
  {
    || (exists n :: (&& 0 <= n < |sp.data| && a.data[n].Got?
                     && k in Emission(sp.data[n], a.data[n].raw, a.data[n].matches)
                     && Emission(sp.data[n], a.data[n].raw, a.data[n].matches)[k] == x
                     && (Guaranteed(data[n], sp.data[n]) ==> FetchedFresh(data[n]))))
    || (exists n :: (&& 0 <= n < |sp.dataProcess| && sp.dataProcess[n].extract.Some? && a.extracts[n].ExtractGot?
                     && k in a.extracts[n].data && a.extracts[n].data[k] == x
                     && (Guaranteed(extracts[n], sp.dataProcess[n].extract.value) ==> FetchedFresh(extracts[n]))))
  }

  /** From the guard to the Secret: every value an untemplated round adds or changes was
      emitted by one of its entries, and was fetched with a client built from the
      entry's store at the generation the store had at that moment, whenever that store
      is managed and its controller enabled. */
  lemma DeliveredValuesAreFresh(c: SyncRound.Config, sp: Spec, w: SyncRound.World, i: SyncRound.Inputs, ns: string,
                                data: seq<Visit>, extracts: seq<Visit>, k: string)
    requires Aligned(sp, i.answers) && Obtained(sp, ns, i.answers, data, extracts) && !sp.templated
    requires k in SyncRound.CurrentData(SyncRound.Round(c, sp, w, i).secret)
    requires var before := SyncRound.CurrentData(w.secret);
      k !in before || before[k] != SyncRound.CurrentData(SyncRound.Round(c, sp, w, i).secret)[k]
    ensures FreshlyDelivered(sp, i.answers, data, extracts, k,
                             SyncRound.CurrentData(SyncRound.Round(c, sp, w, i).secret)[k])
  {
    SyncGuarantees.NewValuesWereFetched(c, sp, w, i, k);
    hide SyncRound.Round, Emission, VisitOf, Guaranteed, FetchedFresh;
    if k in ExtractOutput(sp.dataProcess, i.answers.extracts) {
      var n := ExtractSource(sp.dataProcess, i.answers.extracts, k);
      if Guaranteed(extracts[n], sp.dataProcess[n].extract.value) {
        VisitIsFresh(extracts[n], sp.dataProcess[n].extract.value, ns);
      }
    } else {
      var n := OutputSource(sp.data, i.answers.data, k);
      if Guaranteed(data[n], sp.data[n]) {
        VisitIsFresh(data[n], sp.data[n], ns);
      }
    }
  }
}
