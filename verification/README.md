# ack-secret-manager: a verified model

ack-secret-manager copies credentials from Alibaba Cloud KMS and OOS into Kubernetes
Secrets. A SecretStore (or ClusterSecretStore) object says how to log in; its controller
keeps a client for it in an in-memory registry. An ExternalSecret lists backend documents;
its controller fetches them with those clients and writes the target Secret.

This project models that logic in Dafny and proves what it promises: over every
interleaving of the store-client rebuild protocol, over every sequence of sync rounds with
arbitrary failures, and over every run of the client garbage collector. Check it with
`dafny verify dfyconfig.toml`.

## Layout

The rebuild protocol:

- `StoreStatus`: conditions, the equality debounce, and the in-memory status object.
- `StoreProtocol`: the protocol as a machine of atomic steps. The API server is the list of
  all versions of the store, so a read may return any version and a guarded write succeeds
  only from the last one.
- `StoreSafety`: the invariants of all runs (`Sound`) and of runs whose rounds see their own
  writes (`Timed`).
- `StoreTheorems`: freshness, exact trigger clearing, credential epochs, clientGeneration.
- `StoreReconciler`: the reconcile round in imperative form, proved to take exactly the
  machine's steps; self-triggering and convergence.
- `SecretTriggers`: which stores a changed Secret triggers, and what retries may repeat.

The client registry:

- `ClientKeys`, `ClientRegistry`, `RamStoppers`: the key space, the client manager with
  prefix deletion, and the credential refreshers under concurrent calls.
- `ExternalSecrets`, `StoreWatch`, `CompositeClients`: references and endpoints, the reverse
  watch index, and the collector of endpoint-specific clients.
- `ClientAccess`: how an entry obtains its client: access checks, freshness guard, cache miss.

The sync round:

- `SyncFetch`: what entries emit and which keys a failed entry is taken to own.
- `PartialFailure`: twin exemption, counting, guards and the merge.
- `SyncStatus`: the recorded results, their comparison, placeholders and the notice.
- `SyncRound`: one round as a function of the world it reads, and the reconciler class
  proved to compute that function.
- `SyncGuarantees`, `SyncQuiescence`, `LastKnownGood`: what rounds can do to the Secret and
  to the status, one at a time and in any number.
- `SyncOutcomes`: what one round leaves and reports, read off entries, answers and template.
- `FreshDelivery`: the rebuild protocol and the sync round together: with which clients the
  values in the Secret were fetched.

`DeepMerge` models the template functions that merge and look up JSON documents, on a heap
of objects, since Go maps are references.

## Hypotheses

- Rounds for one object are serial. Theorems about freshness, convergence and
  clientGeneration assume a round's reads see the controller's own earlier writes; exact
  trigger clearing and the credential epoch hold for arbitrarily stale reads too.
- The cache-miss path of the ExternalSecret controller (read the store, build, register) is
  one step, and so is listing objects and deleting the unreferenced clients.
- Trigger values are distinct timestamps, and only the controllers set or clear them.
- The reference checks of spec validation are a function of the spec (`refsOk`); everything
  else a client is built from is one opaque field.
- A freshness claim excludes stores whose last verdict is a validation failure and stores no
  round has reached (`Managed`). `GuardIsExact` proves that these are exactly the verdicts on
  which the guard cannot be trusted.
- The collector's runs need no hypothesis: `NoCompositeClientLeaks` says exactly which steps
  leak. A run is safe in particular when specs with endpoints are reconciled before their
  object is edited, and before an object without a finalizer is deleted (`Orderly`).
  `UnreconciledEditLeaks` and `UnseenDeletionLeaks` are concrete leaks.
- Backend answers, jmesPath matches and template output are arbitrary inputs of a round. Go's
  map iteration order is an input as well, and differs freely between rounds.
- The round reads one state of the Secret: nobody else edits it between the round's read and
  its write. Status writes reach the API server.
- ClusterSecretStoreReconciler is the same machine on the cluster-scoped object, and the OOS
  client manager is the same code as the KMS one. Each is modelled once.

## Where the code and its documentation part

- A partial failure can delete the Secret. `docs/advanced_usage.md` says it never does. The
  counter calls a round a total failure when a jmesPath entry that shares its document with
  another entry matches one alias that covers neither of them. `PartialFailureDeletes` gives
  the exact condition on flag and spec, and `PartialFailureDeletesHere` a smallest object.
- A total failure with cleanup off does not always skip the write. An untemplated round
  counted as total merges such jmesPath output in (`TotalFailureWithoutCleanup`).
- With the ClusterSecretStore controller disabled, an object that reports a failed document
  named `cluster_secret_store_controller_disabled` rewrites its status in every round: the
  notice and that record replace each other for ever. `StatusSettles` shows that this is the
  only case among fault-free, placeholder-free, non-deleting repetitions.
- While every source fails with cleanup on, each round refreshes the status even when the
  Secret is already gone, because a nil dataset never equals the current one
  (`TotalFailureRefreshesStatus`).
- Merging `{"a": {}}` over `{"a": [5]}` hides the path `a.0`: the base does not answer for a
  path the override lacks when an object replaced an array on the way. `LookupLaw` has the
  exact law.
- The initial-status branch of the store round is never taken: a round that keeps its client
  has already found a Ready condition (`KeptClientHasConditions`).
- The store predicate compares deletion timestamps as pointers, so while a store is being
  deleted every event passes, the controller's own included (`OwnWritesDoNotSelfTrigger`).
- Registering one refresher twice under a name stops it while it is still the current entry
  (`DoubleRegistrationStopsCurrent`).
- Prefix deletion looks only at client keys: a refresher filed under an endpoint key that has
  no client stays. `ClientRegistry.Manager.DeletePrefixed` states what is removed.

## Model

| member | source | states |
|---|---|---|
| ClientKeys.ParseKeyOf | pkg/backend/client_keys.go:13-28 | Every store, cluster, ENV and composite key is parsed back to the owner and endpoint it was built from |
| ClientKeys.KeyOfInjective | pkg/backend/client_keys.go:7-28 | Keys of different owners or endpoints differ |
| ClientKeys.VariantsAreOneOwner | pkg/backend/provider/kms/client_manager.go:53-66 | The prefix test matches a key exactly when the key belongs to that owner, plain or per endpoint |
| ClientKeys.VariantIsComposite | pkg/backend/client_keys.go:18-28 | Any string the prefix test accepts is a composite key of that client name, or the name with a bare separator |
| ClientRegistry.Manager.Register | pkg/backend/provider/kms/client_manager.go:25-41 | Stores the client under its name; a client without an SDK handle changes nothing |
| ClientRegistry.Manager.Delete | pkg/backend/provider/kms/client_manager.go:43-51 | Removes the client and its refresher; every refresher is still either current or stopped as often as it was detached |
| ClientRegistry.Manager.DeletePrefixed | pkg/backend/provider/kms/client_manager.go:53-72 | Removes exactly the plain and endpoint clients of the name and the refreshers under their keys; none is lost unstopped |
| ClientRegistry.Manager.RegisterRamProvider | pkg/backend/provider/provider_manager.go:31-47 | The new refresher becomes current and the replaced one is stopped once |
| ClientRegistry.Manager.StopProvider | pkg/backend/provider/provider_manager.go:49-67 | The detached refresher is stopped once, and all are accounted for |
| ClientRegistry.PrefixDeletionIsExact | pkg/backend/provider/kms/client_manager.go:53-72 | Over any registry of well-formed keys, prefix deletion leaves exactly the clients of the other owners |
| RamStoppers.Conservation | pkg/backend/provider/provider_manager.go:25-84 | Under every interleaving, registrations of a refresher equal the places it is current, in a caller's hand, or stopped |
| RamStoppers.StoppedExactlyOnce | pkg/backend/provider/provider_manager.go:25-84 | A refresher registered once is current and unstopped, or about to be stopped by exactly one call, or stopped exactly once |
| RamStoppers.DoubleRegistrationStopsCurrent | pkg/backend/provider/provider_manager.go:31-47 | Registering one refresher twice stops it while it is current |
| ExternalSecrets.RefKeysAgree | pkg/controller/externalsecret/store_watch.go:39-67 | Index key and client key of a reference agree exactly for references of a legal kind |
| ExternalSecrets.CollectCompositeKeys | pkg/controller/externalsecret/externalsecret_controller.go:385-411 | Collects exactly the endpoint-specific client keys the data and extract entries use |
| ExternalSecrets.SourcesAreEntries | pkg/controller/externalsecret/externalsecret_controller.go:385-411 | The sources of an object are its data entries and the extract blocks it has, and nothing else |
| ExternalSecrets.EndpointIsTrimmed | pkg/controller/externalsecret/externalsecret_controller.go:379-383 | A normalized endpoint is the endpoint without the space around it, however much there is |
| ExternalSecrets.CompositeKeysArePerEndpoint | pkg/controller/externalsecret/externalsecret_controller.go:385-411 | The keys an object holds are client name, separator and endpoint of its entries with an endpoint of their own; a plain client is never among them |
| StoreWatch.IsNamespaceWatched | pkg/utils/util.go:103-118 | Include mode as soon as one namespace is listed as watched, else all but the excluded |
| StoreWatch.WatchScopes | pkg/utils/util.go:103-118 | An excluded namespace is never watched, a listed one always, an unmentioned one exactly when none is listed |
| StoreWatch.StoreRefIndexKeys | pkg/controller/externalsecret/store_watch.go:69-97 | Yields exactly the non-empty index keys of all entries |
| StoreWatch.IndexedIffUses | pkg/controller/externalsecret/store_watch.go:69-97 | With legal kinds, an object is indexed under a store's key exactly when one of its entries resolves to that store's client |
| StoreWatch.EnqueueReferencing | pkg/controller/externalsecret/store_watch.go:99-134 | A store event enqueues exactly the watched objects with an entry resolving to that store, each once |
| ClientAccess.Source.ValidateSecretStoreAccess | pkg/controller/externalsecret/externalsecret_controller.go:975-1017 | Passes exactly the legal references to an existing store that this namespace may use |
| ClientAccess.Source.EnsureStoreClientFresh | pkg/controller/externalsecret/externalsecret_controller.go:817-888 | Passes exactly when the store exists, the kind is legal and the guard admits it; the stale error means only the guard refuses |
| ClientAccess.AccessRules | pkg/controller/externalsecret/externalsecret_controller.go:975-1017 | Which references lead to a store, by kind, namespace and flag, down to the key it is found under |
| ClientAccess.AccessServes | pkg/controller/externalsecret/externalsecret_controller.go:714-815 | A cached client of an accessible store is served once the status has caught up with the generation and no trigger is pending, and always for a cluster store whose controller is disabled or a store without a Ready condition; a missing one is built from the store and registered |
| ClientAccess.EnvironmentServes | pkg/controller/externalsecret/externalsecret_controller.go:749-781 | An entry without a store reference uses the ENV client, registered on first need, or a client of its endpoint; it is never refused as stale |
| ClientAccess.EndpointsHaveTheirOwnClients | pkg/controller/externalsecret/externalsecret_controller.go:714-726 | An entry with an endpoint uses a key its object answers for, one without the plain client, and entries of one store share a client exactly when their trimmed endpoints agree |
| ClientAccess.RoundRestoresAccess | pkg/controller/externalsecret/externalsecret_controller.go:817-888 | From any reachable state one undisturbed, fault-free store round over a valid spec is enough: every accessible entry is served again |
| ClientAccess.Source.GetSecretStore | pkg/controller/externalsecret/externalsecret_controller.go:1467-1541 | Yields the store exactly for the references the cached path accepts, though its checks are written out separately |
| ClientAccess.Source.GetOrCreateClient | pkg/controller/externalsecret/externalsecret_controller.go:709-815 | Serves the cached client, or one built from the store as it is and registers it, exactly when access and guard or construction allow; a refusal registers nothing |
| ClientAccess.UnindexedIsNeverServed | pkg/controller/externalsecret/store_watch.go:39-67 | The references without an index key are exactly those no call ever serves, so leaving them out of the index loses nothing |
| ClientAccess.AccessIsProtocolStep | pkg/controller/externalsecret/externalsecret_controller.go:783-814 | A call registers nothing or is the protocol's cache-miss step |
| ClientAccess.ServedClientIsCurrent | pkg/controller/externalsecret/externalsecret_controller.go:709-888 | In every run, a client served for a managed store was built from that store object at its current generation |
| FreshDelivery.DeliveredValuesAreFresh | pkg/controller/externalsecret/externalsecret_controller.go:606-707 | Every value an untemplated round adds or changes was emitted by one of its entries and fetched with a client of the generation its store had at that moment, for managed stores |
| CompositeClients.Tracker.DeleteUnreferenced | pkg/controller/externalsecret/externalsecret_controller.go:437-493 | Deletes exactly the given keys no other active object uses; a failed listing deletes nothing and is reported |
| CompositeClients.Tracker.ReconcileStale | pkg/controller/externalsecret/externalsecret_controller.go:538-564 | Reclaims what the spec gave up and tracks the current keys, or on a failed listing keeps the old snapshot |
| CompositeClients.Tracker.Cleanup | pkg/controller/externalsecret/externalsecret_controller.go:413-435 | On deletion reclaims the union of spec and tracked keys and forgets the object, or changes nothing |
| CompositeClients.Tracker.StoreCompositeKeys | pkg/controller/externalsecret/externalsecret_controller.go:511-529 | Afterwards the object is tracked with these keys, only objects that hold keys take up tracker state, and no other entry moved |
| CompositeClients.NoCompositeClientLeaks | pkg/controller/externalsecret/externalsecret_controller.go:389-564 | Over every run, each registered endpoint client all along has an object still answerable for it if and only if every step is safe: no edit or unseen deletion drops a key only that object's untracked spec answered for |
| CompositeClients.OrderlyRunsDoNotLeak | pkg/controller/externalsecret/externalsecret_controller.go:389-564 | Runs that reconcile specs with endpoints before editing or deleting their object are safe, so each registered client is tracked by or in the spec of an existing object |
| CompositeClients.CollectorSparesOthers | pkg/controller/externalsecret/externalsecret_controller.go:465-492 | The collector never deletes a key another active object uses |
| CompositeClients.CollectorSparesOwn | pkg/controller/externalsecret/externalsecret_controller.go:543-564 | Nor one the object's own round is about to use |
| CompositeClients.ListingIsInUse | pkg/controller/externalsecret/externalsecret_controller.go:465-482 | A complete listing yields exactly the keys in use by the other active objects |
| CompositeClients.UnreconciledEditLeaks | pkg/controller/externalsecret/externalsecret_controller.go:543-564 | Two concrete objects and a run in which an unreconciled edit leaves a client nobody will reclaim |
| CompositeClients.UnseenDeletionLeaks | pkg/controller/externalsecret/externalsecret_controller.go:303-307 | The same objects and a run in which deleting one no round has reached does so |
| StoreStatus.StatusObject.SetCondition | pkg/controller/secretstore/common.go:513-538 | The condition replaces the first of its kind or is appended, stamped with the object's generation and, on a transition only, the time |
| StoreStatus.WithConditionFound | pkg/controller/secretstore/common.go:513-538 | Afterwards that condition is the one found for its kind and every other kind is unchanged |
| StoreStatus.TransitionTimeMoves | pkg/controller/secretstore/common.go:513-538 | The stored transition time moves exactly when status, reason or message change |
| StoreStatus.CompareStatus | pkg/controller/secretstore/common.go:540-573 | Equality of capabilities, clientGeneration and conditions up to transition times |
| StoreStatus.EqualUpToTimes | pkg/controller/secretstore/common.go:540-573 | Two statuses are equal exactly when one is the other with different transition times |
| StoreStatus.RepeatSuppressed | pkg/controller/secretstore/common.go:634-638 | An unbumped status is not written exactly when the same verdict is recorded for the same generation |
| StoreStatus.BumpAlwaysWritten | pkg/controller/secretstore/common.go:627-638 | A bumped status is never taken for an unchanged one |
| StoreSafety.SoundRun | pkg/controller/secretstore/secretstore_controller.go:51-189 | Every run keeps: a rebuilding round's clients are no older than its purge, and its snapshot's trigger was patched before it |
| StoreSafety.TimedRun | pkg/controller/secretstore/secretstore_controller.go:51-189 | Every run with own-write reads keeps: a vouching status means current clients, and clientGeneration counts rebuilds |
| StoreTheorems.GuardedClientsAreCurrent | pkg/controller/externalsecret/externalsecret_controller.go:822-888 | Whenever the guard admits a managed store, every client cached for it was built from that object at its current generation and no trigger is pending |
| StoreTheorems.GuardRefusesOnlyUnfinishedRebuilds | pkg/controller/externalsecret/externalsecret_controller.go:869-887 | The guard refuses the cached client of an accepted store exactly while the store controller still has a rebuild to do for it |
| StoreTheorems.GuardWithoutController | pkg/controller/externalsecret/externalsecret_controller.go:856-877 | With the controller disabled no status makes the guard refuse; nor does a store without a Ready condition |
| StoreTheorems.TriggerClearedOnlyByItsRound | pkg/controller/secretstore/secretstore_controller.go:97-157 | A trigger vanishes only in the guarded patch of a round whose snapshot carried that value, after its bump was persisted |
| StoreTheorems.ClearedTriggerMeansRotatedClients | pkg/controller/secretstore/secretstore_controller.go:105-157 | When a trigger is cleared, every cached client of the store uses credentials at least as new as when it was patched |
| StoreTheorems.LateTriggerSurvives | pkg/controller/secretstore/secretstore_controller.go:124-157 | A trigger that appears during a round outlives that round |
| StoreTheorems.ClientGenerationCountsRebuilds | pkg/controller/secretstore/common.go:607-698 | clientGeneration equals the number of persisted rebuilds and moves only by one more of them |
| StoreTheorems.RebuildAlwaysReported | pkg/controller/secretstore/common.go:627-640 | After registering a rebuilt client the bumped status is always sent |
| StoreTheorems.KeptClientHasConditions | pkg/controller/secretstore/secretstore_controller.go:166-173 | A round that keeps its client has conditions, so the initial-status branch is dead |
| StoreReconciler.Reconciler.Reconcile | pkg/controller/secretstore/secretstore_controller.go:51-189 | For every combination of API outcomes the round leaves the world where the protocol's steps lead |
| StoreReconciler.Reconciler.UpdateStatus | pkg/controller/secretstore/common.go:607-698 | Writes the drafted status on a fresh copy only on a change, as the protocol's write steps do |
| StoreReconciler.Reconciler.HandleDeletion | pkg/controller/secretstore/common.go:575-605 | Retires the store's clients, then drops the finalizer |
| StoreReconciler.Reconciler.Recreate | pkg/controller/secretstore/secretstore_controller.go:105-157 | Builds, registers, reports and clears in the protocol's order |
| StoreReconciler.Reconciler.ClearTriggerAnnotation | pkg/controller/secretstore/secretstore_controller.go:124-157 | Clears only the value the round's snapshot carried, from the newest version |
| StoreReconciler.Reconciler.DraftStatus | pkg/controller/secretstore/common.go:616-638 | Drafts capabilities, bump and condition, and says whether anything changed |
| StoreReconciler.DriveIsRun | pkg/controller/secretstore/secretstore_controller.go:51-189 | An uninterrupted round is one of the runs the safety theorems cover |
| StoreReconciler.RoundKeepsInvariants | pkg/controller/secretstore/secretstore_controller.go:51-189 | A whole round keeps both invariants |
| StoreReconciler.OwnWritesDoNotSelfTrigger | pkg/controller/externalsecret/predicates.go:123-144 | A round's own write wakes the store controller only while the store is being deleted, and the ExternalSecret watch exactly when it persists a rebuild or makes the store vanish, which only removing the finalizer does |
| StoreReconciler.OutsideChangesAreSeen | pkg/controller/secretstore/predicates.go:25-56 | In every run each edit, trigger, deletion request and re-creation of a store wakes the store controller, and all but the trigger the ExternalSecret watch |
| StoreReconciler.NoLostWakeUp | pkg/controller/secretstore/predicates.go:29-54 | Whoever writes a new version of a store, if it leaves a rebuild to do that was not there before, its event wakes the controller |
| StoreReconciler.RoundRecordsItsVerdict | pkg/controller/secretstore/secretstore_controller.go:86-157 | After an undisturbed round a spec without exactly one provider or with illegal references is recorded as ValidationFailed and no client is touched; a failed construction as ClientCreationFailed, with all clients retired and the trigger pending; otherwise the store is Valid, its trigger cleared and its client there |
| StoreReconciler.RebuildDelivers | pkg/controller/secretstore/secretstore_controller.go:97-157 | A rebuild leaves one client of the store, built from it as it is with the current credentials, none per endpoint and none at the other provider, touches no other store's clients, and announces itself by one generation and ReadOnly |
| StoreReconciler.DeletionCompletes | pkg/controller/secretstore/common.go:575-605 | One undisturbed round over a store being deleted retires its plain and endpoint clients, leaves all others, and lets the store go |
| StoreReconciler.RoundReopensGuard | pkg/controller/externalsecret/externalsecret_controller.go:869-887 | From any reachable state one undisturbed, fault-free round over a valid spec makes the guard admit the store |
| StoreReconciler.Converges | pkg/controller/secretstore/secretstore_controller.go:51-189 | From any reachable state with a valid spec one undisturbed fault-free round settles the store, later rounds change nothing, and the watch sees one event if it rebuilt, else none |
| StoreReconciler.SettledIsQuiet | pkg/controller/secretstore/common.go:634-697 | A settled store is left alone whatever the API would answer |
| StoreReconciler.RejectedEditKeepsOldClients | pkg/controller/secretstore/secretstore_controller.go:86-95 | After a rejected edit is recorded the guard admits clients that all predate the edit |
| StoreReconciler.UnmanagedStoreAdmitsOldClient | pkg/controller/externalsecret/externalsecret_controller.go:869-877 | A re-created store no round has reached can be served by its predecessor's client |
| StoreReconciler.GuardIsExact | pkg/controller/externalsecret/externalsecret_controller.go:869-887 | Over all reachable states with a given verdict the guard admits only current clients, if and only if there is a verdict and it is not a validation failure |
| SecretTriggers.Controller.Reconcile | pkg/controller/secret/secret_controller.go:38-128 | Patches the due stores of both passes in order; a vanished store is skipped, and a failed read, listing or patch ends the round there |
| SecretTriggers.ReferencedIffCredential | pkg/controller/secret/secret_controller.go:130-189 | A Secret matches a store exactly when one of its credential references resolves to it |
| SecretTriggers.SweepIsExact | pkg/controller/secret/secret_controller.go:58-86 | A pass touches only due stores, and when it completes every due store that exists carries a trigger stamped in the pass |
| SecretTriggers.CompletedRoundTriggers | pkg/controller/secret/secret_controller.go:38-128 | When a round runs through, every due store that exists carries a trigger stamped by it; cluster stores only while their controller is enabled |
| SecretTriggers.RoundTouchesOnlyDue | pkg/controller/secret/secret_controller.go:88-96 | A round changes the trigger only of a store with a due listing; of no cluster store while their controller is disabled |
| SecretTriggers.RoundCompletes | pkg/controller/secret/secret_controller.go:38-128 | With accepted patches a round completes exactly when the Secret can be read and the listings it needs succeed |
| SecretTriggers.PatchesAreConserved | pkg/controller/secret/secret_controller.go:58-86 | Over any attempts and clears, however stale the listings, each patch of a store is cleared once, overwritten while pending, or pending now |
| SecretTriggers.RetriesPatchOnce | pkg/controller/secret/secret_controller.go:64-72 | With accurate listings, retries patch a store exactly as often as its trigger is cleared, plus one if it is pending now and less one if it was at the start |
| SyncFetch.GetJsonSecrets | pkg/utils/util.go:211-280 | Emits what JsonSecretsValue and JsonSecretsKey describe |
| SyncFetch.JsonSecretsValue | pkg/utils/util.go:232-277 | Each key holds the value of the last matched expression whose alias it is, or that has no alias when it is the document key |
| SyncFetch.JsonSecretsKey | pkg/utils/util.go:232-277 | Every emitted key comes from such an expression |
| SyncFetch.ProcessExternalSecretData | pkg/backend/provider/common/process_secret_data.go:28-51 | Emits the matched aliases, or the raw document under the entry's own key when nothing matched |
| SyncFetch.TargetKeysAreEmittable | pkg/controller/externalsecret/partial_failure.go:118-145 | A failed entry is taken to own a key exactly when some backend answer would have emitted it |
| SyncFetch.EmissionNonEmpty | pkg/backend/provider/common/process_secret_data.go:28-51 | A successful entry emits at least one key, all among its target keys; without jmesPath exactly its own |
| SyncFetch.EmissionExact | pkg/backend/provider/common/process_secret_data.go:28-51 | A fetched entry emits each matched alias with its own value and nothing else, or, when nothing matches or the document does not parse, exactly the raw document under its name or key |
| SyncFetch.GetExternalSecret | pkg/controller/externalsecret/externalsecret_controller.go:606-648 | Merged output, errors by document and documents fetched of all data entries |
| SyncFetch.GetExternalSecretWithExtract | pkg/controller/externalsecret/externalsecret_controller.go:650-707 | The same for the extract entries |
| SyncFetch.ErrorKeys | pkg/controller/externalsecret/externalsecret_controller.go:609-647 | A document is in the error map exactly when some entry naming it failed |
| SyncFetch.ErrorsExact | pkg/controller/externalsecret/externalsecret_controller.go:609-647 | The error kept for a document is that of the last failed entry naming it |
| SyncFetch.OutputExact | pkg/controller/externalsecret/externalsecret_controller.go:609-647 | A key holds what the last fetched entry that emits it emitted |
| SyncFetch.ExtractErrorKeys | pkg/controller/externalsecret/externalsecret_controller.go:653-706 | The same for the extract side |
| SyncFetch.ExtractErrorsExact | pkg/controller/externalsecret/externalsecret_controller.go:653-706 | The same as ErrorsExact for the extract entries |
| SyncFetch.ExtractOutputExact | pkg/controller/externalsecret/externalsecret_controller.go:653-706 | The same as OutputExact for the extract entries |
| SyncFetch.ExtractsWin | pkg/controller/externalsecret/externalsecret_controller.go:1091-1117 | A key written by an extract entry and by a data entry holds the extract entry's value |
| PartialFailure.DataEntryTargetCovered | pkg/controller/externalsecret/partial_failure.go:238-272 | A failed entry is exempt exactly when its document was also fetched and all its aliases or its fallback key are in the output |
| PartialFailure.FailedUncoveredEntries | pkg/controller/externalsecret/partial_failure.go:274-287 | Marks exactly the failed entries without an exemption |
| PartialFailure.CountFailedSources | pkg/controller/externalsecret/externalsecret_controller.go:1396-1441 | Counts entries, genuine failures and distinct failed keys |
| PartialFailure.CountingIsExact | pkg/controller/externalsecret/externalsecret_controller.go:1401-1441 | Failures never exceed entries; all failed means each one did; a counted failure leaves a failed key; no failed key means no error |
| PartialFailure.TotalFailureSoundness | pkg/controller/externalsecret/externalsecret_controller.go:1151-1153 | In a round counted as total no plain and no extract entry was fetched, and a fetched jmesPath entry emitted a proper part of its aliases and not its fallback key |
| PartialFailure.TotalFailureMeansNothingFetched | pkg/controller/externalsecret/externalsecret_controller.go:1151-1153 | Rounds counted as total fetched nothing, for every backend answer, exactly on the specs without an exposed jmesPath twin |
| PartialFailure.CollectFailedEntryTargetKeys | pkg/controller/externalsecret/partial_failure.go:118-166 | Collects the target keys of all failed data entries and whether a failed extract forces retention of everything |
| PartialFailure.MergeWithFailedKeys | pkg/controller/externalsecret/partial_failure.go:85-116 | Fresh values win, and exactly the retained keys of the current data are added |
| SyncStatus.BuildDataSyncResults | pkg/controller/externalsecret/status_sync_results.go:32-104 | Builds the round's records from entries and error maps in any iteration order |
| SyncStatus.StatusAgreesWithCounting | pkg/controller/externalsecret/status_sync_results.go:37-104 | Success is reported exactly when no source was counted as failed; otherwise one record per failed document on each side and nothing else |
| SyncStatus.BuildIsOrderFree | pkg/controller/externalsecret/status_sync_results.go:68-93 | The records do not depend on map order or time, up to order |
| SyncStatus.DataSyncResultsChanged | pkg/controller/externalsecret/status_sync_results.go:106-124 | Reports a change exactly when some key, status and reason occur a different number of times |
| SyncStatus.RecordsCarryTheirErrors | pkg/controller/externalsecret/status_sync_results.go:32-104 | Every record has the round's time and is the one success record, or names a failed document and carries the message of the last entry that failed to fetch it |
| SyncStatus.RetainResourceManagementPlaceholder | pkg/controller/externalsecret/status_sync_results.go:172-195 | Appends the placeholders of the old list that the fresh one would drop |
| SyncStatus.RetainedExact | pkg/controller/externalsecret/status_sync_results.go:172-195 | One record per retained placeholder key, none for keys already reported |
| SyncStatus.MergeResourceManagementResults | pkg/controller/externalsecret/status_sync_results.go:197-225 | Keeps document records and the notice and adds the placeholder |
| SyncStatus.PlaceholderSupersedes | pkg/controller/externalsecret/status_sync_results.go:197-225 | A placeholder replaces all earlier ones and the success verdict and leaves every genuine record with its multiplicity |
| SyncStatus.RetainCSSDisabledNotice | pkg/controller/externalsecret/status_sync_results.go:227-247 | Carries the notice over unless the fresh records already use its key |
| SyncStatus.WithNotice | pkg/controller/externalsecret/externalsecret_controller.go:947-955 | Drops earlier notices and appends the fresh one |
| SyncStatus.NoticeSettles | pkg/controller/externalsecret/externalsecret_controller.go:928-965 | Recording the notice leaves exactly one record with its key, and changes nothing exactly when that was already so |
| SyncRound.CollectDisabledReferences | pkg/controller/externalsecret/externalsecret_controller.go:901-926 | The distinct ClusterSecretStores the entries refer to |
| SyncRound.TargetsHold | pkg/controller/externalsecret/externalsecret_controller.go:1376-1394 | Every rendered target is present with an equal value, a missing one counting as empty |
| SyncRound.ResolveWriteData | pkg/controller/externalsecret/externalsecret_controller.go:1443-1465 | Nothing on total failure with cleanup, the merge on partial failure, the draft otherwise; what that leaves in the Secret is in SyncOutcomes |
| SyncRound.Reconciler.UpdateResourceManagementStatus | pkg/controller/externalsecret/externalsecret_controller.go:282-301 | Merges the placeholder in and writes only on a change |
| SyncRound.Reconciler.RecordCSSControllerDisabledStatus | pkg/controller/externalsecret/externalsecret_controller.go:928-965 | Records the notice when active and says whether it wrote |
| SyncRound.Reconciler.UpdateExternalSecretStatus | pkg/controller/externalsecret/status_sync_results.go:249-284 | Builds, retains and writes the results, debounced unless forced |
| SyncRound.Reconciler.HandleSecretOperation | pkg/controller/externalsecret/secret_operation_handler.go:35-167 | The Secret is gone only on the deletion contract, or if absent in a terminating namespace; otherwise it holds exactly the data, every rendered target and all its other metadata |
| SyncRound.Reconciler.TemplateStage | pkg/controller/externalsecret/externalsecret_controller.go:1199-1317 | The notice and template stage ends the round or yields the draft the round function names |
| SyncRound.Reconciler.WriteStage | pkg/controller/externalsecret/externalsecret_controller.go:1319-1374 | Deferred status, skip decision, write and forced status as the round function says |
| SyncRound.Reconciler.SyncIfNeedUpdate | pkg/controller/externalsecret/externalsecret_controller.go:1026-1374 | The whole round computes the round function of world and inputs |
| SyncGuarantees.SecretAfter | pkg/controller/externalsecret/externalsecret_controller.go:1331-1371 | The Secret changes only through a write stage that neither skips nor fails nor finds it up to date |
| SyncGuarantees.DataLostOnlyByTotalFailure | pkg/controller/externalsecret/externalsecret_controller.go:1151-1371 | A Secret with data is emptied or deleted exactly when an uninterrupted round counts every source as failed with cleanup on and the delete succeeds; then it is deleted |
| SyncGuarantees.PartialFailureDeletes | pkg/controller/externalsecret/externalsecret_controller.go:1151-1371 | Some round deletes a Secret with data although a source was fetched, if and only if cleanup is on and the spec has an exposed jmesPath twin |
| SyncGuarantees.PartialFailureDeletesHere | pkg/controller/externalsecret/partial_failure.go:238-272 | Two entries naming one document with two aliases each are such a spec |
| SyncGuarantees.NewValuesWereFetched | pkg/controller/externalsecret/externalsecret_controller.go:1343-1371 | Whatever an untemplated round adds to the Secret or changes in it was fetched in that round |
| SyncGuarantees.FailedKeysAreRetained | pkg/controller/externalsecret/partial_failure.go:85-166 | In every other round a key a failed entry could have produced survives, with its old value unless another entry fetched it |
| SyncGuarantees.TemplatesFailClosed | pkg/controller/externalsecret/partial_failure.go:29-56 | A templated object with any failed source keeps its Secret untouched unless it is lost to total failure |
| SyncGuarantees.TotalFailureWithoutCleanup | pkg/controller/externalsecret/externalsecret_controller.go:1331-1343 | With cleanup off a round counted as total keeps every Secret exactly when the object is templated or nothing was fetched |
| SyncQuiescence.StatusSettles | pkg/controller/externalsecret/status_sync_results.go:249-284 | Repeating a calm, non-deleting round: from the third on nothing is written and at most one notice is present, exactly when no failed document uses the notice's key |
| SyncQuiescence.ChurnsWithClash | pkg/controller/externalsecret/externalsecret_controller.go:939-965 | With such a document every round from the second on writes the status |
| SyncQuiescence.NoticeClashHappens | pkg/controller/externalsecret/status_sync_results.go:235-240 | A concrete object and run in which the clash occurs |
| SyncQuiescence.RecoveryBegins | pkg/controller/externalsecret/status_sync_results.go:249-284 | A witness only: the hypotheses of StatusSettles can be met without a clash, from any world, with the notice active and cleanup on |
| SyncQuiescence.SecretSettles | pkg/controller/externalsecret/externalsecret_controller.go:1351-1373 | What a calm, non-deleting round leaves in the Secret the same round would not touch |
| SyncQuiescence.TotalFailureRefreshesStatus | pkg/controller/externalsecret/externalsecret_controller.go:1448-1451 | A total failure with cleanup writes the status every time and leaves no Secret |
| SyncQuiescence.OwnPlaceholderStaysVisible | pkg/controller/externalsecret/externalsecret_controller.go:1319-1322 | A placeholder written in a round is still reported when the round ends |
| LastKnownGood.SecretIsLastKnownGood | pkg/controller/externalsecret/externalsecret_controller.go:1027-1374 | After any run with any failures each entry's keys hold what it emitted in the latest delivered round that fetched it, reset only by loss, and an owned Secret holds nothing else |
| LastKnownGood.MergeByEntry | pkg/controller/externalsecret/partial_failure.go:92-116 | Seen through one entry's keys the merge is its fresh output or, if it failed, what was there |
| LastKnownGood.TotalIsExact | pkg/controller/externalsecret/externalsecret_controller.go:1401-1441 | With distinct documents and separate targets a round counts as total exactly when nothing was fetched |
| LastKnownGood.CleanRoundPublishes | pkg/controller/externalsecret/externalsecret_controller.go:1343-1371 | An untemplated round without failures publishes exactly what it fetched |
| SyncOutcomes.TemplatedRoundPublishes | pkg/controller/externalsecret/externalsecret_controller.go:1279-1371 | With all sources fetched and a write that is accepted, the Secret of a templated object holds the rendered data alone, warnings or not, every rendered label and annotation is on it and its other metadata is as before; a template of metadata alone leaves no Secret under cleanup, unless nothing had to be written |
| SyncOutcomes.RoundPublishesExactly | pkg/controller/externalsecret/externalsecret_controller.go:1343-1371 | An untemplated round that fetched something leaves what was emitted and the old values of exactly the other keys lost with a failed document, and no other metadata |
| SyncOutcomes.NothingFetchedRound | pkg/controller/externalsecret/externalsecret_controller.go:1448-1451 | With sources declared and none fetched the Secret is deleted under cleanup and left alone otherwise |
| SyncOutcomes.CountsMatchAnswers | pkg/controller/externalsecret/externalsecret_controller.go:1396-1441 | No key counts as failed exactly when every source was fetched; sources are declared exactly when counted; declared and none fetched is a total failure |
| SyncOutcomes.FailureIsCountedExactly | pkg/controller/externalsecret/partial_failure.go:238-287 | An entry counts as failed exactly when some entry naming its document failed, unless one was fetched too and the entry's own key or all its aliases were written by fetched sources |
| SyncOutcomes.AbortedRoundIsSilent | pkg/controller/externalsecret/externalsecret_controller.go:1118-1133 | The round is stale exactly when the last error of some document is the guard's; then, or when cancelled, it changes and reports nothing |
| SyncOutcomes.FaultIsReported | pkg/controller/externalsecret/externalsecret_controller.go:1043-1085 | A resource-level failure is on record under its key with its message and leaves the Secret |
| SyncOutcomes.ZeroOutputIsReported | pkg/controller/externalsecret/externalsecret_controller.go:1155-1188 | Fetched sources that emit nothing, or no source for a Secret with data: the Secret stays whatever cleanup says, and the guard is on record with its count |
| SyncOutcomes.EmptyRenderingIsReported | pkg/controller/externalsecret/externalsecret_controller.go:1286-1305 | A rendering without data keys where there is something to lose leaves the Secret and is on record with the message of its case |
| SyncOutcomes.FatalTemplateIsReported | pkg/controller/externalsecret/externalsecret_controller.go:1233-1254 | A fatal template leaves the Secret and is on record as such when all sources were fetched; with failed sources it is still reported when the round ends |
| SyncOutcomes.WarningsAreReported | pkg/controller/externalsecret/externalsecret_controller.go:1258-1275 | Template warnings are on record when the round ends, and the rendered data is written |
| SyncOutcomes.RefusedWriteIsReported | pkg/controller/externalsecret/externalsecret_controller.go:1358-1366 | A refused write of a clean dataset leaves the Secret and is on record |
| SyncOutcomes.ChangeRefreshesStatus | pkg/controller/externalsecret/externalsecret_controller.go:1368-1371 | Whenever a round changes the Secret it writes the status, with every record of the round stamped with its time |
| SyncOutcomes.NoticeListsClusterStores | pkg/controller/externalsecret/externalsecret_controller.go:901-965 | With the cluster store controller disabled a calm round leaves one warning that lists exactly the cluster stores the object reads from |
| SyncOutcomes.NoNoticeOtherwise | pkg/controller/externalsecret/externalsecret_controller.go:967-974 | Otherwise rounds write no notice and keep none |
| DeepMerge.Merger.Merge | pkg/controller/externalsecret/template_processor.go:463-498 | The recursion with its mutable visited set computes the merge on every heap and restores the set |
| DeepMerge.ExtractJSONPath | pkg/controller/externalsecret/template_processor.go:412-452 | The walk finds what the path denotes, through objects and arrays |
| DeepMerge.AtoiReads | pkg/controller/externalsecret/template_processor.go:429-438 | Path parts are read as signed decimal numbers, each number as itself, and anything else is refused |
| DeepMerge.ChildIsWhatThePathNames | pkg/controller/externalsecret/template_processor.go:412-452 | Item n of an array under the number n and nothing outside it, the entry of an object under its key, nothing below a primitive |
| DeepMerge.FindComposes | pkg/controller/externalsecret/template_processor.go:412-452 | A path one part longer is one step further from where the path leads |
| DeepMerge.LookupLaw | pkg/controller/externalsecret/template_processor.go:463-498 | At every path of any acyclic base the override answers, or where it lacks the path the base does, except below an array an object replaced |
| DeepMerge.HiddenArrayCounterexample | pkg/controller/externalsecret/template_processor.go:484-495 | A merge that loses a path the base had and the override lacks |
| DeepMerge.CycleCheckIsExact | pkg/controller/externalsecret/template_processor.go:468-478 | No override sets the cycle check off exactly when the base has no cycle |
| DeepMerge.MergeIdentities | pkg/controller/externalsecret/template_processor.go:463-498 | Merging with itself, with the empty object or into it changes no answer |

## Left out

- StoreTheorems.GuardedClientsAreCurrent: excludes stores whose recorded verdict is a validation failure and stores no round has reached, because the code's guard admits old clients there; GuardIsExact proves that nothing else need be excluded.
- CompositeClients.NoCompositeClientLeaks: assumes one provider and all objects watched; a change of spec.provider between rounds is not modelled.
- FreshDelivery.DeliveredValuesAreFresh: speaks of the moment of each fetch; a store may be edited between an entry's fetch and the Secret write. Template output is not traced to its sources.
- LastKnownGood.SecretIsLastKnownGood: for untemplated objects whose entries name distinct documents and own separate keys, without extract blocks; the retention and loss theorems cover all others.
- SyncQuiescence.StatusSettles: for rounds without faults, placeholders and deletions, because the code writes in the others.
- SecretTriggers.RetriesPatchOnce: assumes each attempt lists the stores as they are; a stale listing can overwrite a pending trigger, which PatchesAreConserved counts.
- Kubernetes plumbing: informer caches, work queues, requeue delays, Helm and flags. Reads and writes are atomic and may fail; guarded patches may conflict.
- KMS, OOS and STS calls, SDK clients, tokens, certificates, retry and backoff: a fetch is an arbitrary success or error.
- Template, jmesPath, YAML and JSON evaluation: their results are arbitrary inputs. The replaceKey rewriting of extract entries is part of the arbitrary extract output.
- The message texts of errors, except where a status comparison depends on them; numbers in guard messages are kept as numbers.
- That every credential Secret change reaches a client: a store already carrying a trigger is skipped (pkg/controller/secret/secret_controller.go:64-72), so a change after an in-flight round has read the Secret may go without its own trigger. The credential claims are about triggers actually patched.
- Status API write failures of the ExternalSecret round: the in-memory results are then dropped and the next round starts from the stored ones.
- Status quiescence of rounds that write a placeholder: template-warning rounds drop and restore the success entry every time.
- The int64 range of clientGeneration and generation: numbers are unbounded.
- Finalizers of other controllers and user edits of the trigger annotation.
- The bounded wait when stopping a refresher: a stop counts when it is issued.
- Registration racing inside a prefix deletion, and concurrent ExternalSecret rounds inside one list-then-delete: each is one step, as the interface documents them as non-atomic.
- The ServiceAccount controller patches triggers the same way as the Secret controller and is not modelled a second time.
- EnsureENVClient and its cache, namespace selector evaluation, refresh windows, ClusterExternalSecret: short branches, or claims that hold only without faults.
- The concurrent creation of the target Secret between the existence check and the create.
- Splitting a dot path into parts: lookups take the parts.
