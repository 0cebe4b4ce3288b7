# Veyra: a verified model of the state, the runtime and the test peer

Veyra keeps one persisted application state that several writers change, and one sing-box process
that has to follow it. This project models how the two stay consistent, and two neighbours of that
core: the WireGuard test peer that judges packets, and the chain of schema migrations. Everything is
written in Dafny 4.11; `dafny verify dfyconfig.toml` checks the whole project.

| file | models |
|---|---|
| Common, Domain | sequences, stable sorting, the persisted state, its validity, pool membership |
| Projection, ProjectionMeaning | the compiler from the state to the runtime intent, and what a projection is in terms of the stored rows |
| Routing, RoutingMeaning, RoutingManager | route and pool edits, what each leaves and when it is refused, the routing revision, the compare-and-set transaction |
| Edits, CommitLaws, CommitMeaning, CommitSuccess, DeleteIntegrity | what each subscription writer computes, what that leaves field by field, when it succeeds, and laws across them |
| Writers, Progress, History | any number of writers over one register: gate, single-writer flag, shutdown barrier; what they keep and what they can always still do |
| Subscriptions | the subscription writers and the scheduler's pass as they run |
| Observations, ObservationMeaning | the runtime observation, what a run of it shows, and the front end's parser and ordering of it |
| Sidecar, ManagedRuntime | the owned core, and the two prepare / persist / commit protocols |
| SelectorIndex, ApplyView, PoolPreview | what the user is told about selectors, the applied configuration and pool members |
| Packets, WireFormat, TcpObserver, RejectRun | checksum, packet parser, the packets it reads, TCP observer and phase machine of the test peer |
| Migration, MigrationMeaning | the schema migration chain on JSON documents, and what it makes of every field |

How the model is built:

- Code that computes is a function. Code that changes state is a class with methods or a method with
  loops, and its contract equates the new state with a function of the old one; the laws are proved
  about that function and as invariants of the class.
- The store is an atomic register whose save replaces the value or fails unchanged. Gate, file,
  process, clock and deadline outcomes are parameters, so every result holds for all of them. What
  other writers save between the two critical sections of an operation is a parameter too
  (`interference`), and in Writers it is every interleaving of single steps of any number of threads.
- Integers are unbounded; 32-bit wrap-around, 64-bit saturation, the signed 32-bit priority limit
  and the safe-integer limit of JavaScript are written out where the program has them.

Two claims that read well are false, and the project says exactly when they hold:

- "A document save answers Ok exactly when the new state is the persisted one" fails for a save that
  changes nothing: it can be refused (the gate is taken, the candidate cannot be prepared) while the
  register already holds what it wanted. `OkMeansPersistedExactlyWhenStateChanges` proves that the
  claim holds in every environment the write guard allows if and only if the save changes the state,
  and `SavingTheSameTextChangesNothing` gives a save for which it fails. `SaveChangesExactly` says in
  terms of the stored row and the text sent when a save changes the state. What the guard allows is
  proved too: `GuardHolderKeepsRows` says that others then leave subscriptions and nodes alone.
- "The parser accepts everything the producer publishes" fails for 64-bit counters beyond the safe
  integers (`UnsafeTotalIsRejected`). `RunsAreAccepted` proves that every publication of a run is
  accepted if and only if the times and counters handed to the record calls are safe integers.

One entry of a table in the migration has no effect: tuic is renamed by the protocol table, but no
options are built for it, so a version 1 or 2 document with a tuic node cannot be migrated
(`TuicNodesAreNotMigrated`, and `MigratesExactly` for everything that can).

## Model

| member | source | states |
|---|---|---|
| `Projection.CollectPools` | src-tauri/src/application/selected_subscription.rs:83-116 | the loop that grows the selected ids while filtering implicit pools by them computes, for each pool, what the pool yields on its own; it conflicts exactly when some pool in play is unusable |
| `Projection.ImplicitMembersAreOwn` | src-tauri/src/application/selected_subscription.rs:85-97 | why the filter removes nothing: narrowed members of an implicit pool all belong to the active subscription |
| `Projection.ProjectSelectedRuntime` | src-tauri/src/application/selected_subscription.rs:26-171 | the whole compiler, loop and sorts included, computes the pool-by-pool projection, errors included |
| `Projection.ProjectionIsClosed` | src-tauri/src/application/selected_subscription.rs:26-171 | pools non-empty, members compiled, manual choices members, ids and members strictly sorted, targets of routes and default exist, default configured; all own nodes are there and a foreign node only if an enabled custom pool holds it |
| `Projection.SampleProjects` | src-tauri/src/application/selected_subscription.rs:26-171 | one subscription with one provider and one node is a valid state that projects |
| `Projection.CustomPoolsAreCompiled` | src-tauri/src/application/selected_subscription.rs:83-116 | every enabled custom pool is compiled with exactly the nodes its sources take |
| `Projection.OrderOfPoolsAndRoutesIsIrrelevant` | src-tauri/src/application/selected_subscription.rs:83-141 | result or error of a valid state depends only on which pools and routes it has, not on their order |
| `ProjectionMeaning.ProjectionIsRight` | src-tauri/src/application/selected_subscription.rs:26-171 | said of the stored rows alone: the own pool holds all own nodes, each enabled pool with a counting source is compiled with exactly the nodes its counting sources take, the nodes are the own and the needed foreign ones, routes are the enabled ones by priority, an unconfigured default becomes the own pool and any other default comes out as it was |
| `ProjectionMeaning.ProjectionIsDetermined` | src-tauri/src/application/selected_subscription.rs:26-171 | a state has at most one such projection |
| `ProjectionMeaning.ProjectsExactly` | src-tauri/src/application/selected_subscription.rs:26-171 | which states have a projection, and which of the four errors the others get |
| `ProjectionMeaning.SameRowsSameProjection` | src-tauri/src/application/selected_subscription.rs:26-171 | two valid states with the same pools, routes, providers, node set and subscription ids have the same projection |
| `PoolPreview.FilterPoolNodes` | src/lib/proxy-routing.ts:34-40 | the editor lists only members the program resolves, and exactly those when every provider is named once, as the program demands of a stored pool |
| `Routing.NormalizePriorities` | src-tauri/src/application/proxy_routing.rs:1295-1300 | in place: route i gets priority i, refused beyond the signed 32-bit range |
| `Routing.ReorderAcceptsPermutations` | src-tauri/src/application/proxy_routing.rs:1107-1115 | the three checks accept exactly the permutations of the route ids |
| `Routing.ReorderLoop` | src-tauri/src/application/proxy_routing.rs:1116-1125 | the remove-and-push loop always finds its route and yields the routes in the requested order |
| `Routing.ReorderYieldsTheRequestedOrder` | src-tauri/src/application/proxy_routing.rs:1107-1127 | an accepted reorder lists the requested ids in order, each route unchanged but for its priority, which is its position |
| `Routing.ApplyMutation` | src-tauri/src/application/proxy_routing.rs:948-1131 | all nine mutations as the program makes them, lookups and loops included, compute the edit function, refusals included |
| `RoutingMeaning.MutationsDoWhatTheySay` | src-tauri/src/application/proxy_routing.rs:948-1131 | for each of the nine mutations, field by field and place by place, what is there afterwards (a new route where it was asked for, exactly the named object updated or gone, the rest as before up to priority), and exactly when and why it is refused |
| `Routing.ProjectedRoutesAreInListOrder` | src-tauri/src/application/selected_subscription.rs:130-141 | with list priorities the sort by priority and id returns the enabled routes in list order |
| `RoutingManager.RevisionNamesOneMaterial` | src-tauri/src/application/proxy_routing.rs:470-491 | over any observations the revision never goes back and equal revisions mean equal material |
| `RoutingManager.MaterialNamesItsParts` | src-tauri/src/application/proxy_routing.rs:441-466 | materials are equal exactly when selection, generation, providers, pools, default, routes and the shown part of every node are |
| `RoutingManager.MaterialShowsEveryEdit` | src-tauri/src/application/proxy_routing.rs:441-466 | an edit that leaves the compared material alone leaves the state alone |
| `RoutingManager.NextState` | src-tauri/src/application/proxy_routing.rs:597-651 | what is saved is the edit moved to the next generation unless it is a manual selection, valid, and only below the revision limit; a no-op saves nothing |
| `RoutingManager.ProxyRoutingManager.ObserveStore` | src-tauri/src/application/proxy_routing.rs:476-486 | observing names the stored material, and never renames an earlier revision |
| `RoutingManager.ProxyRoutingManager.CommitMutation` | src-tauri/src/application/proxy_routing.rs:597-674 | it commits exactly when the edit is possible, changes something, the revision is below its limit and the save works, and leaves everything alone exactly when the edit is a no-op; after a commit both move by one and the revision cannot overflow after the save |
| `RoutingManager.ProxyRoutingManager.MutateRouting` | src-tauri/src/application/proxy_routing.rs:537-674 | the part under the gate: it commits, or finds nothing to do, exactly when the stored material is the one the expected revision names and the edit allows it; every other answer leaves the register alone; a stale revision gets a conflict with the current one |
| `RoutingManager.ProxyRoutingManager.Mutate` | src-tauri/src/application/proxy_routing.rs:537-773 | the whole call, with other writers saving while the runtime is asked: a saved manual selection is never answered with a refusal; the revision in the answer names the state reloaded last or, without a reload, the one this call saved |
| `RoutingManager.ProxyRoutingManager.FinishManualSelection` | src-tauri/src/application/proxy_routing.rs:739-773 | the answer is "superseded" exactly when a reload worked and the reloaded state no longer holds this choice; the revision never goes back behind the committed one |
| `Edits.ReplacementTouchesOneProvider` | src-tauri/src/application/provider_replacement.rs:55-84 | the provider's nodes become exactly the normalized batch, every other provider's nodes keep their order and content |
| `CommitSuccess.ReplacementExactly` | src-tauri/src/application/provider_replacement.rs:55-84 | a replacement succeeds exactly for a usable batch, an existing provider and a valid result |
| `Edits.UpdateTouchesOnlyItsOwn` | src-tauri/src/application/subscription_management.rs:595-675 | an update changes its own row, its provider's nodes, and the generation by one exactly when the nodes of the active subscription changed |
| `CommitSuccess.UpdateExactly` | src-tauri/src/application/subscription_management.rs:595-675 | an update of a valid state is possible exactly when its snapshot still holds, the batch is usable and the result valid |
| `CommitSuccess.SnapshotNamesItsInputs` | src-tauri/src/application/subscription_management.rs:597-601 | the compared snapshots are equal exactly when source, metadata, request options, policy, document, provider and its nodes are |
| `CommitSuccess.AttemptExactly` | src-tauri/src/application/subscription_management.rs:1438-1466 | a failed attempt is stamped exactly when its snapshot still holds and the result is valid, and changes nothing else |
| `CommitLaws.RowFollowsItsAnswers` | src-tauri/src/application/subscription_management.rs:595-667 | whatever others save between the updates of a subscription, its row is the fold of the answers of its own updates |
| `CommitLaws.StoredValidatorsAreConfirmed` | src-tauri/src/application/subscription_management.rs:611-667 | over any sequence of answers for a remote source, a stored ETag or Last-Modified is exactly one that came with the row or an answer and that every later answer confirmed: not modified, from the same address, without a validator of its own |
| `CommitLaws.LastInfoStays` | src-tauri/src/application/subscription_management.rs:611-667 | over any sequence of answers for a remote source, the stored usage and file name are exactly the last ones named since the last new text |
| `CommitLaws.FirstIntervalStays` | src-tauri/src/application/subscription_management.rs:620-651 | over any sequence of answers the first interval anybody named stays, and without automatic updates none is adopted |
| `CommitLaws.LastTextStays` | src-tauri/src/application/subscription_management.rs:611-667 | over any sequence of answers, document and skipped count are those of the last answer that brought text, or the row's own |
| `CommitLaws.DownloadsKeep` | src-tauri/src/application/subscription_management.rs:611-667 | over any sequence of answers both stamps are the last answer's time and what no download may change is as it was |
| `CommitLaws.EditRenamesTogether` | src-tauri/src/application/subscription_management.rs:1094-1112 | an edit names the subscription, its provider and its implicit pool alike and touches no other row; without a download nodes and generation stay |
| `CommitMeaning.RowOfEdit` | src-tauri/src/application/subscription_management.rs:968-1140 | the row after an edit, field by field: what was given is taken and the rest kept; after a download document, skipped count, metadata, stamps and an adopted interval are the download's |
| `CommitMeaning.NodesOfEdit` | src-tauri/src/application/subscription_management.rs:1113-1131 | after a download the provider holds exactly the drafts, other nodes stay, and the generation moves exactly when the active subscription got other nodes |
| `CommitMeaning.EditRefusals` | src-tauri/src/application/subscription_management.rs:968-1015 | which edits are refused for what was given |
| `CommitSuccess.EditExactly` | src-tauri/src/application/subscription_management.rs:968-1140 | an edit is possible exactly when its input fits the row, the subscription has a provider, a downloaded batch is usable and what it leaves is valid |
| `CommitLaws.ImportAppends` | src-tauri/src/application/subscription_management.rs:689-769 | an import appends one row of each kind and the parsed nodes, keeps everything else, and leaves a valid state |
| `CommitSuccess.ImportExactly` | src-tauri/src/application/subscription_management.rs:689-769 | an import is possible exactly when its ids are new, the batch is usable and the grown state valid |
| `CommitLaws.ImportedPoolHoldsTheNodes` | src-tauri/src/application/subscription_management.rs:742-762 | the new implicit pool resolves to exactly the imported nodes |
| `CommitLaws.ImportThenDeleteRestores` | src-tauri/src/application/subscription_management.rs:1151-1233 | deleting what was just imported succeeds and gives back the very state before the import |
| `CommitLaws.StaleRevisionIsRefused` | src-tauri/src/application/subscription_management.rs:853-877 | after a save that changed the document, a save made from the earlier revision is refused and one made from the new revision is not |
| `CommitLaws.DocumentTouchesOnlyItsOwn` | src-tauri/src/application/subscription_management.rs:848-906 | a document save changes its own row and provider's nodes, and the generation exactly when it asks to be applied |
| `CommitMeaning.DocumentSaveMeans` | src-tauri/src/application/subscription_management.rs:848-906 | the saved row field by field, local override and dropped validators included, and the nodes; it asks to be applied if and only if the subscription is active and its text or its nodes are others than before |
| `CommitMeaning.NothingToApply` | src-tauri/src/application/subscription_management.rs:898-904 | a save of the active subscription that does not ask to be applied leaves the projection as it was |
| `CommitMeaning.DocumentRefusals` | src-tauri/src/application/subscription_management.rs:848-863 | which saves are refused before the text is looked at |
| `CommitSuccess.DocumentExactly` | src-tauri/src/application/subscription_management.rs:848-906 | a save is prepared exactly when the stored text is the expected one, there is one provider, the batch is usable and the result valid |
| `CommitLaws.ActivationLaws` | src-tauri/src/application/managed_observation_runtime.rs:653-672 | activation is idempotent and uses one generation exactly when it changes the selection |
| `CommitSuccess.ActivationExactly` | src-tauri/src/application/managed_observation_runtime.rs:653-672 | an activation selects the subscription and moves the generation unless it is selected already, and is possible exactly when the result can be compiled |
| `DeleteIntegrity.DeleteRemovesExactly` | src-tauri/src/application/subscription_management.rs:1206-1222 | the four retain passes remove exactly the subscription, its providers, their nodes and the implicit pools that use them; the active id is cleared with a new generation exactly when it was this one |
| `DeleteIntegrity.DeleteGuardsSuffice` | src-tauri/src/application/subscription_management.rs:1162-1225 | from a valid state the guards leave no dangling reference: the final validation never refuses |
| `DeleteIntegrity.DeleteSucceedsExactly` | src-tauri/src/application/subscription_management.rs:1151-1233 | when a deletion is possible, in terms of pools, routes, default target and the active runtime |
| `Writers.NoLostUpdate` | src-tauri/src/application/state_access.rs:10-16 | in every interleaving the saves form a sequence in which each applies its operation's delta to the state it replaces |
| `Writers.AtMostOneGuard` | src-tauri/src/application/subscription_management.rs:1282-1298 | for any number of threads and any interleaving of check, compare-exchange and re-check, at most one write guard exists |
| `Writers.FlagMeansOwner` | src-tauri/src/application/subscription_management.rs:2019-2023 | over every run the flag is set if and only if some thread has set it and not released it |
| `Progress.WritersTakeTurns` | src-tauri/src/application/subscription_management.rs:1282-1298 | from every world a run reaches before closing, any writers whose plans fit can save one after the other: neither flag nor gate stays taken |
| `Writers.GuardShutsOthersOut` | src-tauri/src/application/subscription_management.rs:1282-1298 | while one thread holds the write guard and does not move, every save of the others, in any interleaving, is a routing mutation |
| `Writers.NoGuardedCommitAfterBarrier` | src-tauri/src/application/subscription_management.rs:1313-1330 | once shutdown_quiescent has returned true every later save is a routing mutation |
| `Progress.BarrierCanPass` | src-tauri/src/application/subscription_management.rs:1313-1330 | in every world a run reaches, a barrier that has not given up, or a new one, can still return true |
| `Writers.ClosingStopsCommits` | src-tauri/src/application/subscription_management.rs:1365-1371 | once closing is set and no thread is between its last check and its save, only activations and routing mutations are saved, in every continuation |
| `History.DeltaStep` | src-tauri/src/application/subscription_management.rs:1776-1781 | every operation leaves a valid state, never lowers the generation, and keeps the structure if it keeps the generation |
| `History.GenerationNamesStructure` | src-tauri/src/application/proxy_routing.rs:607-639 | over every run of all writers the generation never decreases and stays safe, and two states with equal generation agree on selection, default target, routes, and custom pools up to the manual choice |
| `History.UpdateSavesOnlyItsOwn` | src-tauri/src/application/subscription_management.rs:595-679 | in every run an update's save touches only its own row, nodes and generation, whatever changed during its download |
| `History.GuardHolderKeepsRows` | src-tauri/src/application/subscription_management.rs:1282-1298 | in every run, while a thread holds the write guard and does not move, subscriptions and nodes of the register stay as they are |
| `History.PrioritiesAreListPositions` | src-tauri/src/application/proxy_routing.rs:1295-1300 | from no stored state, after any run, route i has priority i and the projection compiles the enabled routes in list order |
| `Subscriptions.SubscriptionManager.UpdateWithRoute` | src-tauri/src/application/subscription_management.rs:489-687 | when it succeeds, and what the register is afterwards in every case: as others left it, with the update's delta, or with the attempt stamped; a finished download is remembered before any save is tried, and nothing else is |
| `Subscriptions.UpdateLeavesItsRow` | src-tauri/src/application/subscription_management.rs:595-687 | what a finished update leaves of its row, on top of what others did to it meanwhile: the downloaded or pasted answer merged in, or, after a failed or unusable download whose save works, nothing but the time of the attempt |
| `Subscriptions.SubscriptionManager.CommitImport` | src-tauri/src/application/subscription_management.rs:689-774 | it saves the import's delta at the state found, exactly when gate, file, expectation, delta, closing flag and save allow it |
| `Subscriptions.SubscriptionManager.Edit` | src-tauri/src/application/subscription_management.rs:968-1149 | when it succeeds; it saves the edit's delta only on finding its baseline again; a failed download at most stamps the attempt; the attempts remembered so far are kept and at most one is added: that of a finished download, with the policy being edited in if it brought text |
| `Subscriptions.SubscriptionManager.Delete` | src-tauri/src/application/subscription_management.rs:1151-1233 | when it succeeds; it saves the deletion's delta at the state found; from a valid state the saved one is valid and has lost exactly what the subscription owned |
| `Subscriptions.SubscriptionManager.RecordFailedAttempt` | src-tauri/src/application/subscription_management.rs:1438-1466 | it stamps the attempt exactly when gate, file, closing flag and save allow it and nothing the update depends on has changed; otherwise the register is as others left it |
| `Subscriptions.SubscriptionManager.CommitUpdate` | src-tauri/src/application/subscription_management.rs:595-679 | it saves the update's delta at the state found, exactly when gate, file, delta, closing flag and save allow it |
| `Subscriptions.Update` | src-tauri/src/application/subscription_management.rs:597-675 | the edits in place, in the program's order (nodes, row, stamps, generation, validation), compute the update's delta, refusals included |
| `Subscriptions.EditRows` | src-tauri/src/application/subscription_management.rs:1094-1138 | the edits in place of an edit, its loop over the pools included, compute the edit's delta, refusals included |
| `Subscriptions.SubscriptionManager.DueSubscriptionIds` | src-tauri/src/application/subscription_management.rs:1235-1280 | exactly the due rows, strictly ascending for a valid state, and never one whose last attempt, under an unchanged interval and a clock that has not gone back, is less than the interval old, even if no save of it succeeded |
| `Subscriptions.DeadlineStands` | src-tauri/src/application/subscription_management.rs:1373-1382 | later attempts under the same interval only move a deadline forward |
| `Subscriptions.DueExactly` | src-tauri/src/application/subscription_management.rs:1243-1275 | a row is due exactly when it is remote, may be updated automatically, has an interval, and the interval has passed since its last saved attempt or success and since the last attempt of this process that had one |
| `Subscriptions.SavedAttemptDefers` | src-tauri/src/application/subscription_management.rs:1255-1262 | a saved attempt defers its row by the interval even for a process that remembers nothing |
| `Subscriptions.SubscriptionManager.RunSchedulerTick` | src-tauri/src/application/subscription_scheduler.rs:153-170 | the due ids in strictly ascending order, so each at most once, all of them unless the program is closing; register and remembered attempts end exactly as one update per attempted id, one after the other and on top of what others save in between, leaves them |
| `Sidecar.SidecarRuntime.PrepareReplacement` | src-tauri/src/singbox/runtime.rs:189-207 | a candidate is prepared exactly when nothing needs recovery and check and prepare work; the running core is untouched |
| `Sidecar.SidecarRuntime.CommitPrepared` | src-tauri/src/singbox/runtime.rs:210-249 | the candidate is consumed; success means exactly it runs; after a failure the core is never Ready, and when recovery is needed; at most one core runs and it is the owned one |
| `Sidecar.SidecarRuntime.CancelPrepared` | src-tauri/src/singbox/runtime.rs:252-259 | the candidate is gone, the running core untouched, and an unconfirmed cleanup needs recovery |
| `Sidecar.SidecarRuntime.StopCore` | src-tauri/src/singbox/runtime.rs:262-277 | a core that could not be stopped stays owned; success leaves nothing |
| `ManagedRuntime.RuntimeWorker.Preflight` | src-tauri/src/application/managed_observation_runtime.rs:586-706 | when a request is sent, when AlreadyCurrent is answered and which error otherwise; a request was computed from the stored state; AlreadyCurrent means that the core is Ready and runs that subscription and generation |
| `ManagedRuntime.RuntimeWorker.PersistActivation` | src-tauri/src/application/managed_observation_runtime.rs:1456-1481 | inside the gate: the commit point is reached exactly when the register holds the expected state and nothing was cancelled; an unchanged candidate is not saved |
| `ManagedRuntime.RuntimeWorker.ApplyActivation` | src-tauri/src/application/managed_observation_runtime.rs:1419-1562 | the answer in every environment, each error in terms of what happened; saves only after a successful prepare and an in-gate match; replaces the core only after that; every exit in between cancels exactly once and leaves the register alone; pending means nothing was saved; after the commit point it succeeds exactly when the replacement does, and publishes the pair persisted there, which the core runs |
| `ManagedRuntime.RuntimeWorker.HandleActivate` | src-tauri/src/application/managed_observation_runtime.rs:945-999 | the same through the worker's branch, which creates a missing runtime first: answer, exact commit point, register, saves, core calls and the published pair; the observed operation ends with the status and code of the answer |
| `ManagedRuntime.RuntimeWorker.CommitDocument` | src-tauri/src/application/subscription_management.rs:921-949 | the document is committed exactly when the register still holds the state it was computed from and the program is not closing |
| `ManagedRuntime.RuntimeWorker.ApplyDocumentSave` | src-tauri/src/application/managed_observation_runtime.rs:1752-1968 | the answer in every environment, refusals and apply errors included, and the observed operation ends with its status and code; Ok means the new state was committed, a refusal that the register is as others left it; a prepared candidate is committed or cancelled exactly once; NotRequired for the selected subscription means that text, nodes, generation and projection are those of before and the Ready core runs exactly it |
| `ManagedRuntime.OkMeansPersistedExactlyWhenStateChanges` | src-tauri/src/application/subscription_management.rs:907-938 | Ok and "the register holds the new state" agree in every environment the write guard allows if and only if the save changes the state |
| `CommitLaws.SaveChangesExactly` | src-tauri/src/application/subscription_management.rs:848-906 | a document save changes the state exactly when text or format differ, a skipped count is reset, or the parsed nodes are not the stored ones in their places |
| `ManagedRuntime.SavingTheSameTextChangesNothing` | src-tauri/src/application/subscription_management.rs:907-938 | a valid state and a save that changes nothing, for which the claim fails |
| `CommitLaws.ChangingSaveChangesRows` | src-tauri/src/application/subscription_management.rs:848-906 | a document save changes the state exactly when it changes subscriptions or nodes, so no routing mutation can leave the state it wants |
| `ManagedRuntime.RuntimeWorker.StartStopped` | src-tauri/src/application/managed_observation_runtime.rs:2018-2080 | when a start succeeds; Started means the core runs, and the observation names, exactly the given configuration |
| `ManagedRuntime.RuntimeWorker.StopRuntime` | src-tauri/src/application/managed_observation_runtime.rs:2090-2115 | which of the three answers is given; nothing is observed as applied afterwards, and only a failed stop leaves a core |
| `ManagedRuntime.RuntimeWorker.SampleRuntime` | src-tauri/src/application/managed_observation_runtime.rs:2117-2146 | a core that cannot be read is no longer shown as applied, and one that can is left alone and stays applied |
| `ManagedRuntime.RuntimeWorker.ReadRunningConfiguration` | src-tauri/src/application/managed_observation_runtime.rs:1097-1144 | when a running configuration is shown; it is never shown under another subscription or generation |
| `SelectorIndex.AppliedRouting.Reconcile` | src-tauri/src/application/managed_observation_runtime.rs:1167-1309 | which answer is given when, each of them if and only if: applied or another node exactly when the unchanged core read it back, unknown and saved-only for each of their reasons; what is remembered per pool afterwards, always a member of the applied configuration |
| `SelectorIndex.AppliedRouting.Install` | src-tauri/src/application/managed_observation_runtime.rs:1146-1155 | a new index is that of the projection and forgets what selectors were seen to use |
| `SelectorIndex.AppliedRouting.Clear` | src-tauri/src/application/managed_observation_runtime.rs:1157-1165 | without an applied configuration nothing is offered or remembered |
| `SelectorIndex.IndexedChoiceIsCompiled` | src-tauri/src/application/managed_observation_runtime.rs:95-122 | the index of a projection offers exactly the pools and members the projection compiled |
| `ApplyView.AppliedIsWhatRuns` | src-tauri/src/application/proxy_routing.rs:1404-1523 | between the worker's requests "applied" is shown only while its core is Ready and runs exactly the stored selection and generation |
| `ApplyView.ShownExactly` | src-tauri/src/application/proxy_routing.rs:1404-1523 | when applied, applying, failed and unknown are shown, and for which operation |
| `ApplyView.ReadyIsShown` | src-tauri/src/application/proxy_routing.rs:1404-1523 | a Ready worker with the stored pair whose last operation ended well is shown as applied |
| `Observations.RuntimeObservations.RecordManagedSample` | src-tauri/src/application/observability.rs:389-398 | the sample's point joins the history, replacing one of the same millisecond, before pruning; one new revision, one delta |
| `Observations.RuntimeObservations.RecordManagedObservation` | src-tauri/src/application/observability.rs:383-387 | a reading alone equals the record function used by the run theorem: Ready, its point joined to the history, one new revision |
| `Observations.RuntimeObservations.RecordManagedReady` | src-tauri/src/application/observability.rs:401-416 | nothing of an earlier core remains: no applied pair, switch, reading, history or log |
| `Observations.RuntimeObservations.RecordManagedRecovery` | src-tauri/src/application/observability.rs:437-455 | readings, history, log and a Ready switch are dropped, the applied pair is kept |
| `Observations.RuntimeObservations.RecordManagedFailure` | src-tauri/src/application/observability.rs:458-500 | a lifecycle other than Ready drops the applied pair, a Ready switch and all readings; without one only the log changes |
| `Observations.RuntimeObservations.RecordSubscriptionSwitch` | src-tauri/src/application/observability.rs:502-513 | a change is taken only if it is queued or continues the same operation |
| `Observations.RuntimeObservations.RecordSubscriptionReady` | src-tauri/src/application/observability.rs:516-541 | lifecycle, applied pair and Ready switch are published together |
| `Observations.PruneThenAdd` | src-tauri/src/application/observability.rs:257-272 | pruning after every sample keeps exactly what pruning once at the end would |
| `ObservationMeaning.HistoryShows` | src-tauri/src/application/observability.rs:257-272 | a reader's history is, in order of time, exactly those points of the run that are among its newest 600 and at most ten minutes old; each point has the time and rates of the call it comes from, with nothing forgotten since and none later in the same millisecond |
| `ObservationMeaning.LastWordStays` | src-tauri/src/application/observability.rs:383-541 | over any run traffic, connections, memory, applied pair and lifecycle are those of the last call that spoke to them |
| `ObservationMeaning.OnlyTheLastOperationIsShown` | src-tauri/src/application/observability.rs:502-541 | over any run the operation shown is the one opened last, and its shown phase is one that was reported for it |
| `Observations.RunsAreAccepted` | src/lib/observability.ts:86-127 | over every run of the record calls under a monotone clock, every delta and snapshot is accepted if and only if the number of calls and the time, totals, connections, memory and generation of each call are safe integers; the history is the newest 600 points of the window out of all samples since the last clearing call |
| `Observations.UnsafeTotalIsRejected` | src/lib/observability.ts:224-226 | one sample whose total is just beyond the safe range makes a publication the parser refuses |
| `Observations.AcceptedIsNewest` | src/lib/observability.ts:78-84 | whatever arrives in whatever order, what is kept is among the arrivals and none is newer |
| `Observations.NewestDeltaWins` | src/lib/observability.ts:78-84 | however deltas of a run are dropped, repeated and reordered, the viewer ends with the newest one delivered |
| `Packets.Checksum` | scripts/task009-wg-peer/observe.go:22-34 | the wrapping sum and the carry loop compute the complement of the 16-bit residue of the word sum, zero only for zero |
| `Packets.FoldCarries` | scripts/task009-wg-peer/observe.go:30-32 | the fold loop ends with the representative congruent to the sum modulo 65535 |
| `Packets.NoWrap` | scripts/task009-wg-peer/observe.go:36-79 | the 32-bit accumulator never wraps for data a 16-bit length describes, pseudo header included, with room for one more word |
| `Packets.StoredChecksumVerifies` | scripts/task009-wg-peer/observe.go:22-34 | storing the computed value in a zeroed field at an even offset makes the verification return zero |
| `Packets.ParsePacket` | scripts/task009-wg-peer/observe.go:36-79 | accepted are exactly the unfragmented packets whose bounds hold and whose sums are positive multiples of 65535 |
| `WireFormat.BuiltPacketIsRead` | scripts/task009-wg-peer/observe.go:36-79 | a TCP packet built from any fields and data, with its checksums computed and stored, is accepted and read back as these fields |
| `WireFormat.SegmentRoundTrip` | scripts/task009-wg-peer/observe.go:177-215 | what is read from a segment's bytes is what was written |
| `TcpObserver.Observer.TakeStart` | scripts/task009-wg-peer/observe.go:201-209 | the first server SYN fixes the start, an equal one is taken, and exactly a different one is an error |
| `TcpObserver.Observer.TakePayload` | scripts/task009-wg-peer/observe.go:210-232 | server data is accepted exactly when the start is known and it lies inside the response and equals it there; then a byte is covered exactly when some segment carried the right byte at its sequence position, across the wrap |
| `TcpObserver.Observer.CheckAck` | scripts/task009-wg-peer/observe.go:249-268 | the window test on recorded acknowledgements picks exactly the end and, once the stream ended there, one past it |
| `TcpObserver.Observer.Tcp` | scripts/task009-wg-peer/observe.go:177-248 | a segment latches no error exactly when tuple, reset, start, data, end and the number of acknowledgements fit; then the fields stay equal to what the segments seen say |
| `TcpObserver.Observer.Icmp` | scripts/task009-wg-peer/observe.go:269-293 | a ping latches no error exactly when it carries the token and is the next request with all earlier ones answered, or the reply to the last one, numbered one to three |
| `TcpObserver.Observer.Inspect` | scripts/task009-wg-peer/observe.go:127-176 | when a packet latches an error, in terms of the packet and what was seen before; while none is latched, acked holds exactly when a SYN fixed the start, every response byte was seen in place, and the end (or one past it after the FIN) was acknowledged, in any order; an error freezes everything |
| `RejectRun.RejectObserver.BeginRejectPhase` | scripts/task009-wg-peer/reject_observe.go:31-66 | a phase begins exactly when it is the next one, none is active and no error is latched |
| `RejectRun.Runner.Begin` | scripts/task009-wg-peer/reject.go:132-158 | when a phase may begin; runner and observer move together |
| `RejectRun.Runner.TakeResult` | scripts/task009-wg-peer/reject.go:190-245 | a result is good exactly when its worker is in flight and nothing has gone wrong, and a bootstrap has moved packets both ways; exactly then its flag is set and its line written; the worker is no longer in flight |
| `RejectRun.Runner.Finish` | scripts/task009-wg-peer/reject.go:172-186 | a phase ends only after its one clean bootstrap and one clean probe, with no work in flight |
| `RejectRun.Runner.Handle` | scripts/task009-wg-peer/reject.go:82-260 | every event moves the machine like a counter of fifteen steps, which only the next step's own event advances (the passed flags and lines only a clean result) and which any unexpected event ends; an unfailed run's output equals its transcript; when exit code 0 is given |
| `RejectRun.RunReject` | scripts/task009-wg-peer/reject.go:17-261 | exit code 0 if and only if the events contain, up to a shutdown, phases 1, 2, 3 in order, each begun, with one clean bootstrap result and one clean local-probe result before its finish, and otherwise only wake-ups and expected packets; the output is then exactly the transcript of the three phases and the stop |
| `RejectRun.ProgressMeansSteps` | scripts/task009-wg-peer/reject.go:82-260 | for any events, the step counter stands at c exactly when c steps are among them in order and all other events are quiet |
| `RejectRun.ACleanRun` | scripts/task009-wg-peer/reject.go:82-260 | a run that ends with exit code 0 |
| `Migration.MigrateToCurrent` | src-tauri/src/storage/migration.rs:6-32 | the counting loop computes the step-by-step migration of the document's own version, and ends |
| `Migration.SuccessIsCurrent` | src-tauri/src/storage/migration.rs:27-31 | success means version 6, and changed exactly when the document was older |
| `Migration.MigratedStaysPut` | src-tauri/src/storage/migration.rs:6-32 | migration is the identity on its own output |
| `Migration.InterruptedMigrationResumes` | src-tauri/src/storage/migration.rs:13-25 | a migration stopped after any number of steps and started again ends in the same document or refusal, and all steps together are the whole migration |
| `Migration.MigrationKeepsRows` | src-tauri/src/storage/migration.rs:34-161 | subscriptions, providers and nodes keep their number, order, ids and every field no step edits |
| `MigrationMeaning.MigrationMeans` | src-tauri/src/storage/migration.rs:34-236 | every field of a migrated document, of its subscriptions and of its nodes, in terms of the version it came from: defaults such as verify_tls, new options and protocols, and everything else untouched |
| `Migration.MigrationKeepsCredentials` | src-tauri/src/storage/migration.rs:146-236 | every credential string a node's protocol uses is in its new options unchanged, and plain and TLS proxies stay distinguishable |
| `Migration.MigratedRowsFitTheirSource` | src-tauri/src/storage/migration.rs:52-115 | subscriptions of documents before version 5 come out with exactly the request options and update policy that validation wants for their kind of source |
| `Migration.MigratesExactly` | src-tauri/src/storage/migration.rs:6-251 | which documents can be migrated, in terms of version, lists, source kinds, protocols and credentials, and which error the others get |
| `Migration.TuicNodesAreNotMigrated` | src-tauri/src/storage/migration.rs:163-236 | a tuic node stops the migration of its document |

## Left out

- The React user interface, command DTO mappings, tray and window code: presentation and one-to-one maps.
- HTTP downloads, Windows proxy and process calls, sockets, timers, the Clash API client and the WireGuard stack: their outcomes are parameters.
- File handling and backup recovery of the JSON store: the register is atomic. Falling back to an older backup could lower the generation.
- Subscription parsing, stable node hashes, node compatibility and the sing-box compiler: a parsed batch carries its ids and the outcome of those checks; a configuration is its projection and a secret.
- Validators that look at one text alone (lengths, visible characters, URLs, header text, matcher syntax) are a single outcome per input; the kinds of validation errors are one failure. Trimming and blankness use ASCII white space.
- SHA-256 document revisions are taken to be injective, random ids to be what the generator returns, locks to be unpoisoned and atomics to be sequentially consistent.
- Writers and History: threads are values of a transition system, not objects of a class, because every interleaving of their single steps has to be a run; the classes in Subscriptions, RoutingManager and ManagedRuntime model the same operations one at a time, with interference.
- Subscriptions.SubscriptionManager.UpdateWithRoute: does not model the route override of an update, and checks the clock of a manual update before the node replacement instead of after it, which can only change which error a doubly failing call reports.
- ManagedRuntime.RuntimeWorker.ApplyActivation: does not say that a caller whose wait timed out saw nothing saved; the wait in lines 752-765 gives up with the same pending answer while the worker may go on.
- SelectorIndex.AppliedRouting: does not claim that the index after a document save describes the configuration that runs; the program rebuilds it from the state stored by then, and equal generations do not mean equal projections.
- The controller around the worker (queue, busy flag, response channels, shutdown of the process) and RuntimeSupervisor, which is not wired into the application.
- The remaining record entry points that only mocks call (record_runtime_state, record_traffic, record_connection_count, record_runtime_log).
- The UDP and domain modes of the observer, the per-flow packet checks of the rejection test (the same coverage argument as in TcpObserver), the WireGuard handshake, and the wire format of commands and events.
- RejectRun: the self-test, the binding of the port and the closing of the peer are outcomes; the text of failure events is not modelled.
- Migration: documents are values, so a step that is refused half way leaves no partly edited document; the program drops it as well. JSON numbers are either unsigned 64-bit integers or other numbers.
- The response ordering of the proxy page (request epochs), polling rules and payload parsers other than the runtime observation's.
