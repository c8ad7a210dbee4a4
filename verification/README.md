# Verified models of the data plane

This project models the hard parts of a deployment data plane in Dafny and proves what they promise. The data plane turns requests into
Deployments of Environments: it asks Core for admission, queues requests for busy Environments, compiles a resource graph to Terraform,
hands it to a Runner and records the Runner's result. It runs as several replicas against one Postgres database.

Protocols are state machines. A state holds the durable rows and every open transaction or process; one event is one transaction, one
message, one reply or one crash. An event that is not enabled changes nothing, so every sequence of events is a run, and a theorem over
all sequences is a theorem over all interleavings. Code that loops or changes rows in place is a method or a class, proved against a
function, and the theorems are about that function.

| file | what it models |
|---|---|
| `AdmissionReceipts.dfy`, `AdmissionProtocol.dfy`, `AdmissionReconciler.dfy`, `AdmissionTargets.dfy` | admission of a Deployment by Core with a durable receipt: prepare, authorize, bind or seal absent, settle, and the reconciler pass |
| `Dispatch.dfy` | admission of a plugin-dispatched Deployment under one dispatch key, and the read after revocation |
| `RollbackLineage.dfy` | rollback anchors, forwards, rollbacks and retries of plugin operations |
| `Queue.dfy`, `Promotion.dfy` | the Environment queue with any number of promoters, cancels, sweeps and failed commits; one promotion pass; the retry backoff |
| `Kicks.dfy` | coalescing of promotion requests within one process |
| `Results.dfy`, `ResultRuns.dfy`, `Acknowledgements.dfy` | Runner results, runner errors, watchdogs, force-fails and late results; what an acknowledged delivery means |
| `Graphs.dfy`, `GraphRuns.dfy` | tombstones, placeholder resolution and the references of the compiled Terraform, over runs of deployments |
| `ProviderVariants.dfy`, `VariantDigest.dfy`, `Providers.dfy` | provider blocks rendered under a node's substitutions, the text under their hash, and their deduplication |
| `Tokens.dfy` | conversion of values with placeholders to HCL tokens, and what the tokens evaluate to |
| `ActiveResources.dfy` | the active-resource tables as a refinement of graphs |
| `GraphDiff.dfy`, `Versions.dfy` | the graph diff and the selection of module versions |
| `Gzip.dfy` | the bounded decoder of concatenated gzip members (RFC 1952, sections 2.2 and 2.3) |

Where the code does not do what its comments or the obvious reading suggest, the model follows the code, a lemma shows the failing case and
another states exactly when the property holds:

- an unresolved placeholder and a nested null convert to no tokens and no error (`Tokens.UnresolvedPlaceholderIsSilent`,
  `Tokens.NestedNullVanishes`); meaning is preserved if and only if neither occurs (`Tokens.ConversionPreservesMeaningIff`);
- a reconciler pass ends at the first error that is no conflict, so a committed receipt whose Deployment was deleted before it was settled keeps
  every younger receipt unsettled for good (`AdmissionReconciler.AbandonedReceiptStaysPending`,
  `AdmissionReconciler.StrandedReceiptBlocksYounger`); `AdmissionReconciler.PassSettlesIff` says which receipts a pass settles;
- the inbox knows events by identifier alone, so whoever uses one identifier for two different things can have a result acknowledged that
  nothing keeps (`Acknowledgements.ReusedEventLosesResult`); if identifiers keep their meaning, no acknowledged result is lost
  (`Acknowledgements.AcknowledgedResultIsRecorded`);
- a selector of consumers that matches a tombstone renders a reference to no block (`GraphRuns.SelectorMayNameTombstone`); it happens
  exactly if a match was removed by the request (`GraphRuns.SelectorResolvesIff`), and never along dependencies (`GraphRuns.DependenciesResolve`);
- provider type and id are hashed without a separator, so two providers can share one block and leave a dangling reference
  (`Providers.MissingSeparatorLosesBlock`) or use the other provider's configuration (`Providers.SharedNameTakesOtherProvider`); every entry has
  its own block if and only if no two uses collide (`Providers.DeduplicationIsSoundIff`), and `VariantDigest.CollisionIff` says which do;
- a rollback plan stamps the active-resource tables (`ActiveResources.RollbackPlanStamps`); a plan leaves what they show exactly if it plans a
  deploy or its graph has no live node (`ActiveResources.PlanLeavesViewIff`);
- edges from old nodes to restamped ones stay (`ActiveResources.OldEdgeReachesNewNode`), so the old and new graphs are disjoint exactly if no
  node outside the new graph pointed into it (`ActiveResources.OldAndNewDisjointIff`);
- the stored graph is serialized before the Terraform is built, so it lacks the edges of module placeholders that the stamped graph has
  (`GraphRuns.StoredGraphLacksInputEdges`, `GraphRuns.StampedGraphAddsInputs`);
- a node with two aliases for one target makes the stamp fail, and nothing else does (`ActiveResources.StampSucceedsIff`);
- the diff of a graph with itself reports its tombstones, so it is empty if and only if there are none (`GraphDiff.SelfDiffIsEmptyIff`).

## Model

| member | source | states |
|---|---|---|
| `AdmissionReceipts.ReceiptStore.Prepare` | internal/model/deployment_admissions.go:100-143 | a first prepare inserts a pending receipt; a replay returns the stored row; another intent under the id is a conflict |
| `AdmissionReceipts.ReceiptStore.Bind` | internal/model/deployment_admissions.go:159-182 | only a pending receipt of the same intent is bound; the exact binding replays; anything else is refused and changes nothing |
| `AdmissionReceipts.ReceiptStore.SealAbsent` | internal/model/deployment_admissions.go:184-207 | only a pending receipt becomes absent; an absent one replays; a committed one is a conflict |
| `AdmissionReceipts.ReceiptStore.MarkCoreSettled` | internal/model/deployment_admissions.go:251-271 | settlement needs the matching disposition, outcome and epoch |
| `AdmissionReceipts.PreparedKeepsTable` | internal/model/deployment_admissions.go:100-143 | prepare keeps the table constraints and takes no receipt back |
| `AdmissionReceipts.BoundKeepsTable` | internal/model/deployment_admissions.go:159-182 | bind keeps the table constraints and moves receipts only from pending to committed |
| `AdmissionReceipts.SealedKeepsTable` | internal/model/deployment_admissions.go:184-207 | sealing keeps the table constraints and moves receipts only from pending to absent |
| `AdmissionReceipts.SettledKeepsTable` | internal/model/deployment_admissions.go:251-271 | settling keeps the table constraints and no disposition changes |
| `AdmissionProtocol.StepKeeps` | internal/api/deployment_admission.go:108-401 | every step of attempts, seals, settlements, the reconciler and crashes keeps the protocol invariant and takes nothing back |
| `AdmissionProtocol.ReceiptLeavesPendingOnce` | internal/api/deployment_admission.go:108-267 | in every run a receipt changes disposition at most once, and only from pending |
| `AdmissionProtocol.AbsenceIsFinal` | internal/api/deployment_admission.go:236-267 | once Core was told absent, no Deployment of that admission is or becomes committed |
| `AdmissionProtocol.SettlementIsTruthful` | internal/api/deployment_admission.go:336-401 | Core is told succeeded or failed only for the one committed Deployment of the admission, after it ended that way |
| `AdmissionProtocol.CoreHearsOneEnding` | internal/api/deployment_admission.go:303-401 | Core never hears two different endings of one admission |
| `AdmissionProtocol.ReconcilerSettlesAbsence` | internal/api/deployment_admission.go:243-267 | the steps of its own round settle a receipt that never became a Deployment, whatever crashes left it, if its lock is free and Core answers |
| `AdmissionReconciler.ReconcileUnsettled` | internal/api/deployment_admission.go:303-334 | the loop that goes on after a conflict and returns any other error equals its specification on the listed receipts |
| `AdmissionReconciler.PassIsRun` | internal/api/deployment_admission.go:303-401 | a pass is a run of the protocol's own steps, so it keeps the invariant and takes nothing back |
| `AdmissionReconciler.PassSettlesIff` | internal/api/deployment_admission.go:303-401 | over all runs a pass settles a listed receipt if and only if no receipt listed before it ends the pass (Deployment gone, Core silent, lock held) and its own round settles it: Deployment ended and recorded epoch, or lock free and Core answering; behind a receipt that ends the pass nothing is touched |
| `AdmissionReconciler.StrandedForever` | internal/model/deployments.go:564-566 | a committed receipt whose Deployment was deleted unsettled, with no settlement under way, is never settled |
| `AdmissionReconciler.DeletedDeploymentSettlesIff` | internal/api/deployment_admission.go:336-369 | over all runs a committed, unsettled receipt whose Deployment is gone can still be settled if and only if a settlement that read the Deployment before is under way |
| `AdmissionReconciler.StrandedReceiptBlocksYounger` | internal/model/deployment_admissions.go:209-218 | such a receipt is listed before every younger one, and no later pass touches those |
| `AdmissionReconciler.AbandonedReceiptStaysPending` | internal/api/deployment_admission.go:319-332 | a run from the start after which a pending receipt that nobody holds is settled by no pass, whatever Core answers |
| `AdmissionProtocol.AuthorizedAttemptCommits` | internal/api/deployment_admission.go:108-234 | an undisturbed authorized attempt commits the Deployment together with its bound receipt |
| `AdmissionTargets.CollectModuleTargets` | internal/api/deployment_admission.go:418-449 | targets are collected if and only if the artifacts are acceptable and agree per module; the result is exactly what they announce |
| `AdmissionTargets.TargetsIgnoreOrder` | internal/api/deployment_admission.go:418-449 | the collected targets do not depend on the order of artifacts |
| `Dispatch.RevocationIsFinal` | internal/api/external_deployment_inspection_http.go:247-299 | a read begun after revocation that finds no receipt is final: no later step commits one, or a Deployment, for that Environment |
| `Dispatch.ReceiptIsFinal` | internal/api/external_operation_deployments.go:102-208 | a committed receipt never changes and its Deployment is the only one of the key |
| `Dispatch.CallersAgree` | internal/api/external_operation_deployments.go:102-248 | all callers that are not refused asked for the same thing and hear of the same Deployment |
| `Dispatch.GrantedRequestIsAdmitted` | internal/api/external_operation_deployments.go:102-208 | an undisturbed granted request commits receipt and Deployment and frees the key |
| `Dispatch.RepeatedRequestIsReplayed` | internal/api/external_operation_deployments.go:226-248 | the same request replays its Deployment, another one under the key is refused |
| `RollbackLineage.AnchorIsImmutable` | internal/api/external_operation_rollback_anchors.go:17-69 | an operation and Environment have at most one anchor, it never changes, and its first forward's receipt verifies it |
| `RollbackLineage.RollbacksGoToFirstBase` | internal/api/external_operation_deployments_http.go:366-446 | every rollback goes to the base the operation's first forward captured |
| `RollbackLineage.RetriesFormOnePath` | internal/api/external_operation_deployments_http.go:366-446 | the rollbacks of a forward form one finite path: each retries the one before, which failed, and all share forward, scope and base |
| `RollbackLineage.FailedForwardCanBeRolledBack` | internal/api/external_operation_deployments_http.go:273-446 | after a failed, stopped first forward the rollback to its captured base is accepted and becomes the head |
| `Queue.StepKeeps` | internal/api/deployment_queue_promotion.go:71-217 | every step of promoters, cancels, sweeps, prunes, enqueues and direct creations keeps the queue invariant |
| `Queue.ItemLeavesOnce` | internal/model/deployment_queue.go:421-456 | each item leaves queued at most once, with one log entry that never changes, and never waits again |
| `Queue.DispatchedItemsAreDeployments` | internal/api/deployment_queue_promotion.go:118-135 | dispatched items and promoted Deployments correspond one to one |
| `Queue.UndispatchedItemsLeaveNoDeployment` | internal/api/deployment_queue_promotion.go:136-161 | an item that waits, also after a deferral, or ended without dispatch has no Deployment |
| `Queue.PromotionIsFifo` | internal/model/deployment_queue.go:194-212 | dispatches of an Environment come in the order of enqueueing and before everything that waits |
| `Queue.HaltedItemIsNotDispatched` | internal/model/deployment_queue.go:214-242 | no halt_on_failure item is dispatched behind a predecessor that failed while it waited, or into a busy Environment |
| `Queue.OneDeploymentAtATime` | internal/model/deployments.go:212-355 | at most one Deployment executes in an Environment |
| `Queue.OnePromoterPerEnvironment` | internal/model/deployment_queue.go:402-419 | two promoters never hold one Environment's head |
| `Queue.UndisturbedPromotionDispatches` | internal/api/deployment_queue_promotion.go:71-135 | an undisturbed promotion of an idle Environment's head creates its running Deployment and settles the item |
| `Queue.FailedPromotionLeavesNothing` | internal/api/deployment_queue_promotion.go:136-161 | a failed creation rejects the item exactly if the error is about its request and not about a busy Environment, else counts the attempt and lets it wait; no Deployment stays |
| `Queue.FencedPromotionRejectsQueue` | internal/api/deployment_queue_promotion.go:142-145 | a creation that fails behind an unreconciled outcome rejects every waiting item of the Environment and changes nothing else |
| `Queue.CancelledItemIsNeverDispatched` | internal/model/deployment_queue.go:466-495 | over all runs a cancelled item never gets a Deployment, whatever promoters are under way |
| `Promotion.EnvironmentQueue.PromoteHead` | internal/api/deployment_queue_promotion.go:71-162 | one head is treated as its answer says, and the next may follow only after this one was settled |
| `Promotion.EnvironmentQueue.RejectAllWaiting` | internal/api/deployment_queue_promotion.go:207-217 | every waiting item is rejected |
| `Promotion.EnvironmentQueue.Promote` | internal/api/deployment_queue_promotion.go:61-68 | the loop ends, because each round that continues settles an item, and equals the recursion on the queue |
| `Promotion.PassSettlesPrefix` | internal/api/deployment_queue_promotion.go:61-162 | a pass settles the longest prefix that needs no Deployment, then acts once, on the first other item |
| `Promotion.SettledStays` | internal/api/deployment_queue_promotion.go:61-68 | a pass touches no item that does not wait |
| `Promotion.Backoff` | internal/api/deployment_queue_promotion.go:252-258 | the delay of attempt n is min(5*2^(n-1), 120) seconds without overflow of 64-bit nanoseconds |
| `Promotion.BackoffIsMonotone` | internal/api/deployment_queue_promotion.go:252-258 | delays never shrink, lie between 5 and 120 seconds, and are 120 from the sixth attempt on |
| `Kicks.KickTable.Kick` | internal/api/deployment_queue_promotion.go:274-287 | a kick starts a goroutine exactly if none runs, otherwise marks |
| `Kicks.KickTable.Look` | internal/api/deployment_queue_promotion.go:296-303 | a goroutine goes on exactly if it was marked, otherwise its entry goes |
| `Kicks.OneGoroutinePerEnvironment` | internal/api/deployment_queue_promotion.go:260-306 | at most one goroutine per Environment, and one exactly while the Environment is a key |
| `Kicks.NoWakeupIsLost` | internal/api/deployment_queue_promotion.go:260-306 | when no goroutine runs, every earlier kick was followed by a promotion that started after it |
| `Kicks.GoroutineLeaves` | internal/api/deployment_queue_promotion.go:288-305 | without further kicks a goroutine leaves within six of its own steps, with every kick served |
| `Results.ResultStore.ApplyUpdate` | internal/api/deployments.go:1023-1224 | the update transaction, step by step on a copy of the tables, equals its specification |
| `Results.CommonUpdateKeeps` | internal/api/deployments.go:1023-1224 | an update commits or changes nothing; a committed event is in the inbox, a duplicate changes nothing, completed rows stay |
| `Results.FirstResultCompletes` | internal/api/deployments.go:1128-1221 | the first result writes status, outputs and metrics, one history record, one completion event, adoption on success, and frees the lease |
| `Results.AcceptedResultIsApplied` | internal/api/deployments.go:1040-1221 | an accepted result that is no duplicate is shown by the row or kept by its stop or observation receipt, and its event is noted |
| `Results.RetainLateKeeps` | internal/api/late_runner_results.go:17-165 | the first retained payload wins, an exact replay is accepted without change, a different one is refused, no Deployment row changes; what is retained passed the receipt, anchor, base and material checks |
| `Results.RetainLateReleasesOwnLease` | internal/api/late_runner_results.go:158-164 | a retained late result releases exactly the Deployment's own lease |
| `Results.RetainOrdinaryKeeps` | internal/api/late_runner_results.go:177-213 | a late ordinary completion records its body and touches no Deployment row or lease |
| `Results.LateOrdinaryKeeps` | internal/model/runner_capacity.go:107-156 | the stop receipt kept for a late ordinary completion is exactly its body |
| `Results.WatchdogKeeps` | internal/worker/handlers/runnerstatushandler/runnerstatushandler.go:141-177 | a watchdog that read an executing Deployment never overwrites a result that came in between |
| `ResultRuns.ResultIsFinal` | internal/api/deployments.go:930-1224 | over all runs a completed Deployment's row never changes |
| `ResultRuns.EffectsHappenOnce` | internal/api/deployments.go:1149-1221 | history and completion event are written exactly once for a completed Deployment, adoption only for a succeeded mutating one |
| `Acknowledgements.AcknowledgementHoldsIff` | internal/api/deployments.go:930-986 | the transaction that acknowledges an envelope keeps its result: an update exactly if the event was unknown or the result was kept before, the late path exactly if it was kept before or is not yet noted, the ordinary late path always |
| `Acknowledgements.AcknowledgedResultIsRecorded` | internal/api/deployments.go:902-986 | in every run whose event identifiers stand for one Runner, Deployment, kind and body each, every acknowledged result is kept, now and after any more steps |
| `Acknowledgements.ReusedEventLosesResult` | internal/model/runner_events.go:13-35 | for every other use of the same identifier there is a run in which the delivery is acknowledged and its result is kept nowhere |
| `Acknowledgements.SharedEventLeavesDeploymentExecuting` | internal/api/deployments.go:1048-1068 | two Deployments under one identifier: the second result is acknowledged and its Deployment still executes |
| `ResultRuns.LateResultIsOwned` | internal/api/late_runner_results.go:49-135 | over all runs a retained late result is the gateway's event for a failed attempt of that Runner, with operation receipt, anchor and succeeded base, and its outputs are ciphertext for the operation's recipient |
| `ResultRuns.FirstLateResultWins` | internal/api/late_runner_results.go:27-48 | retained late results, stop receipts and inbox rows never change or go |
| `ResultRuns.FailureBetweenPeekAndUpdate` | internal/api/deployments.go:970-985 | if a plugin's Deployment fails between the first peek and the update, the update leaves no trace; the late path accepts exactly the replay of what another delivery retained meanwhile, else keeps exactly this envelope and drops only its own lease, or refuses and changes nothing, as the guards say |
| `ResultRuns.OrdinaryFailureBetweenPeekAndUpdate` | internal/api/deployments.go:1070-1081 | the same race for an ordinary Deployment with capacity: the update keeps the body as stop receipt and changes no row, history or lease |
| `Graphs.GraphBuilder.AddDeletedNodes` | internal/graphs/graphs.go:351-375 | the loop equals the order-independent tombstoning of the last graph's nodes |
| `Graphs.TombstonedIs` | internal/graphs/graphs.go:351-375 | a node is live exactly if the new graph has it and a tombstone exactly if it must outlive it |
| `Graphs.TombstonedLinked` | internal/graphs/graphs.go:351-375 | tombstoning keeps edges closed and live nodes pointing to live nodes |
| `Graphs.GraphBuilder.ResolveSubs` | internal/graphs/tofu.go:713-742 | the loop resolves placeholders as specified and fails exactly if a resource placeholder names a tombstone |
| `Graphs.ResolveLinks` | internal/graphs/tofu.go:713-742 | resolving adds exactly the referenced targets, less tombstones of selectors, to this node alone and keeps the links |
| `Graphs.GraphBuilder.EmitModules` | internal/graphs/tofu.go:189-275 | exactly the live resource nodes get a block; depends_on names only emitted blocks and covers every resource reference and live selector match |
| `Graphs.EmittedOfIs` | internal/graphs/tofu.go:189-195 | the emitted sequence has each live resource node of the order exactly once |
| `GraphRuns.RunsStayLinked` | internal/api/deployments_core.go:322-368 | over any run of deploys, rollbacks and destroys every stored graph stays closed with live nodes pointing to live nodes |
| `GraphRuns.ReferencesResolve` | internal/graphs/tofu.go:226-274 | after any run every depends_on entry and resource reference of a block names an emitted block |
| `GraphRuns.ProviderReferencesResolve` | internal/graphs/graphs.go:386-439 | over any run every resource placeholder in a provider block, also of one kept for a tombstone, names an emitted block |
| `GraphRuns.DependenciesResolve` | internal/graphs/tofu.go:691-736 | over any run, in an accepted compilation, every node that a live node reaches in the distance matrix, param placeholders included, is emitted, so a selector of dependencies names no tombstone |
| `GraphRuns.SelectorResolvesIff` | internal/graphs/tofu.go:513-525 | over any run a selector's tuple names only emitted blocks if and only if no match was removed: held by the last graph, live or after a failure, and absent from the new expansion, or a tombstone of the reused graph |
| `GraphRuns.TombstoneStillConsumes` | internal/graphs/graphs.go:351-375 | a removed node's tombstone keeps exactly the edges it had |
| `GraphRuns.SelectorMayNameTombstone` | internal/graphs/tofu.go:726-736 | after a deploy that drops a consumer, its tombstone still consumes the live node; the selector resolves without error and without an edge, and names no block |
| `GraphRuns.TombstoneLaw` | internal/graphs/graphs.go:351-375 | a removed node is a tombstone after further deploys if and only if all but the last failed, and absent otherwise |
| `GraphRuns.StampedGraphAddsInputs` | internal/api/deployments_core.go:366-380 | the graph that is stamped has the stored graph's nodes, and its targets are the stored ones plus exactly what the placeholders of inputs add |
| `GraphRuns.StoredGraphLacksInputEdges` | internal/api/deployments_core.go:366-380 | a run in which they differ, and the edge is missing from the tombstone too |
| `ProviderVariants.AddConfiguration` | internal/graphs/tofu.go:313-332 | the loop with its recursion into sub-blocks equals the rendering function |
| `ProviderVariants.VariantDecidesBlock` | internal/graphs/tofu.go:341-360 | two nodes with the same type, id and resource and selector matches have the same substitutions throughout and render the same block |
| `VariantDigest.SameEncodingIff` | internal/graphs/tofu.go:335-362 | two variants have the same digest text if and only if they agree on all matches and on type and id written side by side |
| `VariantDigest.SameTextIff` | internal/graphs/tofu.go:337-339 | two pairs of type and id are written alike exactly if one type continues into the other's id |
| `VariantDigest.CollisionIff` | internal/graphs/tofu.go:335-362 | different variants share the digest text if and only if they have the same matches and one type continues into the other's id |
| `VariantDigest.DollarInIdCollides` | internal/graphs/tofu.go:339-358 | without a rule for ids the text is ambiguous: an id may spell out a placeholder |
| `Providers.ConfigureProviders` | internal/graphs/tofu.go:132-187 | one block per distinct hash, rendered from its first use, with exactly those names required; it fails exactly if one of these renderings does |
| `Providers.BlocksAre` | internal/graphs/tofu.go:154-169 | every used hash has exactly one block and every block comes from a use |
| `Providers.EntriesResolveIff` | internal/graphs/tofu.go:132-187 | every entry has exactly one block, rendered from its own provider and substitutions, if and only if neither a hash nor a local name belongs to two different uses |
| `Providers.NameEndsWithHash` | internal/graphs/tofu.go:95-97 | a local name ends with the first eight characters of its hash |
| `Providers.SameHashIff` | internal/graphs/tofu.go:335-362 | two uses share a hash exactly if they are the same, or have the same matches and overlapping type and id |
| `Providers.DeduplicationIsSoundIff` | internal/graphs/tofu.go:132-187 | with hashes that differ in eight characters, every entry has exactly one block, its own, if and only if no two different uses have the same matches and overlapping type and id |
| `Providers.ResolvedBlockIsOwn` | internal/graphs/tofu.go:154-169 | the block of a resolved entry is what this use's configuration renders to under its own substitutions |
| `Providers.MissingSeparatorLosesBlock` | internal/graphs/tofu.go:335-339 | such a pair leaves the second provider's entry without a block |
| `Providers.SharedNameTakesOtherProvider` | internal/graphs/tofu.go:95-97 | or both get one name, and the second provider's entry uses the first one's configuration |
| `Tokens.ConvertToTokens` | internal/graphs/tofu.go:551-689 | the recursion with its loops equals the conversion function |
| `Tokens.ConvertString` | internal/graphs/tofu.go:557-617 | the string case equals its specification on segments |
| `Tokens.Interpolate` | internal/graphs/tofu.go:571-617 | relocating every match with strings.Index yields the tokens of the segments |
| `Tokens.IndexIsMatch` | internal/graphs/tofu.go:577-580 | the relocated text is the match itself |
| `Tokens.SegmentsTile` | internal/graphs/tofu.go:577-612 | literals and placeholders tile the string exactly |
| `Tokens.EvalConverted` | internal/graphs/tofu.go:551-689 | the tokens of a clean value evaluate to the value with placeholders replaced and escapes undone |
| `Tokens.ConversionPreservesMeaningIff` | internal/graphs/tofu.go:506-689 | meaning is preserved if and only if there is no null inside and every placeholder is resolved |
| `Tokens.EvalPlaceholder` | internal/graphs/tofu.go:503-549 | a resolved placeholder's tokens evaluate to what it stands for |
| `Tokens.UnresolvedPlaceholderIsSilent` | internal/graphs/tofu.go:548-548 | an unresolved placeholder converts to no tokens and no error |
| `Tokens.NestedNullVanishes` | internal/graphs/tofu.go:660-676 | a list of one null evaluates to the empty list |
| `ActiveResources.ResolveNodes` | internal/graphs/resolve.go:24-56 | the loop gives module and edges of exactly the live nodes |
| `ActiveResources.CollectRows` | internal/model/active_resources.go:140-185 | the loops collect exactly the live nodes and their edges to known nodes |
| `ActiveResources.CollectEdges` | internal/model/active_resources.go:176-184 | one node's rows are exactly its edges to known nodes |
| `ActiveResources.StampSucceedsIff` | internal/model/active_resources.go:187-223 | a linked graph is stamped if and only if no live node has two aliases for one target |
| `ActiveResources.StampKeepsEdges` | internal/model/active_resources.go:187-242 | every edge row carries its subject's Deployment |
| `ActiveResources.StampShows` | internal/model/active_resources.go:134-242 | after a stamp the view is the old one covered by the resolved graph |
| `ActiveResources.DiscardShows` | internal/model/active_resources.go:117-132 | a discard leaves exactly the last stamped graph, with all its edges |
| `ActiveResources.OtherEnvironmentsUntouched` | internal/model/active_resources.go:117-242 | stamp and discard leave other Environments alone |
| `ActiveResources.TablesRefineGraphs` | internal/model/active_resources.go:76-242 | over every run the tables show the last success overlaid with every graph stamped since |
| `ActiveResources.SuccessLeavesItsGraph` | internal/api/deployments.go:1157-1161 | after a success the tables equal ResolveNodes of the stamped graph, empty for a destroy |
| `ActiveResources.OverlayKeys` | internal/api/deployments_core.go:499-507 | between successes the tables hold exactly the nodes live in some graph stamped since the last success |
| `ActiveResources.OldToNewEdgesSurvive` | internal/model/active_resources.go:225-231 | new nodes never point to old ones; an edge of an old node stays exactly if it was there |
| `ActiveResources.OldAndNewDisjointIff` | internal/model/active_resources.go:225-242 | over every run a stamp leaves old and new nodes unconnected if and only if no node outside the new graph pointed to a node live in it |
| `ActiveResources.OldEdgeReachesNewNode` | internal/model/active_resources.go:225-242 | a run in which an edge row joins an old and a new node |
| `ActiveResources.PlanLeavesViewIff` | internal/api/deployments_core.go:499-507 | over every run a plan leaves what the tables show if and only if it plans a deploy or its graph has no live node; otherwise every live node takes the plan's Deployment |
| `ActiveResources.RollbackPlanStamps` | internal/api/deployments_core.go:499-507 | after two successes a plan to roll back to the first makes the tables show the first graph again |
| `GraphDiff.DiffGraphs` | internal/api/deployments_core.go:731-817 | exactly the specified changes, no coordinate twice, and three counts that sum to the number of changes |
| `GraphDiff.DiffReconstructs` | internal/api/deployments_core.go:731-817 | old nodes without the removed, with the added, are the live nodes of the new graph |
| `GraphDiff.DiffIsSymmetric` | internal/api/deployments_core.go:731-817 | without tombstones what one direction adds the other removes |
| `GraphDiff.DiffWithItself` | internal/api/deployments_core.go:788-806 | a graph compared with itself reports exactly its tombstones, as removed |
| `GraphDiff.SelfDiffIsEmptyIff` | internal/api/deployments_core.go:788-806 | that diff is empty if and only if there is no tombstone |
| `GraphDiff.LinkedGraphsAreComparable` | internal/api/deployments_core.go:739-752 | on linked graphs the module comparison never lacks a module |
| `Versions.SelectOne` | internal/api/deployments_core.go:587-610 | one selection moves all rules of the module to the last matching version, in catalogue order, or fails |
| `Versions.ApplySelections` | internal/api/deployments_core.go:586-612 | success and result do not depend on the iteration order of the selections |
| `Versions.SelectionConservesRules` | internal/api/deployments_core.go:586-612 | every module keeps exactly its rules in order, a selected one has them on the chosen version, an unselected one is untouched |
| `Gzip.DecodeMembers` | scripts/release_content.py:16-86 | the loop terminates and equals the decoding function |
| `Gzip.ParseHeader` | scripts/release_content.py:44-66 | the header checks find the header's end or fail as specified |
| `Gzip.DecodingConservesBytes` | scripts/release_content.py:16-86 | padding, headers, bodies and trailers tile the input, metadata is all but the bodies, the three bounds hold |
| `Gzip.HeadParses` | scripts/release_content.py:44-67 | a well-formed header that fits the bound is parsed to exactly its end |
| `Gzip.DecodingInvertsEncoding` | scripts/release_content.py:16-86 | any well-formed in-bounds sequence of members decodes to its payloads and keeps everything else |

## Left out

- Core's behaviour: replies are arguments of events; the one promise used is that Core authorizes nothing under a dispatch whose revocation it has committed.
- Postgres: one transaction is one atomic step, or a sequence of steps under the row and advisory locks the code takes; lock timeouts, deadlines and clocks are events that may fail or expire anything.
- The graph library: expansion yields a closed graph without tombstones, iteration visits every node once, a placeholder resolves to resource nodes, AddAnonymousDependency adds a new alias, and the placeholder pattern matches leftmost without overlap.
- Plan deployments: only an Environment's first Deployment is the last state Deployment although it is a plan, and counts as a deploy; other plans are no step of the graph runs. The coordinate type of workloads is the constant the library would supply.
- Resource metadata (BulkUpdateActiveResources): a stamp keeps it, updating it is not modelled.
- SHA-256: digests and node hashes are taken to be free of collisions, except where a lemma is about collisions.
- zlib: an inflater parameter that leaves over at most its input, and that decodes the members assumed well-formed.
- HCL writing: quoting inside literal tokens, state-storage, variable and output blocks, and module sources; a literal token stands for its text.
- Retention: deleting inbox rows, receipts, outputs and Deployments is modelled only where a theorem speaks of history (admission, rollback lineage, queue); the queue forgets an Environment's waiting rows with it but keeps its Deployments as history.
- Aliasing: AddDeletedNodes shares edge maps between the two graphs; the model copies them.
- Error texts, reason codes and logging: refusals of one kind are one value.
- SweepDeploymentQueue as a loop: a pass is a sequence of steps that may interleave with everything else.
- AdmissionReconciler.PassSettlesIff: the pass is undisturbed; with others in between it is still a run of the protocol, for which the safety theorems hold.
- Queue depth and TTL limits and idempotent replay (findReplay): a refused or replayed request is no step.
- encodeProviderSubsMap, decodeProviderSubsMap, deploymentPlanFingerprint and the bounded response body: flat encodings that would add only easy members.
- Observation start and redeploy handlers, HTTP decoding, signatures, permissions, runners, Kubernetes and wiring.
- Results.RetainLateKeeps: whether outputs are age ciphertext within the retention limit is a fact of the body; organization, project and scope names, equal by construction, are not compared.
- Acknowledgements.AcknowledgedResultIsRecorded: what a row shows of a result is status, outputs and metrics; resource metadata goes to another table, and receipts keep a digest of the body.
- Acknowledgements.ReusedEventLosesResult: two uses for one Deployment that differ only in metadata leave the same row and are not told apart.
- Providers.DeduplicationIsSoundIff: type and id hold no dollar sign, a placeholder runs from a dollar sign to the first closing brace, and a coordinate reads "type=..,class=..,id=.."; lengths are those of ASCII text.
- RollbackLineage.RetriesFormOnePath: rollbacks recorded before forwards were stored on receipts have no forward and are outside the path.
- Gzip.DecodingInvertsEncoding: that a deflate body and its trailer inflate to the payload is a hypothesis on the inflater.
