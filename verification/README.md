# Jingwei protocols, verified in Dafny

A Dafny model of the closed state machines and algorithms at the core of the Jingwei agent runtime, with proofs of
what they promise over whole runs. Verify everything with `dafny verify dfyconfig.toml`.

| files | what they model |
|---|---|
| `Digraph`, `PluginGraph`, `PluginSelection` | plugin composition: Kahn's activation order, Kosaraju's diagnostic, the capability selection fixpoint, the errors of a refused composition |
| `BudgetTypes`, `BudgetSteps`, `BudgetLedger`, `BudgetInvariant`, `BudgetConservation` | the in-memory task ledger: one atomic step per locked method, the class that performs them in place, its invariant and what whole runs conserve |
| `BudgetCheckpoint` | the checkpoint validator, sealing and restoring |
| `BudgetChain`, `BudgetProtocol`, `BudgetLease` | valid transitions, grants and recoveries; hosts racing on one compare-and-swap cell with indeterminate writes; the execution lease |
| `ByteStrings`, `BudgetFile` | the append-only checkpoint log, with a crash after any byte of a write |
| `SessionCoordinator` | the session mailbox: one lease, a waiting queue, a cache of the durable log |
| `ModelScheduler` | bounded concurrency, bounded queue, cancellation and idempotent release of model jobs |
| `SseDecoder` | the streaming decoder and the generation accumulator it must agree with |
| `Conversation`, `ContextProjection`, `ContextBuilder` | the message automaton, the projection of a log into message groups, dropping whole turns to fit a budget |
| `ToolRecovery`, `TaskSnapshot` | retry plans and task snapshots read from a growing log |

Each mutex-protected method is one atomic step. A component whose methods change fields is a class; every method's
contract gives its whole new state as a step function of the old one, and the theorems are about those functions and
their runs, so they are theorems about the methods. Loops over local variables are methods proved equal to a
specification that is itself characterised by lemmas. Unsigned integers keep their 64-bit bound and every checked
or saturating addition; time is a bounded natural number of nanoseconds passed in by the caller.

Some promises hold only under a condition, which is then proved to be exact:

- A ledger seals to a valid image exactly when its anchor is well formed and not older than the last grant, and its
  run, if it bound a turn, bound one whose id is not blank (`SealWellFormedIff`, `ReachableLedgerSeals`). A run may be
  opened for a blank turn id, and then never seals (`BlankTurnNeverSeals`); so, against the comment on the lease's
  `Drop`, dropping such a lease does not revoke the surviving handles (`DropRevokes`).
- A committed image verifies against the log it closes exactly when the new events repeat no event id
  (`CommittedImageVerifies`; `RepeatedEventNeverVerifies` is a commit that does).
- Appending the call built from a retry plan keeps a tool history accepted exactly when the source event's id is itself
  a valid text (`RetryExtendsChain`, and `BlankSourceNeverRetried` for one that is not); the scan does not check event ids, the operation check does.
- Cutting a stream into chunks changes nothing about a stream that decodes. Of one that does not, a caller has seen the
  events of the chunks before the failing one, while a single push delivers none: the two agree exactly when the stream
  decodes or those chunks emit nothing (`ChunkingIrrelevant`, `ChunkedIffOnce`, `EarlierEventsSurvive`).
- A pending write lands exactly when the image it was made from is still stored; in every reachable state comparing
  revisions decides that, given that execution ids are fresh (`LandsIffCurrent`).

## Model

| member | source | states |
|---|---|---|
| PluginGraph.ResolveOrder | crates/plugin/plugin/src/graph.rs:97-145 | An order is returned exactly when the dependency map has no cycle; it lists every plugin at its positions in the lexicographically least topological order by id. Otherwise the diagnostic is the least cyclic strongly connected component. |
| PluginGraph.SmallestCyclicComponent | crates/plugin/plugin/src/graph.rs:147-190 | None exactly for an acyclic map; otherwise the ascending member list of a cyclic strongly connected component that is lexicographically least among all of them. |
| PluginGraph.VisitDependencies | crates/plugin/plugin/src/graph.rs:192-207 | The first walk ends; everything reachable and not yet visited is finished, and every finished plugin keeps the finish-order invariant that makes the second walk correct. |
| PluginGraph.CollectComponent | crates/plugin/plugin/src/graph.rs:209-224 | The second walk ends and appends exactly the newly visited plugins, each reachable in the reversed map, leaving none of their successors unvisited. |
| PluginGraph.FinishOrder | crates/plugin/plugin/src/graph.rs:150-154 | The finish order covers every plugin and satisfies the walk invariant. |
| PluginGraph.CyclicComponents | crates/plugin/plugin/src/graph.rs:170-187 | Walking the reversed map in reverse finish order lists exactly the cyclic strongly connected components, each once, ascending. |
| PluginGraph.BuildReverse | crates/plugin/plugin/src/graph.rs:156-168 | The reversed map has the same plugins and exactly the reversed edges. |
| PluginGraph.MinComponent | crates/plugin/plugin/src/graph.rs:189-189 | The lexicographically least of the listed components, none for an empty list. |
| PluginGraph.PlaceReady | crates/plugin/plugin/src/graph.rs:111-136 | Taking the least ready id each time gives a greedy order that stops only when nothing is available. |
| PluginGraph.CountDegrees | crates/plugin/plugin/src/graph.rs:102-109 | Indegrees count each plugin's dependencies and dependents are exactly the reverse edges. |
| PluginGraph.TellDependents | crates/plugin/plugin/src/graph.rs:125-135 | Placing a plugin lowers each dependent once and makes ready exactly those whose dependencies are all placed. |
| PluginGraph.GreedyIsLeast | crates/plugin/plugin/src/graph.rs:97-145 | A complete order that always takes the least available id is the least of all topological orders. |
| PluginGraph.OrderedIsAcyclic | crates/plugin/plugin/src/graph.rs:138-145 | A map with a topological order has no cycle. |
| PluginGraph.StuckMeansCycle | crates/plugin/plugin/src/graph.rs:138-145 | When plugins are left and none is available, the map has a cycle. |
| Digraph.AcyclicIffNoCyclicComponent | crates/plugin/plugin/src/graph.rs:147-190 | No plugin reaches itself by a nonempty path exactly when no strongly connected component is cyclic. |
| PluginSelection.SelectCapabilities | crates/plugin/plugin/src/lib.rs:1572-1620 | The selection loop ends with the least requirements and bindings closed under: active plugins require their capabilities, and a required capability with one provider is bound to it. |
| PluginSelection.SelectionUnique | crates/plugin/plugin/src/lib.rs:1580-1620 | There is only one such least selection. |
| PluginSelection.RequireActive | crates/plugin/plugin/src/lib.rs:1582-1594 | One pass adds exactly what active plugins require without passing any closed selection; changed tells whether anything was added. |
| PluginSelection.BindSole | crates/plugin/plugin/src/lib.rs:1595-1616 | One pass binds exactly the required, unselected capabilities with a single provider, without passing any closed selection. |
| PluginSelection.FindSoleProvider | crates/plugin/plugin/src/lib.rs:1599-1607 | The found plugin is the only provider of the capability; none is found exactly when there is no sole provider. |
| PluginSelection.ResolveSelections | crates/plugin/plugin/src/lib.rs:1540-1571 | Every selected capability is bound to a plugin offering the selected candidate. |
| PluginSelection.FirstUnprovided | crates/plugin/plugin/src/lib.rs:1621-1637 | The least capability of a set without any provider. |
| PluginSelection.Validate | crates/plugin/plugin/src/lib.rs:1517-1571 | Accepts exactly the well-formed submissions; an error is the first failed check in the order of Registrar::finish. |
| PluginSelection.Finish | crates/plugin/plugin/src/lib.rs:1501-1686 | Composes exactly the composable submissions, in the least topological order of the active plugins; a refusal is the first failed check, or the least selection is stuck: the least capability without provider and who requires it, else the least with several and its candidates, else the least active cycle. |
| PluginSelection.ProvidersFirst | crates/plugin/plugin/src/lib.rs:1650-1682 | When composition succeeds, everything the root or an active plugin requires is bound to one active provider activated earlier. |
| PluginSelection.SubmissionOrderIrrelevant | crates/plugin/plugin/src/lib.rs:1501-1686 | Submitting the same plugins in another order composes exactly when this order does, with the same selection, requirements and bindings, and is refused for exactly the same reasons. |
| PluginSelection.ActivationOrderIrrelevant | crates/plugin/plugin/src/lib.rs:1674-1682 | Two orders of submission activate the same plugins in the same sequence. |
| PluginSelection.CompositionUnique | crates/plugin/plugin/src/lib.rs:1501-1686 | Two composed submissions of the same set of plugins have the same requirements, bindings and order of ids. |
| PluginSelection.ActiveGraphClosed | crates/plugin/plugin/src/lib.rs:1650-1674 | The dependency map of the active plugins is closed over them. |
| PluginSelection.ExactGraphClosed | crates/plugin/plugin/src/graph.rs:40-61 | With all dependencies known, the exact dependency map is closed. |
| PluginSelection.UnboundHasNoSoleProvider | crates/plugin/plugin/src/lib.rs:1638-1648 | A required capability left unbound that has a provider has a second one. |
| BudgetLedger.TaskBudget.Create | crates/core/budget/src/lib.rs:142-167 | A blank identity is refused; else a new ledger is fresh, under the host limits tightened by the task limits. |
| BudgetLedger.TaskBudget.TickNow | crates/core/budget/src/lib.rs:659-717 | Measures the time since the last reading, once; a clock that moved backwards stops the task, and a sealed or frozen ledger measures nothing. |
| BudgetLedger.TaskBudget.SplitElapsed | crates/core/budget/src/lib.rs:681-702 | Elapsed time splits into active time up to the nearer limit and cleanup time beyond, saturating. |
| BudgetLedger.TaskBudget.MeasureRun | crates/core/budget/src/lib.rs:681-716 | The split is added to task and run, and reaching a limit stops the one whose limit it is. |
| BudgetLedger.TaskBudget.AllocateId | crates/core/budget/src/lib.rs:798-810 | Ids increase by one; exhaustion stops the task with an overflow. |
| BudgetLedger.TaskBudget.Begin | crates/core/budget/src/lib.rs:186-220 | Opens a run under tightened limits, or refuses with the first applicable error. |
| BudgetLedger.TaskBudget.Bind | crates/core/budget/src/lib.rs:229-239 | Binds a run to one turn; a second, different turn is refused. |
| BudgetLedger.TaskBudget.Prepare | crates/core/budget/src/lib.rs:250-264 | With no reservation pending, closes the run to further work and reports it while it keeps the task. |
| BudgetLedger.TaskBudget.FinishRun | crates/core/budget/src/lib.rs:267-287 | With no reservation pending, ends the run, closed or not, and frees the task. |
| BudgetLedger.TaskBudget.AbandonRun | crates/core/budget/src/lib.rs:290-306 | Dropping the current run closes it and stops the task, unless it is stopped. |
| BudgetLedger.TaskBudget.ExpireRun | crates/core/budget/src/lib.rs:365-379 | A live run that has not stopped is stopped for time: the task when its remaining time is no longer than the run's, else the run. |
| BudgetLedger.TaskBudget.RemainingTime | crates/core/budget/src/lib.rs:325-340 | For a live run, the least of the active time left to the task and to the run. |
| BudgetLedger.TaskBudget.Stop | crates/core/budget/src/lib.rs:381-393 | Records the stop of a live run, unless it has one. |
| BudgetLedger.TaskBudget.Cleanup | crates/core/budget/src/lib.rs:396-402 | From here on the run's time counts as cleanup. |
| BudgetLedger.TaskBudget.Record | crates/core/budget/src/lib.rs:416-431 | Counts an attempted or confirmed event of the current run, saturating. |
| BudgetLedger.TaskBudget.ReserveAll | crates/core/budget/src/lib.rs:447-517 | Grants a request when it is valid and every resource fits task and run; else refuses, and records the first resource that does not fit as the stop. |
| BudgetLedger.TaskBudget.FindMisfit | crates/core/budget/src/lib.rs:454-482 | The first resource, in declaration order, that does not fit, and whether task or run refuses it. |
| BudgetLedger.TaskBudget.AcceptRequest | crates/core/budget/src/lib.rs:483-516 | Charges attempts and reserves variables on task and run at once, under a new id. |
| BudgetLedger.TaskBudget.Charge | crates/core/budget/src/lib.rs:484-500 | The loop moves each of the seven resources exactly once. |
| BudgetLedger.TaskBudget.Start | crates/core/budget/src/lib.rs:522-536 | Marks a pending reservation started, once. |
| BudgetLedger.TaskBudget.Cancel | crates/core/budget/src/lib.rs:540-556 | Releases a reservation that has not started; any failure abandons it. |
| BudgetLedger.TaskBudget.CancelUnstarted | crates/core/budget/src/lib.rs:540-556 | The cancellation proper, before the handle is dropped. |
| BudgetLedger.TaskBudget.SettleUsage | crates/core/budget/src/lib.rs:560-602 | Settles a started reservation with its usage, or fails and abandons it. |
| BudgetLedger.TaskBudget.SettleStarted | crates/core/budget/src/lib.rs:560-602 | The settlement proper: all totals move together or none does. |
| BudgetLedger.TaskBudget.SettleOne | crates/core/budget/src/lib.rs:904-937 | Actual usage is charged as it is, estimated usage at no less than the reservation, unknown usage at the reservation; overflow anywhere gives no settlement. |
| BudgetLedger.TaskBudget.ComputeSettlement | crates/core/budget/src/lib.rs:870-940 | The new totals of the three variable resources, computed on the side. |
| BudgetLedger.TaskBudget.ApplySettled | crates/core/budget/src/lib.rs:573-591 | Publishes the new totals and releases the reservation; a breach stops the task. |
| BudgetLedger.TaskBudget.ReleaseReservation | crates/core/budget/src/lib.rs:846-861 | Takes a reservation out of pending and its variables out of reserved, for task and run, without underflow. |
| BudgetLedger.TaskBudget.AbandonReservation | crates/core/budget/src/lib.rs:605-622 | Dropping an unresolved reservation keeps it, marked abandoned, and stops the task unless it is stopped. |
| BudgetLedger.TaskBudget.Observe | crates/core/budget/src/lib.rs:633-640 | A report is the measured state. |
| BudgetLedger.TaskBudget.SealCheckpoint | crates/core/budget/src/checkpoint.rs:373-404 | Seals the ledger with the image of its measured state, or refuses and leaves it open. |
| BudgetLedger.TaskBudget.FromImage | crates/core/budget/src/checkpoint.rs:427-480 | The ledger of an image under the host's limits. |
| BudgetLedger.TaskBudget.FindRestoredStop | crates/core/budget/src/checkpoint.rs:431-446 | The recorded stop, else recovery, else active time, else the first resource over its limit. |
| BudgetLedger.TaskBudget.SortPending | crates/core/budget/src/checkpoint.rs:476-476 | Pending reservations listed by id. |
| BudgetLedger.TaskBudget.RestoreCheckpoint | crates/core/budget/src/checkpoint.rs:409-481 | Restores only a valid image with the expected identity, revision and anchor. |
| BudgetInvariant.StepValid | crates/core/budget/src/lib.rs:447-717 | Every operation keeps the invariant of the ledger: ids, sums, charges, evidence, times and limits. |
| BudgetInvariant.RunValid | crates/core/budget/src/lib.rs:447-717 | So does every sequence of operations, whatever the interleaving; the two halves of a failed cancel or settle are operations of their own. |
| BudgetInvariant.ReserveValid | crates/core/budget/src/lib.rs:447-517 | Reserving keeps every clause of the invariant. |
| BudgetInvariant.SettledCharges | crates/core/budget/src/lib.rs:870-940 | A settlement charges exactly the debit of each variable resource on task and run, evidence grows by no more, attempts do not move, and a breach is reported exactly when some usage passes its reservation. |
| BudgetConservation.ChargesConserved | crates/core/budget/src/lib.rs:447-602 | Over any run, charges are the initial ones plus accepted attempts plus settled debits: no refund and nothing else. |
| BudgetConservation.Halves | crates/core/budget/src/lib.rs:540-623 | A failed cancel or settle is its first half followed by the drop of the handle; others may act in between. |
| BudgetConservation.RunGrows | crates/core/budget/src/lib.rs:447-717 | Usage evidence, times and the id watermark never decrease; audits and revision do not change; the first stop stays. |
| BudgetConservation.StoppedForever | crates/core/budget/src/lib.rs:763-796 | After a stop or a seal no later operation is ever granted. |
| BudgetConservation.TimeConserved | crates/core/budget/src/lib.rs:659-717 | Short of overflow, active plus cleanup time grows by exactly the elapsed time of runs. |
| BudgetConservation.ActiveTimeBounded | crates/core/budget/src/lib.rs:672-700 | Active time of task and run never passes its limit. |
| BudgetConservation.NewLedgerSafe | crates/core/budget/src/lib.rs:142-717 | For every run of a new ledger: charges equal the accepted total, reserved equals what is pending for task as for run, usage is within charges, and charged plus reserved stays within limits until a stop. |
| BudgetCheckpoint.Validate | crates/core/budget/src/checkpoint.rs:215-366 | Accepts exactly the well-formed images. |
| BudgetCheckpoint.ValidatePending | crates/core/budget/src/checkpoint.rs:252-284 | With sums that fit, tallies the pending attempts and reservations of distinct, valid entries; refuses when an entry is bad or no total could match. |
| BudgetCheckpoint.AddRequest | crates/core/budget/src/checkpoint.rs:270-283 | Adds attempts and variables of a request to their own tallies, failing exactly on overflow. |
| BudgetCheckpoint.ValidateTotals | crates/core/budget/src/checkpoint.rs:285-327 | Accepts exactly totals consistent with the tally. |
| BudgetCheckpoint.ValidateRun | crates/core/budget/src/checkpoint.rs:328-364 | Accepts exactly a run consistent with task and tally. |
| BudgetCheckpoint.ValidateGrants | crates/core/budget/src/grant.rs:254-309 | Accepts exactly a valid grant audit: distinct operations, increasing revisions and anchors, each step raising limits. |
| BudgetCheckpoint.ValidateGrantRecords | crates/core/budget/src/grant.rs:268-300 | Accepts exactly records that are valid one by one up to the image. |
| BudgetCheckpoint.ValidateGrantPairs | crates/core/budget/src/grant.rs:301-307 | Accepts exactly audits whose neighbours follow each other. |
| BudgetCheckpoint.ValidateRecoveries | crates/core/budget/src/recovery.rs:166-195 | Accepts exactly a valid recovery audit, each record's evidence image itself well formed. |
| BudgetCheckpoint.SealWellFormedIff | crates/core/budget/src/checkpoint.rs:373-404 | The image of a valid ledger is well formed exactly when the anchor is, the bound turn id is not blank and no grant was made past the anchor; an anchor not older than the restored one suffices for the last. |
| BudgetCheckpoint.FreshSealWellFormedIff | crates/core/budget/src/checkpoint.rs:373-404 | The same for a ledger that was not restored. |
| BudgetCheckpoint.ReachableLedgerSeals | crates/core/budget/src/checkpoint.rs:215-404 | After any operations on any restored ledger, sealing gives an image the validator accepts exactly under that condition, one revision on, with charges equal to the old ones plus the run's. |
| BudgetCheckpoint.NewLedgerSeals | crates/core/budget/src/checkpoint.rs:373-404 | The same for any run of a new ledger. |
| BudgetCheckpoint.BlankTurnNeverSeals | crates/core/budget/src/checkpoint.rs:373-404 | A run opened for a blank turn id leaves the ledger open and unsealable, so the condition is needed. |
| BudgetCheckpoint.RestoreValid | crates/core/budget/src/checkpoint.rs:409-481 | A restored ledger satisfies the invariant, continues its image and is frozen exactly when the image is not quiescent. |
| BudgetCheckpoint.QuiescentRestore | crates/core/budget/src/checkpoint.rs:409-481 | A quiescent image restores to a writable ledger with the same charges, usage, times and ids; a stop is added only at a limit reached. |
| BudgetCheckpoint.FrozenForever | crates/core/budget/src/lib.rs:763-771 | A frozen or sealed ledger refuses every later operation and never changes. |
| BudgetCheckpoint.RestoreUndoesSeal | crates/core/budget/src/checkpoint.rs:373-481 | Sealing an idle ledger and restoring the image gives the ledger back, one revision on. |
| BudgetCheckpoint.BusyRestore | crates/core/budget/src/checkpoint.rs:373-481 | Sealing under a run and restoring gives the same accounts, ids and reservations, frozen, with the run closed and recovery required unless already stopped. |
| BudgetCheckpoint.RestoredSums | crates/core/budget/src/checkpoint.rs:468-476 | The restored reservations still add up to the reserved amounts. |
| BudgetCheckpoint.SortedAscending | crates/core/budget/src/checkpoint.rs:476-476 | Pending reservations are restored in strictly ascending id order. |
| BudgetChain.ValidateAddresses | crates/core/budget/src/execution.rs:201-220 | Accepts exactly events of one session at consecutive positions with distinct ids. |
| BudgetChain.CheckTransition | crates/core/budget/src/grant.rs:197-252 | Accepts exactly the valid transitions: a first image, a commit or claim that refunds nothing, one grant, or one recovery. |
| BudgetChain.CheckGrantStep | crates/core/budget/src/grant.rs:224-248 | Accepts exactly an image equal to its predecessor with one described grant applied. |
| BudgetChain.CheckRecoveryStep | crates/core/budget/src/recovery.rs:197-263 | Accepts exactly an image that appends one recovery and takes the rest from the recovered candidate. |
| BudgetChain.CheckNoRefund | crates/core/budget/src/checkpoint.rs:200-212 | Accepts exactly when charges, usage and times do not decrease. |
| BudgetChain.FindBoundaryReport | crates/core/budget/src/grant.rs:313-330 | Undoes the grants made at the image's own boundary, newest first. |
| BudgetChain.StackedGrants | crates/core/budget/src/grant.rs:313-330 | For any stack of grants at one boundary, the reconstructed report is exactly that of the image beneath, so the granted image verifies against a log exactly when that image does. |
| BudgetChain.GrantKeepsHistory | crates/core/budget/src/execution.rs:161-191 | One grant changes nothing about which logs verify an image. |
| BudgetChain.GrantNeverRejected | crates/core/budget/src/grant.rs:161-174 | Once the earlier guards pass, the transition check of a grant never fails. |
| BudgetChain.DecideGrantNeverRejected | crates/core/budget/src/grant.rs:88-187 | So a decided grant is always a valid transition. |
| BudgetChain.ClaimValid | crates/core/budget/src/checkpoint.rs:159-179 | A claim of a quiescent image is a valid transition and is no longer quiescent. |
| BudgetChain.ChainExtends | crates/core/budget/src/grant.rs:197-252 | Along a chain of valid transitions revisions grow and both audits only extend. |
| BudgetChain.LimitsRiseByGrant | crates/core/budget/src/grant.rs:197-252 | Where no grant was appended, limits did not rise. |
| BudgetChain.GrantChangesOnlyLimits | crates/core/budget/src/grant.rs:218-250 | An image that appends a grant appends exactly one, between quiescent images, and changes only limits and the stop. |
| BudgetChain.GrantRetry | crates/core/budget/src/grant.rs:105-119 | After a grant, the same request returns the same record however far the chain has gone on. |
| BudgetChain.RecoveryRetry | crates/core/budget/src/recovery.rs:87-109 | After a recovery, the same request returns the same record however far the chain has gone on. |
| BudgetProtocol.ChainSafety | crates/core/budget/src/execution.rs:51-158 | Under every interleaving of hosts and indeterminate writes: each stored image is a valid transition of the one before, charges, usage, times, ids and audits only grow, and limits rise only with a grant. |
| BudgetProtocol.OneOwner | crates/core/budget/src/execution.rs:51-85 | At most one unsealed lease holds the stored claim. |
| BudgetProtocol.ClaimFences | crates/core/budget/src/execution.rs:51-158 | While a claim is stored, only its own commit or recovery can replace it. |
| BudgetProtocol.ClosedOnce | crates/core/budget/src/execution.rs:115-158 | Once a claim has been replaced, nothing that closes it can land again: a stale lease never commits. |
| BudgetProtocol.LandsIffCurrent | crates/core/budget/src/execution.rs:69-77 | A write lands exactly when its expected image is the stored one; comparing revisions decides that. |
| BudgetProtocol.RunInv | crates/core/budget/src/execution.rs:51-158 | The protocol invariant holds after any actions. |
| BudgetProtocol.CommittedImageVerifies | crates/core/budget/src/execution.rs:115-158 | The image a lease commits verifies against the extended log exactly when no event id is repeated. |
| BudgetProtocol.RepeatedEventNeverVerifies | crates/core/budget/src/execution.rs:115-158 | A concrete commit whose turn reuses an event id succeeds, and its image verifies against no log that holds both events. |
| BudgetProtocol.RetainedCandidateRecovers | crates/core/budget/src/recovery.rs:62-141 | A candidate a host retained can be recovered exactly when the request and ownership pass their checks, the operation is new, the audit has room and the limits did not change. |
| BudgetLease.ExecutionLease.Acquire | crates/core/budget/src/execution.rs:51-85 | Claims a ready image and restores its ledger, or nothing. |
| BudgetLease.ExecutionLease.Confirm | crates/core/budget/src/execution.rs:78-78 | After the claim is stored the ledger continues it. |
| BudgetLease.ExecutionLease.CommitClosed | crates/core/budget/src/execution.rs:115-158 | Before the drop that follows: events that are not one closed turn leave the ledger as it was; else it is sealed at the turn's last event, also when the image is then refused for its state or its tail. |
| BudgetLease.CommitRevokes | crates/core/budget/src/execution.rs:115-198 | After a commit and the drop of the lease it consumes, whatever the outcome, the surviving handles are revoked exactly when the drop alone would revoke them. |
| BudgetLease.ExecutionLease.Drop | crates/core/budget/src/execution.rs:193-198 | Dropping a lease seals its ledger at the base anchor. |
| BudgetLease.DropRevokes | crates/core/budget/src/execution.rs:193-198 | That revokes the surviving handles exactly when revisions are left and no run is bound to a blank turn id. |
| BudgetFile.CheckpointFile.Admit | crates/budget/file/src/lib.rs:77-87 | A job is admitted unless the store is closed or full. |
| BudgetFile.CheckpointFile.Release | crates/budget/file/src/lib.rs:168-175 | A finished job frees its place and tells when the store has drained. |
| BudgetFile.CheckpointFile.Close | crates/budget/file/src/lib.rs:222-233 | Admission ends; drained means no job is in flight. |
| BudgetFile.CheckpointFile.FirstLine | crates/budget/file/src/lib.rs:122-132 | The length of the first line, newline included. |
| BudgetFile.CheckpointFile.CheckLine | crates/budget/file/src/lib.rs:123-155 | A line is a record only when bounded, ended, decodable and a valid successor. |
| BudgetFile.CheckpointFile.ReadLatest | crates/budget/file/src/lib.rs:105-164 | Replays the log record by record to its latest image. |
| BudgetFile.CheckpointFile.CompareExchange | crates/budget/file/src/lib.rs:277-332 | Appends one record, replays an exact retry, or refuses, with the bytes each disk outcome leaves. |
| BudgetFile.ReplayChain | crates/budget/file/src/lib.rs:105-164 | Replaying the encoding of a chain gives that chain, whatever follows it. |
| BudgetFile.ReadsChain | crates/budget/file/src/lib.rs:105-164 | Reading a log gives the last image of its chain, or Corrupt at the torn record. |
| BudgetFile.ExchangeRefines | crates/budget/file/src/lib.rs:277-332 | A compare-and-exchange on bytes is one on the abstract chain, with a write cut at any byte. |
| BudgetFile.CallsRefine | crates/budget/file/src/lib.rs:277-332 | So is any sequence of them. |
| BudgetFile.CrashSafety | crates/budget/file/src/lib.rs:105-332 | After any calls and crashes the log reads as exactly the abstract chain, or as Corrupt. |
| BudgetFile.TornForever | crates/budget/file/src/lib.rs:105-164 | A torn record is never appended to. |
| BudgetFile.RetryNeverDuplicates | crates/budget/file/src/lib.rs:277-332 | However a call ended and whatever calls came after it, retrying its image stores nothing when the image is in the chain; no image is ever in the chain twice. |
| BudgetFile.RetryAtOnce | crates/budget/file/src/lib.rs:277-332 | Retried at once after an unknown outcome, an image is replayed, written once, or refused as corrupt. |
| BudgetFile.StoredRevisions | crates/budget/file/src/lib.rs:139-155 | The images of a stored chain have the revisions 1, 2, 3 and so on. |
| BudgetFile.StoresSuccessor | crates/budget/file/src/lib.rs:277-332 | A store grows only by a valid successor of the expected revision, and says so truthfully. |
| SessionCoordinator.Coordinator.constructor | crates/session/runtime/src/coordinator.rs:348-357 | A coordinator starts with nothing loaded. |
| SessionCoordinator.Coordinator.BeginTurn | crates/session/runtime/src/coordinator.rs:379-400 | A caller is queued, refused or granted the lease. |
| SessionCoordinator.Coordinator.AdmitCaller | crates/session/runtime/src/coordinator.rs:490-565 | Loads the log if needed and grants a new turn with a fresh token, or refuses. |
| SessionCoordinator.Coordinator.RejectPending | crates/session/runtime/src/coordinator.rs:567-571 | Every waiting caller is refused. |
| SessionCoordinator.Coordinator.GrantQueue | crates/session/runtime/src/coordinator.rs:457-488 | Passes the free lease to the first waiting caller that can take it. |
| SessionCoordinator.Coordinator.AppendDraft | crates/session/runtime/src/coordinator.rs:573-693 | Appends an event of the active turn once, or fails in the way the store reports. |
| SessionCoordinator.Coordinator.FindCached | crates/session/runtime/src/coordinator.rs:602-605 | The position of an event with the same id. |
| SessionCoordinator.Coordinator.ReconcileUnknown | crates/session/runtime/src/coordinator.rs:695-755 | After an unknown outcome the reloaded log decides, or the session is poisoned. |
| SessionCoordinator.Coordinator.Mark | crates/session/runtime/src/coordinator.rs:757-766 | A terminal event closes the active turn. |
| SessionCoordinator.Coordinator.SettleActive | crates/session/runtime/src/coordinator.rs:782-811 | Answers with the events of the active turn and passes the lease on. |
| SessionCoordinator.Coordinator.AbandonLease | crates/session/runtime/src/coordinator.rs:426-442 | Dropping the lease frees the session and passes it on. |
| SessionCoordinator.Coordinator.ShutDown | crates/session/runtime/src/coordinator.rs:443-455 | Stops the session and refuses all waiting callers. |
| SessionCoordinator.ValidateLog | crates/session/session/src/lib.rs:269-298 | Accepts exactly one session's events at consecutive positions with distinct ids. |
| SessionCoordinator.StepInv | crates/session/runtime/src/coordinator.rs:367-455 | Every command keeps the invariant under every outcome of the store. |
| SessionCoordinator.RunSafe | crates/session/runtime/src/coordinator.rs:367-811 | From any good state: a loaded, unpoisoned cache equals the durable log, acknowledged events are durable at their own position, a settled turn is its whole contiguous window with at most one terminal, last, and no later event is the turn's; waiting callers need an active turn. |
| SessionCoordinator.OverForever | crates/session/runtime/src/coordinator.rs:573-693 | A turn whose lease is gone never gets another event, whatever happens later. |
| SessionCoordinator.SessionSafe | crates/session/runtime/src/coordinator.rs:367-811 | The same for a whole session on any existing log, with grants in order. |
| SessionCoordinator.GrantsInOrder | crates/session/runtime/src/coordinator.rs:457-488 | Leases are granted in the order of arrival, with increasing tokens. |
| SessionCoordinator.AppendIdempotent | crates/session/runtime/src/coordinator.rs:573-693 | Appending an acknowledged event again acknowledges it again and changes nothing. |
| ModelScheduler.ModelRuntime.StartUp | crates/llm/runtime/src/lib.rs:209-216 | Only a constructed runtime starts. |
| ModelScheduler.ModelRuntime.Bind | crates/llm/runtime/src/lib.rs:257-293 | A running runtime binds a new turn. |
| ModelScheduler.ModelRuntime.AdmitJob | crates/llm/runtime/src/lib.rs:295-398 | Admits a job to a free slot or the queue, or refuses by the first check of admit that fails. |
| ModelScheduler.ModelRuntime.DispatchWaiters | crates/llm/runtime/src/scheduling.rs:136-171 | Fills free slots from the head of the queue, closing overdue waiters on the way, with its own look at the clock and the budgets for each waiter. |
| ModelScheduler.ModelRuntime.ReleaseExecution | crates/llm/runtime/src/scheduling.rs:114-134 | Closes a job's execution once, then dispatches. |
| ModelScheduler.ModelRuntime.Retain | crates/llm/runtime/src/scheduling.rs:129-129 | Removes one id from the queue. |
| ModelScheduler.ModelRuntime.StartJob | crates/llm/runtime/src/scheduling.rs:334-369 | A prepared job starts unless a stop was seen. |
| ModelScheduler.ModelRuntime.CompleteJob | crates/llm/runtime/src/lib.rs:400-429 | Removes a job, releases its slot and records its failure for the turn. |
| ModelScheduler.ModelRuntime.BeginFinish | crates/llm/runtime/src/lib.rs:509-525 | Closes a turn, cancelling its jobs when asked. |
| ModelScheduler.ModelRuntime.EndFinish | crates/llm/runtime/src/lib.rs:526-553 | A drained turn takes its failures, and one more when its budget run does not end; it keeps at most sixteen and counts the rest. |
| ModelScheduler.ModelRuntime.StopAdmission | crates/llm/runtime/src/lib.rs:219-232 | No further work is admitted and every job is cancelled. |
| ModelScheduler.ModelRuntime.ShutDown | crates/llm/runtime/src/lib.rs:233-255 | A drained runtime is stopped. |
| ModelScheduler.DispatchInv | crates/llm/runtime/src/scheduling.rs:136-171 | Dispatching keeps the invariant and grants in increasing order. |
| ModelScheduler.ReleaseInv | crates/llm/runtime/src/scheduling.rs:114-134 | Releasing keeps the invariant and leaves the job in cleanup. |
| ModelScheduler.StepInv | crates/llm/runtime/src/lib.rs:209-554 | Every operation keeps the invariant. |
| ModelScheduler.RunInv | crates/llm/runtime/src/lib.rs:209-554 | So does every run, and its grants are ordered. |
| ModelScheduler.SchedulerSafe | crates/llm/runtime/src/scheduling.rs:114-171 | In every reachable state occupied slots are the preparing and executing jobs, within the bound; the queue is exactly the queued jobs, ascending, within its bound; waiting while running means all slots are taken; slots are granted in strictly increasing id order. |
| ModelScheduler.ReportPartitionsTime | crates/llm/runtime/src/scheduling.rs:62-84 | Queue, preparation, execution and cleanup time partition the life of a job. |
| ModelScheduler.ReleaseIdempotent | crates/llm/runtime/src/scheduling.rs:114-134 | Releasing again changes nothing but a missing stop reason. |
| ModelScheduler.FinishTakesFailures | crates/llm/runtime/src/lib.rs:526-553 | Finishing a turn reports exactly its unacknowledged failures, plus one when its budget run does not end, kept up to sixteen and counted; finishing again reports none. |
| ModelScheduler.DrainedIff | crates/llm/runtime/src/lib.rs:509-554 | A turn has drained exactly when no job is its. |
| SseDecoder.Decoder.PushBytes | crates/llm/openai/src/sse.rs:33-62 | One chunk: bounded, then byte by byte. |
| SseDecoder.Decoder.FeedBytes | crates/llm/openai/src/sse.rs:42-60 | The bytes in order, stopping at the first error. |
| SseDecoder.Decoder.TakeByte | crates/llm/openai/src/sse.rs:43-59 | One byte extends the line or ends it. |
| SseDecoder.Decoder.DispatchData | crates/llm/openai/src/sse.rs:64-127 | One event: nothing, the end marker, or a parsed chunk. |
| SseDecoder.Decoder.TakeChoice | crates/llm/openai/src/sse.rs:91-125 | Text, then call parts, then the finish reason of a choice. |
| SseDecoder.Decoder.TakeCalls | crates/llm/openai/src/sse.rs:107-121 | Call parts one by one through the accumulator. |
| SseDecoder.GenerationAccumulator.Push | crates/core/core/src/model.rs:606-670 | Accepts a delta within the limits and folds it in; else changes nothing. |
| SseDecoder.GenerationAccumulator.FindPosition | crates/core/core/src/model.rs:640-644 | The position of a call index. |
| SseDecoder.FeedSplit | crates/llm/openai/src/sse.rs:33-62 | Feeding a concatenation is feeding the parts in turn. |
| SseDecoder.ChunkingIrrelevant | crates/llm/openai/src/sse.rs:33-62 | Within the byte limit and for any split into chunks, even inside a scalar: when one push of all the bytes succeeds, the chunks deliver the same events and reach the same state; when it fails, they end in the same error after delivering exactly the events of the chunks before the failing one. |
| SseDecoder.ChunkedIffOnce | crates/llm/openai/src/sse.rs:33-62 | What the chunks deliver is what one push delivers exactly when that push succeeds or the chunks before the failing one emit nothing. |
| SseDecoder.EarlierEventsSurvive | crates/llm/openai/src/lib.rs:385-417 | For any one-line JSON the parsers read as one piece of text: that event followed by a line that is not UTF-8 delivers the text when pushed apart and nothing when pushed together. |
| SseDecoder.OverLimitFails | crates/llm/openai/src/sse.rs:33-40 | Past the byte limit every split fails, after delivering exactly the events of the chunks before the failing one. |
| SseDecoder.StreamConfirmed | crates/llm/openai/src/sse.rs:64-136 | Whether the stream ends well or not, the delivered deltas, folded through a fresh accumulator, are accepted and confirm a delivered response; nothing follows it. |
| SseDecoder.AccumulatorMeaning | crates/core/core/src/model.rs:606-670 | Deltas are accepted exactly within the byte and call limits, and the result holds the text and the calls the deltas spell. |
| SseDecoder.InterleavingIrrelevant | crates/core/core/src/model.rs:672-700 | How text and calls are interleaved does not change the response. |
| Conversation.ValidateAssistant | crates/core/core/src/model.rs:404-422 | Accepts exactly assistant messages with text or calls whose calls have distinct ids, nonblank names and object arguments. |
| Conversation.ValidateMessages | crates/core/core/src/model.rs:424-454 | Accepts exactly the closed conversations. |
| Conversation.AcceptsGroups | crates/core/core/src/model.rs:424-454 | Those are the concatenations of message groups: one message, or an assistant with calls and one result for each. |
| Conversation.ClosedJoin | crates/core/core/src/model.rs:424-454 | Closed conversations concatenate. |
| ContextProjection.ProjectLog | crates/context/context/src/lib.rs:152-218 | Projects an ordered log turn by turn, or fails with the first error. |
| ContextProjection.ScanEvents | crates/context/context/src/lib.rs:228-353 | Collects a turn's calls, results, reply and omissions. |
| ContextProjection.CloseScanned | crates/context/context/src/lib.rs:354-451 | Turns a scanned turn into groups, bounded in messages. |
| ContextProjection.PushGroups | crates/context/context/src/lib.rs:453-466 | Counts messages up to the limit. |
| ContextProjection.CountRun | crates/context/context/src/lib.rs:198-202 | The length of the leading run of one turn. |
| ContextProjection.ProjectTurns | crates/context/context/src/lib.rs:186-217 | The loop over turns. |
| ContextProjection.EachEventOnce | crates/context/context/src/lib.rs:152-451 | In every successful projection each event is the source of exactly one group or exactly one omission. |
| ContextBuilder.Build | crates/context/context/src/builder.rs:233-319 | Returns the first candidate that fits when dropping the oldest unprotected turns one at a time; DoesNotFit only with none left, CountLimit only with one left at the attempt cap. |
| ContextBuilder.BuildChecked | crates/context/context/src/builder.rs:275-318 | The loop of attempts, for valid input; the message check after dropping never fails. |
| ContextBuilder.FindRemovable | crates/context/context/src/builder.rs:304-310 | The oldest retained turn that is not protected. |
| ContextBuilder.ValidateInput | crates/context/context/src/builder.rs:349-472 | The first error of the input, in the order of validate_input. |
| ContextBuilder.ValidateTurns | crates/context/context/src/builder.rs:416-426 | Accepts exactly closed turns with distinct, nonblank ids. |
| ContextBuilder.ValidateGroups | crates/context/context/src/builder.rs:433-470 | Accepts exactly groups of known turns, in turn order, with sources and the shape of their kind. |
| ContextBuilder.DropOldest | crates/context/context/src/builder.rs:304-315 | After k removals exactly the k oldest unprotected turns are gone. |
| ContextBuilder.AssembledIff | crates/context/context/src/builder.rs:322-347 | The assembled messages are valid exactly when the kept groups are closed. |
| ContextBuilder.DroppingKeepsShape | crates/context/context/src/builder.rs:304-317 | Dropping whole turns never breaks a valid conversation. |
| ContextBuilder.CandidatesShrink | crates/context/context/src/builder.rs:322-347 | Later candidates are subsequences of earlier ones: order is kept. |
| ContextBuilder.ProjectionAccepted | crates/context/context/src/lib.rs:228-451 | A projection with a closed last turn passes the builder's checks, and with object arguments its groups concatenate to a valid conversation, whatever turns are kept. |
| ContextBuilder.ProjectedBuildShape | crates/context/context/src/builder.rs:233-319 | So every candidate built from a projection is a valid conversation. |
| ToolRecovery.ScanHistory | crates/tools/tool/src/recovery.rs:96-182 | Collects calls, operations and results, or fails at the first violation. |
| ToolRecovery.AttemptsChain | crates/tools/tool/src/recovery.rs:109-155 | In an accepted history the attempts of an operation form one chain, each retrying the one before with the same tool, arguments and contract. |
| ToolRecovery.PreparedIff | crates/tools/tool/src/recovery.rs:240-280 | A retry is planned exactly for the last attempt of an operation that never succeeded, with the review its status needs. |
| ToolRecovery.ToolRetryPlan.TakeOperation | crates/tools/tool/src/recovery.rs:203-234 | The operation is taken once, and only for the planned session, task, tool, arguments and contract. |
| ToolRecovery.RetryExtendsChain | crates/tools/tool/src/recovery.rs:203-280 | Appending the retried call keeps the history accepted exactly when the source event id is a valid text; it is then the latest attempt and the old call is not. |
| ToolRecovery.BlankSourceNeverRetried | crates/tools/tool/src/recovery.rs:96-280 | A concrete history with a call on an event with a blank id is accepted and a retry planned, and recording the retry makes it unacceptable. |
| TaskSnapshot.AssessLog | crates/task/state/src/history.rs:35-185 | Assesses a log event by event, or fails with the first error. |
| TaskSnapshot.UnresolvedExactly | crates/task/state/src/history.rs:90-168 | The unresolved operations are exactly the intents without a later result. |
| TaskSnapshot.StepsExactly | crates/task/state/src/history.rs:137-150 | The steps are those of the task's intents, each once, by first appearance. |
| TaskSnapshot.SettledExactly | crates/task/state/src/history.rs:169-173 | A step is settled exactly when none of its operations is unresolved. |
| TaskSnapshot.LogCounted | crates/task/state/src/history.rs:65-135 | The log stands in the turn of its last event, closed exactly by a terminal event, with that turn's operations counted. |
| TaskSnapshot.ReportCountsTurn | crates/task/state/src/history.rs:119-130 | Every report in an accepted log counts exactly the operations of its own turn. |
| TaskSnapshot.ChainLater | crates/task/state/src/lib.rs:114-150 | Images of one chain are ordered: later ones keep charges and audits, and equal revisions are equal images. |
| TaskSnapshot.LaterCaptureFollows | crates/task/state/src/lib.rs:325-374 | A capture on an extended log with a later image is always a valid successor of the earlier capture. |
| TaskSnapshot.EvidenceIff | crates/task/state/src/lib.rs:290-322 | Evidence is accepted exactly when the expected identity, revision and compatibility are the snapshot's own and capturing again under them gives the same snapshot. |
| TaskSnapshot.ValidateTrees | crates/task/state/src/lib.rs:258-283 | The worklist with its early limits accepts exactly payloads of bounded size and depth. |

## Left out

- Async plumbing: tasks, wakers, notifies, channels and panics are not modelled; a blocked waiter is a later step.
- Observers, hooks, tracing and wire formats of reports have no state of interest.
- Poisoned locks: a lock is always obtained.
- Run timing metrics (session wait, model queue and execution, tool time) are not kept in the ledger; only the event counts are.
- Identifiers minted as UUIDs are parameters; that they are fresh is an assumption of the theorem that needs it (turn ids of a session, execution ids of leases).
- Plugin ids and capability names are natural numbers that stand for their order; mounting and activating plugins after the order is found is not modelled.
- PluginSelection.Validate: the payloads of duplicate, missing-dependency, exact-provider, conflicting-selection and unknown-provider errors are reduced to their kind; cycles, missing capabilities with their requirers and ambiguous capabilities with their candidates are kept.
- Ordered maps are listed by ascending key or id where order matters, and are maps or sets elsewhere.
- Blank text is text of ASCII white space; text lengths count characters where the source counts UTF-8 bytes.
- Error messages are reduced to the kind of error.
- Serialization: JSON codec, stream chunk parser, UTF-8 decoding and argument parsing are function parameters with only the stated laws (a checkpoint decodes from its encoding and has no raw newline).
- Bounds on the serialized size of a tool history are left out, and that of a snapshot is a predicate parameter (`encodedSmall`).
- The operating system's file lock, paths and `sync_all` are outcomes chosen per call; a lock that is refused or a position that fails is an outcome.
- BudgetFile.CheckpointFile.ReadLatest: reads that fail without changing the file are left out.
- The task snapshot store in `crates/task/file` repeats the budget file store and is not modelled.
- BudgetLease.ExecutionLease.Acquire: the store's load and compare-and-exchange, and their failures, are outside the method; BudgetProtocol models them as writes that land or do not.
- ModelScheduler.ModelRuntime.EndFinish: whether the owned budget run ends is a parameter; failures are counted, their texts are not kept. Taking a turn's failures and acknowledging them to the runtime is one step; a stop that completes between the two counts them again.
- ModelScheduler.ModelRuntime.ShutDown: the count of failures a stopping runtime reports is not computed.
- ModelScheduler.ModelRuntime.DispatchWaiters: telling a waiter's budget to expire is left to the ledger.
- BudgetChain.RecoveryRetry: `inspect_budget_recovery`, a read-only preview of the same decision, is not modelled.
- ContextProjection.ProjectLog: the bound on the serialized size of the events is left out.
- ContextBuilder.ValidateInput: the bound on the serialized size of the input is left out; the shape of an output constraint is one flag (`constraintOk`); the token counter is a function parameter.
- ContextBuilder.Build: the report's copies of source events per turn are not rebuilt; the retained flags and the counted totals are.
- SessionCoordinator.RunSafe: the persistence layer follows its contract; a log changed by another writer is not modelled.
- SseDecoder.ChunkingIrrelevant: the decoder's state after an error is not compared, because the decoder is dropped then; cancellation between events is not modelled.
- TaskSnapshot.AssessLog: unresolved operations are a set; sorting them by position is not modelled.
- TaskSnapshot.EvidenceIff: which structural check of a snapshot fails first is reduced to one error.
- `preflight` and `into_message` of the model types, provider HTTP code, tool schema compilation and the agent loop are not modelled.
