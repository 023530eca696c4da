# Verified core of the VPN shop

The shop sells VPN access: a payment buys a subscription period, a subscription is entitled to one
VPN configuration, and durable tasks create and remove the client on a node or on a legacy panel.
Workers lease these tasks and run each as prepare transaction, remote call, finalize transaction,
so crashes, expired leases, late answers, forced revokes, refunds and a background reconciler
interleave freely. This project models those transactions and proves what every interleaving keeps.

`dafny verify dfyconfig.toml` checks everything.

## How it is organised

- **Entities** (`VpnEntity`, `NodeTaskEntity`, `PanelTaskEntity`, `PaymentEntity`, `SubscriptionEntity`):
  rows, their transitions as functions, and mutable classes whose methods equal those functions.
- **Provision and revoke protocol**: `Transactions` (each use-case transaction on the rows of one
  configuration), `ControlPlane` (all of them, in any order), `Lifecycle`, `ControlPlaneSafety`,
  `ConfigSteps`, `NodeTaskSteps`, `PanelTaskSteps`, `StatusSteps` (exactly when a step changes what),
  `Convergence`, `Recoverability`, `Capacity`, `TaskProgress`, `PanelProgress` (invariants and theorems over
  runs), `ControlPlaneWitnesses` (runs that break a promise), `PanelCompensation` (one panel configuration
  with the remote panel and its workers), `ControlPlaneStore` (the use cases as methods, each proved to
  commit exactly its step).
- **Node agents**: `Journal` (the idempotency journal and its runs), `AgentAgreement` (control plane
  and journals composed over an unreliable network), `NodeClients` (these together with the clients on
  the nodes), `AgreementWitnesses`, `JournalRetirement`.
- **Payments**: `SubscriptionAccess`, `Payments`, `PaymentSafety`, `PaymentTheorems`, `PaymentSteps`, `InvoiceSteps`,
  `EventSteps` (exactly when a step changes what), `PaymentWitnesses`, `PaymentStore`; `Shop` and
  `ShopWitnesses` compose them with the control plane.
- **Selection and reconciliation**: `NodeSelection`, `Reconciler`.

## Assumptions

- One `async with uow_factory()` block is one atomic step, serialised by its row locks. A step takes
  any clock reading, except that `PanelCompensation` needs a clock that does not run backwards, and
  `Shop.EndedActivationExactlyWhen` an activation that reads no earlier clock than the payment steps before it.
- Tokens drawn by `uuid4` are fresh where a theorem says so. "Latest" rows are in creation order;
  row ids are positions.
- No provider uses an invoice's payment id as an event key, so transaction keys of invoices and of
  different events are distinct.
- The rows that reference a configuration are grouped with it; a task row stands for its idempotency
  key and its payload, which never changes, so a copy of a request also stands for the request of
  another attempt; an endpoint never changes its node.
- In `PanelCompensation`, the effect of a provision call lands before its attempt's lease expires, and
  a provision call that raises had no effect. Revoke calls may land at any time, even when they raise.
- In `NodeClients`, an operation that reports an accepted status has taken effect before; otherwise a
  started operation may take effect at any later time, repeatedly, or never.
- Settings are positive, as the application enforces at start-up. Currencies are canonical. Instants
  are whole seconds.
- In `ControlPlane`, entitlements and fleet may change arbitrarily between steps;
  `PaymentTheorems.PaymentsDriveEntitlements` ties the former to the payment model.
- Uniqueness indexes that the invariants make unreachable (one active subscription per user, one
  creation claim per order, one period per order) are proved, not enforced, in the model.

Promises that the code does not keep are stated with a condition on the state before the step, as an
if-and-only-if over every run, and with a run from the empty store that breaks them:

- removal of a client whose provisioning succeeded late on the node path:
  `TaskProgress.CleanupPendingExactlyWhen`, `ControlPlaneWitnesses.LateSuccessWithoutCleanup`, and with the
  client itself `NodeClients.LeftBehindExactlyWhen`, `AgreementWitnesses.ClientLeftBehind`;
- a completed operation runs once: `AgentAgreement.RunsAgainExactlyWhen`, `AgreementWitnesses.DuplicateAfterRetirement`;
- funding that matches refunds: `PaymentTheorems.AccountingExactlyWhen`, `PaymentWitnesses.RefundBeforePayment`;
- a future funded period is never lost: `PaymentTheorems.FundingStrandedExactlyWhen`,
  `PaymentWitnesses.GapLosesFuturePeriod`, `PaymentWitnesses.TariffSwitchLosesFundedTime`;
- activation implies an active subscription: `ControlPlaneSafety.ActivatesExactlyWhen`,
  `ControlPlaneSafety.ActivationServesActiveExactlyWhen`, `Shop.EndedActivationExactlyWhen`,
  `ShopWitnesses.ActivationForEndedSubscription`;
- an attempt bound for panel tasks: `PanelProgress.AboveLimitExactlyWhen`, `PanelProgress.RevokeOverLimitExactlyWhen`,
  `ControlPlaneWitnesses.PanelAttemptsUnbounded`, `ControlPlaneWitnesses.RevokeAttemptsUnbounded`.

The panel model follows the use case and the repository protocol; the row mapper passes a field that
the entity does not declare (src/shop_bot/infrastructure/persistence/sqlalchemy/mappers.py:161).

## Model

| member | source | states |
|---|---|---|
| `ControlPlaneSafety.StatusFollowsTasks` | src/shop_bot/application/use_cases/dispatch_node_task.py:331-504 | In every run a node-backed configuration has exactly one provision task (generation 1) and one revoke task per later generation; its status is the function of its current task (unfinished, succeeded, failed); every older revoke task is failed; it wants access iff its generation is 1 |
| `ControlPlaneSafety.LedgersExact` | src/shop_bot/application/use_cases/dispatch_node_task.py:74-97 | In every run attempts stay within the maximum, attempt rows are exactly 1..attempts, a row is open iff it is the current attempt of an in-progress task, lease fields are set iff in progress, and a succeeded task holds an accepted response |
| `ControlPlaneSafety.TrailExact` | src/shop_bot/application/use_cases/dispatch_panel_provision_task.py:142-179 | In every run, on both paths, the audit trail is created, at most one activation, at most one revocation, in that order, and exactly what the status implies |
| `ControlPlaneSafety.ActivationsAreFunded` | src/shop_bot/application/use_cases/dispatch_node_task.py:358-385 | A step activates a configuration iff it appends an activation row, and then its clock reading lies in a funded period of the subscription |
| `ControlPlaneSafety.ActivatesExactlyWhen` | src/shop_bot/application/use_cases/dispatch_node_task.py:368-385 | A step activates a configuration iff, on the store before it, it finalizes under a live lease an accepted provisioning of the current generation while a funded period is current |
| `ControlPlaneSafety.ActivationServesActiveExactlyWhen` | src/shop_bot/application/use_cases/dispatch_node_task.py:358-374 | An activation leaves its configuration with an active subscription iff that was active before the step |
| `ConfigSteps.ReopensExactlyWhen` | src/shop_bot/application/use_cases/revoke_vpn.py:99-191 | In every run a step raises the generation of a configuration iff it is a revoke request that its status accepts, and not an expiry while access is current, or reports a provisioning as done while no paid period is current; then it is REVOKING by one generation with its revoke task, or the panel's flagged task, queued |
| `ConfigSteps.ExpiryDroppedWhileCurrent` | src/shop_bot/application/use_cases/revoke_vpn.py:99-108 | An expiry job that comes while the subscription is active with a paid period covering now changes nothing at all |
| `ConfigSteps.CreatedExactlyWhen` | src/shop_bot/application/use_cases/provision_vpn.py:98-213 | In every run a step creates a configuration iff it asks for a subscription with access and no live configuration, and its choice is still an enabled endpoint of a node with room, or there is no candidate and an enabled panel endpoint; the new rows are written out |
| `ConfigSteps.StepOnConfig` | src/shop_bot/application/use_cases/revoke_vpn.py:85-191 | A configuration changes only by a worker's transaction on it or by a granted revoke request for it |
| `NodeTaskSteps.FailsExactlyWhen` | src/shop_bot/application/use_cases/dispatch_node_task.py:462-481 | In every run a node task fails iff its last allowed attempt ends without an accepted answer: no credential, a transport error or another answer under a live lease, or a lease that ran out |
| `NodeTaskSteps.RetriesExactlyWhen` | src/shop_bot/domain/entities/node.py:186-196 | With an attempt left, the same ends, and only they, make it pending again, due after the backoff, later than now and within 300 seconds, with nothing but the task changed |
| `NodeTaskSteps.SucceedsExactlyWhen` | src/shop_bot/application/use_cases/dispatch_node_task.py:331-346 | In every run a node task succeeds iff the holder of its live lease reports one of the two success words of its operation; it stores that answer, its reference and the time |
| `NodeTaskSteps.LeasedExactlyWhen` | src/shop_bot/application/use_cases/dispatch_node_task.py:114-184 | In every run a lease is granted iff a due pending task is prepared with a credential on a node that is up, recently checked and, for provisioning, enabled; it is one more attempt for the lease time |
| `NodeTaskSteps.DeferredExactlyWhen` | src/shop_bot/application/use_cases/dispatch_node_task.py:186-202 | A due task is deferred by the deferral time, at no attempt, iff its node is not fit |
| `StatusSteps.ActivatedExactlyWhen` | src/shop_bot/application/use_cases/dispatch_node_task.py:358-385 | In every run, on both paths, a configuration becomes ACTIVE iff its provisioning is reported as done under a live lease while a paid period covers now; reference and trail are written out |
| `StatusSteps.RevokedExactlyWhen` | src/shop_bot/application/use_cases/dispatch_node_task.py:405-432 | In every run, on both paths, a configuration becomes REVOKED iff its current revoke is reported as done under a live lease, or the panel has removed what a cancelled provisioning left |
| `PanelTaskSteps.ProvisionTaskExactlyWhen` | src/shop_bot/application/use_cases/dispatch_panel_provision_task.py:96-282 | In every run the status and the compensation flag of a panel provision task change iff one of its written-out events happens: leased, success that stands, success to undo, failed call, undone, undo owed |
| `PanelTaskSteps.ProvisionTaskTimes` | src/shop_bot/application/use_cases/dispatch_panel_provision_task.py:181-208 | Its leases run for the lease time; a retry after a failed call is due after the backoff, any other at once, and the configuration stays as it is |
| `PanelTaskSteps.RevokeTaskExactlyWhen` | src/shop_bot/application/use_cases/dispatch_panel_revoke_task.py:55-162 | In every run a panel revoke task is leased, done, retried, failed or requeued iff due, reported by its live holder, failed with or without an attempt left, or out of lease |
| `PanelTaskSteps.PanelRevokeCreatedExactlyWhen` | src/shop_bot/application/use_cases/revoke_vpn.py:137-175 | A panel revoke task appears iff a granted request opens its generation, or finds a REVOKING configuration without one |
| `ControlPlaneSafety.NoActivationAfterRevoke` | src/shop_bot/domain/entities/vpn.py:47-93 | Once a revoke is requested the intent stays, the generation never falls, and no later step activates the configuration |
| `ControlPlaneSafety.OneLiveConfiguration` | src/shop_bot/application/use_cases/provision_vpn.py:98-147 | In every run two non-terminal configurations of one subscription are the same configuration |
| `ControlPlaneSafety.StepKeepsInv` | src/shop_bot/application/use_cases/revoke_vpn.py:110-191 | Every transaction keeps the whole inductive invariant: per-configuration status, ledger and trail, existing subscriptions, only the newest configuration live |
| `ControlPlaneSafety.RunInv` | src/shop_bot/application/use_cases/provision_vpn.py:347-381 | The invariant holds after every sequence of transactions, in any order and at any clock readings |
| `ControlPlaneSafety.ProvisionKeepsConfigs` | src/shop_bot/application/use_cases/provision_vpn.py:229-338 | A repeated provisioning request changes no existing configuration: the repair branches have nothing to repair |
| `Lifecycle.WorkKeepsInv` | src/shop_bot/application/use_cases/dispatch_node_task.py:260-346 | Every worker transaction, with any token, attempt number and answer, keeps the configuration invariant |
| `Lifecycle.NodeFinalizeKeepsInv` | src/shop_bot/application/use_cases/dispatch_node_task.py:260-346 | Finalization, current or stale, funded or not, keeps status, task set, ledgers and trail consistent |
| `Lifecycle.ExpiredSuccessKeepsInv` | src/shop_bot/application/use_cases/dispatch_node_task.py:387-403 | A success after access ended moves the configuration to generation 2 together with its revoke task |
| `Lifecycle.NodeRecoverKeepsInv` | src/shop_bot/application/use_cases/dispatch_node_task.py:69-97 | Lease recovery keeps the invariant and closes the open attempt row |
| `Lifecycle.PanelProvisionKeepsInv` | src/shop_bot/application/use_cases/dispatch_panel_provision_task.py:96-208 | Panel prepare, finalize, compensation failure and recovery keep the panel invariant |
| `Lifecycle.PanelCompensatedKeepsInv` | src/shop_bot/application/use_cases/dispatch_panel_provision_task.py:218-268 | Recording a compensation keeps the panel invariant, including the cancelled provisioning that completes its revoke |
| `Lifecycle.PanelRevocationKeepsInv` | src/shop_bot/application/use_cases/dispatch_panel_revoke_task.py:55-162 | Panel revoke transactions keep the panel invariant |
| `Lifecycle.RevokePlanKeepsInv` | src/shop_bot/application/use_cases/revoke_vpn.py:84-191 | A revoke request keeps the invariant on both paths, and opens the next generation with its task |
| `Lifecycle.ReuseIsNoOp` | src/shop_bot/application/use_cases/provision_vpn.py:229-338 | For a provisioning configuration of a reachable store the repeated request changes nothing |
| `Convergence.AnomalyListIsExact` | src/shop_bot/infrastructure/persistence/repositories/maintenance.py:119-346 | With no pending or in-progress task, the anomaly list is empty iff every configuration without current access is terminal and every active subscription has exactly one live configuration, ACTIVE or REVOKE_FAILED |
| `Convergence.NodeRepairsNeverListed` | src/shop_bot/infrastructure/persistence/repositories/maintenance.py:194-337 | The provision repair is never listed in a reachable store, nor the revoke repair on the node path |
| `Convergence.RevokeJobClearsAnomaly` | src/shop_bot/application/use_cases/sync_subscriptions.py:119-140 | The job enqueued for a revoke, cleanup or revoke-repair anomaly leaves the configuration REVOKING with an open task and off the list |
| `Convergence.ProvisionJobClearsAnomaly` | src/shop_bot/application/use_cases/sync_subscriptions.py:141-146 | The job enqueued for a provisioning anomaly, where there is a place, leaves a new configuration with an open task and the subscription off the list |
| `Convergence.ExpiryClearsAnomaly` | src/shop_bot/application/use_cases/sync_subscriptions.py:95-117 | Expiry takes exactly its own subscription off the list |
| `Recoverability.ConvergenceIsAlwaysReachable` | src/shop_bot/application/use_cases/sync_subscriptions.py:43-147 | From every reachable store and every instant t, steps the code could take (clock from t on never running backwards, fresh lease tokens, the store's own candidates and health rows, jobs only for listed anomalies) reach a quiescent store with an empty anomaly list, keeping every period and ending no subscription that is funded then |
| `Capacity.StepReservations` | src/shop_bot/infrastructure/persistence/repositories/servers.py:120-168 | Only the locked and revalidated creation raises a reservation count, by one, and only below the limit it read |
| `Capacity.ReservedCounts` | src/shop_bot/infrastructure/persistence/repositories/servers.py:119-165 | A node's reservations are its configurations that are not terminal, each counted once |
| `Capacity.CapacityNeverExceeded` | src/shop_bot/application/use_cases/provision_vpn.py:186-213 | Whatever stale snapshots provisioners act on, reserving configurations of a node never exceed the largest limit it was given |
| `TaskProgress.MovesAreBounded` | src/shop_bot/domain/entities/node.py:103-204 | Over a whole run a task changes status or attempt at most twice per allowed attempt; what is left is its fuel |
| `PanelProgress.ProvisionAttemptsBounded` | src/shop_bot/domain/entities/panel_task.py:125-183 | In every run an attempt of a panel provision task that is not a compensation is within the maximum, and so is the next one |
| `PanelProgress.AboveLimitExactlyWhen` | src/shop_bot/domain/entities/panel_task.py:143-166 | A provision lease above the maximum is granted iff the prepared task is due, pending, flagged for compensation and exhausted |
| `PanelProgress.RevokeOverLimitExactlyWhen` | src/shop_bot/domain/entities/panel_task.py:294-301 | A panel revoke task comes to wait for an attempt above the maximum iff an expired lease of an exhausted task is recovered |
| `PanelProgress.RevokeAboveLimitExactlyWhen` | src/shop_bot/domain/entities/panel_task.py:225-237 | A revoke lease above the maximum is granted iff such a task is due and prepared |
| `PanelProgress.RevokeAttemptsBounded` | src/shop_bot/domain/entities/panel_task.py:276-301 | In a run that recovers no lease of an exhausted revoke task, its next attempt is always within the maximum |
| `ControlPlaneWitnesses.PanelAttemptsUnbounded` | src/shop_bot/domain/entities/panel_task.py:143-151 | For every number there is a run whose panel provision task starts that many attempts, whatever its maximum |
| `ControlPlaneWitnesses.RevokeAttemptsUnbounded` | src/shop_bot/domain/entities/panel_task.py:294-301 | The same for a panel revoke task |
| `TaskProgress.AttemptsCloseOnce` | src/shop_bot/infrastructure/persistence/repositories/nodes.py:507-576 | A closed attempt row keeps its result for good, and a late answer for it changes nothing, whatever its token |
| `TaskProgress.LeasesAreGuarded` | src/shop_bot/application/use_cases/dispatch_node_task.py:114-184 | In every run a task gets a lease only from a prepare step on a due task, with a credential, on a node whose recent health allows the operation; it is one more attempt under the drawn token |
| `TaskProgress.CleanupPendingExactlyWhen` | src/shop_bot/application/use_cases/dispatch_node_task.py:392-403 | In every run a provision success that does not activate leaves a revoke task of the current generation; it is open iff the configuration was PROVISIONING or REVOKING before the step |
| `ControlPlaneWitnesses.LateSuccessWithoutCleanup` | src/shop_bot/infrastructure/persistence/repositories/nodes.py:301-321 | A run from the empty store: the revoke finishes first, and the late provision success leaves a REVOKED configuration and no open task |
| `PanelCompensation.NoOrphanClient` | src/shop_bot/application/use_cases/dispatch_panel_provision_task.py:34-60 | Through crashes, recoveries and forced revokes, a finished provision task with a FAILED or REVOKED configuration has no client on the panel, and a pending task without the compensation flag has none either |
| `PanelCompensation.CompensationRunInv` | src/shop_bot/application/use_cases/dispatch_panel_provision_task.py:125-306 | The invariant tying task, lease holder, outstanding calls and the remote client holds after every run |
| `PanelCompensation.NextKeepsInv` | src/shop_bot/domain/entities/panel_task.py:107-183 | Every worker, remote and recovery step keeps that invariant |
| `Journal.NodeOperationJournal.TryClaim` | src/shop_bot/infrastructure/nodes/idempotency.py:141-228 | Claims a key: owner on a new, retryable or expired row, replay, conflict or busy otherwise; the whole new table |
| `Journal.NodeOperationJournal.Complete` | src/shop_bot/infrastructure/nodes/idempotency.py:230-248 | Completes exactly when the token owns the in-progress row |
| `Journal.NodeOperationJournal.MarkRetryable` | src/shop_bot/infrastructure/nodes/idempotency.py:250-267 | Releases exactly when the token owns the in-progress row |
| `Journal.NodeOperationJournal.Retire` | src/shop_bot/infrastructure/nodes/idempotency.py:269-304 | Deletes a settled row, reports an absent one, refuses an in-progress one |
| `Journal.EpochKeepsRow` | src/shop_bot/infrastructure/nodes/idempotency.py:185-197 | Between insertion and retirement a row keeps its request identity and, once completed, its response |
| `Journal.OneCompletion` | src/shop_bot/infrastructure/nodes/idempotency.py:230-248 | At most one completion takes effect in an epoch |
| `Journal.LaterClaimsReplay` | src/shop_bot/infrastructure/nodes/idempotency.py:194-197 | After a completion every later claim of the epoch replays that response iff its identity matches, and conflicts otherwise |
| `Journal.SupersededOwnerIsFenced` | src/shop_bot/infrastructure/nodes/idempotency.py:206-220 | A superseded owner never owns the key again, across epochs, so it can neither complete nor mark retryable |
| `Journal.LeasesDoNotOverlap` | src/shop_bot/infrastructure/nodes/idempotency.py:199-204 | Without a release in between, a second owner gets the key only after the first lease ran out |
| `Journal.ClaimAnsweredExactlyWhen` | src/shop_bot/infrastructure/nodes/idempotency.py:141-228 | Told by the earlier calls alone: a claim conflicts iff its identity is not the inserting claim's; else it replays iff the key was completed, is busy iff a holder's lease has not run out, and obtains the key in every other case |
| `Journal.OwnsExactlyWhen` | src/shop_bot/infrastructure/nodes/idempotency.py:230-267 | A token can complete or release a key iff its claim obtained it and nobody completed, released or obtained it since |
| `Journal.OnlySettledRowsRetire` | src/shop_bot/infrastructure/nodes/idempotency.py:283-292 | A key leaves the table iff the call retires it and its row is not in progress |
| `AgentAgreement.NodeAgent.Receive` | src/shop_bot/apps/node_agent/routes.py:156-187 | A request becomes an operation, a replayed answer or nothing, as the journal decides |
| `AgentAgreement.NodeAgent.Finish` | src/shop_bot/apps/node_agent/routes.py:188-235 | Cleanup before a reclaimed provision, then completion or a retryable mark; a success is answered only by the owner that completed the row |
| `AgentAgreement.TasksAgreeWithJournal` | src/shop_bot/application/use_cases/dispatch_node_task.py:260-346 | Control plane and agents composed over a losing, delaying, duplicating network: a succeeded task whose retirement was not requested stores exactly its journal response |
| `AgentAgreement.SuccessIsJournaled` | src/shop_bot/apps/node_agent/routes.py:149-235 | At the very step that makes a task SUCCEEDED the journal holds the stored, accepted response, unconditionally |
| `AgentAgreement.RepeatedRequestsReplay` | src/shop_bot/apps/node_agent/routes.py:182-183 | Until retirement every repeated request of a succeeded task is answered with the stored response |
| `AgentAgreement.AgreementRunInv` | src/shop_bot/application/use_cases/retire_node_journal_records.py:82-103 | Retirements are requested only for finished tasks, which no step reopens; every accepted answer in flight is journaled |
| `AgentAgreement.OperationLeavesExactly` | src/shop_bot/apps/node_agent/routes.py:188-235 | In every run a row becomes completed iff its owner ends with a success word after a clean cleanup, retryable iff its owner ends otherwise, and an answer is sent iff an operation delivers it, a success only as owner, or a request finds it completed |
| `AgentAgreement.RunsAgainExactlyWhen` | src/shop_bot/infrastructure/nodes/idempotency.py:269-304 | In every run a completed operation starts again iff its retirement is delivered and a copy of its request after that; its task is finished by then |
| `AgreementWitnesses.DuplicateAfterRetirement` | src/shop_bot/apps/node_agent/routes.py:82-96 | A run: the operation completes, the task succeeds, the row is retired, and a late copy of the request starts the operation again |
| `NodeClients.LeftBehindExactlyWhen` | src/shop_bot/apps/node_agent/routes.py:188-205 | In every run of control plane, network, agents and clients, a REVOKED node configuration had its client deleted, and one is left behind iff a provisioning call took effect after the last deletion |
| `NodeClients.ServedExactlyWhen` | src/shop_bot/apps/node_agent/routes.py:189-201 | An ACTIVE node configuration had its client created; it is missing iff the cleanup of a reclaimed provisioning took effect after the last creation, and nothing else ever deletes it |
| `NodeClients.SiteRunInv` | src/shop_bot/apps/node_agent/routes.py:205-226 | Every operation was asked for by an existing task, and whatever is journaled, answered as accepted or stored as succeeded has taken effect |
| `AgreementWitnesses.ClientLeftBehind` | src/shop_bot/infrastructure/persistence/repositories/nodes.py:301-321 | A run that ends with a REVOKED configuration, every task closed, no operation running, and the client present |
| `JournalRetirement.RetireRecords` | src/shop_bot/application/use_cases/retire_node_journal_records.py:36-80 | The loop applies each confirmed candidate's update in turn; each counter counts its own outcome, and marked counts the rows marked |
| `JournalRetirement.MarkedExactlyWhen` | src/shop_bot/infrastructure/persistence/repositories/nodes.py:416-434 | A row is marked iff its task has ended, it was not marked, and its agent was reached and confirmed |
| `JournalRetirement.MarkedByExact` | src/shop_bot/infrastructure/persistence/repositories/nodes.py:416-434 | Exactly the finished, unmarked rows whose agent confirmed get a mark, and nothing else changes |
| `JournalRetirement.MarkHoldsItsTime` | src/shop_bot/application/use_cases/retire_node_journal_records.py:71-78 | A marked row holds its own candidate's time |
| `NodeSelection.SelectionIsExact` | src/shop_bot/domain/services/node_selection.py:72-90 | Exactly max(1, weight) of all tickets select each pooled node, and every ticket selects one |
| `NodeSelection.RepresentativesExact` | src/shop_bot/domain/services/node_selection.py:72-82 | One candidate per pooled node, the one with the smallest endpoint; every eligible online node, or every eligible degraded one if no online one is; empty iff nothing is eligible |
| `NodeSelection.SelectNode` | src/shop_bot/domain/services/node_selection.py:72-90 | The loops compute the selection; the result is fit, written out, and represents its node; none iff no candidate is fit |
| `NodeSelection.PickByTicket` | src/shop_bot/domain/services/node_selection.py:83-90 | The cumulative loop returns the node whose weight interval holds the ticket; the final fallback return is unreachable |
| `NodeSelection.BuildPool` | src/shop_bot/domain/services/node_selection.py:73-77 | The pool loop yields the online pool, or the degraded one if that is empty |
| `NodeSelection.BuildNodes` | src/shop_bot/domain/services/node_selection.py:79-82 | The setdefault loop keeps the first candidate of every node |
| `ControlPlaneStore.Store.PrepareNode` | src/shop_bot/application/use_cases/dispatch_node_task.py:114-184 | Commits exactly the prepare step; a lease is granted only with the fresh token |
| `ControlPlaneStore.Store.FailOrRetry` | src/shop_bot/application/use_cases/dispatch_node_task.py:462-481 | Closes the attempt, retries or fails the task, and fails the configuration it speaks for |
| `ControlPlaneStore.Store.MarkConfigurationFailure` | src/shop_bot/application/use_cases/dispatch_node_task.py:483-504 | Fails the configuration only for the current generation, intent and status |
| `ControlPlaneStore.Store.CompleteProvision` | src/shop_bot/application/use_cases/dispatch_node_task.py:348-403 | Activates, or cancels for revoke, and ensures the follow-up revoke row |
| `ControlPlaneStore.Store.CompleteRevoke` | src/shop_bot/application/use_cases/dispatch_node_task.py:405-432 | Revokes only for the current generation |
| `ControlPlaneStore.Store.FinalizeNode` | src/shop_bot/application/use_cases/dispatch_node_task.py:260-346 | Commits exactly the finalize step |
| `ControlPlaneStore.Store.RecoverNode` | src/shop_bot/application/use_cases/dispatch_node_task.py:76-97 | Commits exactly one recovery; recovered iff the lease was stale, failed iff moreover no attempt was left |
| `ControlPlaneStore.Store.RecoverStale` | src/shop_bot/application/use_cases/dispatch_node_task.py:69-112 | Commits one recovery per listed task; afterwards exactly the unlisted stale leases are stale; the exhausted tasks are counted as failed and exactly the others requeued |
| `ControlPlaneStore.Store.PreparePanel` | src/shop_bot/application/use_cases/dispatch_panel_provision_task.py:96-123 | Commits exactly the panel prepare step; a lease is granted iff the task is due |
| `ControlPlaneStore.Store.FinalizePanelSuccess` | src/shop_bot/application/use_cases/dispatch_panel_provision_task.py:125-179 | Commits exactly the success step and returns its outcome |
| `ControlPlaneStore.Store.FinalizePanelFailure` | src/shop_bot/application/use_cases/dispatch_panel_provision_task.py:181-208 | Commits exactly the failure step |
| `ControlPlaneStore.Store.RecordCompensation` | src/shop_bot/application/use_cases/dispatch_panel_provision_task.py:218-268 | Commits exactly the compensation step |
| `ControlPlaneStore.Store.RecordCompensationFailure` | src/shop_bot/application/use_cases/dispatch_panel_provision_task.py:270-282 | Commits exactly the failed-compensation step |
| `ControlPlaneStore.Store.RecoverPanel` | src/shop_bot/application/use_cases/dispatch_panel_provision_task.py:74-94 | Commits exactly one panel recovery |
| `ControlPlaneStore.Store.RecoverStalePanels` | src/shop_bot/application/use_cases/dispatch_panel_provision_task.py:74-94 | Commits one recovery per listed panel task; afterwards exactly the unlisted stale leases are stale, and exactly the listed stale ones are requeued |
| `ControlPlaneStore.Store.PreparePanelRevoke` | src/shop_bot/application/use_cases/dispatch_panel_revoke_task.py:74-100 | Commits exactly the revoke prepare step; a lease is granted iff the task is due |
| `ControlPlaneStore.Store.FinalizePanelRevoke` | src/shop_bot/application/use_cases/dispatch_panel_revoke_task.py:102-132 | Commits exactly the revoke success step |
| `ControlPlaneStore.Store.FailPanelRevoke` | src/shop_bot/application/use_cases/dispatch_panel_revoke_task.py:134-162 | Commits exactly the revoke failure step |
| `ControlPlaneStore.Store.RecoverPanelRevoke` | src/shop_bot/application/use_cases/dispatch_panel_revoke_task.py:55-72 | Commits exactly one revoke recovery |
| `ControlPlaneStore.Store.RequestRevoke` | src/shop_bot/application/use_cases/revoke_vpn.py:84-191 | Commits exactly the revoke plan, with its early returns |
| `ControlPlaneStore.Store.ChoosePlace` | src/shop_bot/application/use_cases/provision_vpn.py:186-213 | Chooses on the snapshot and confirms on the row read under the lock |
| `ControlPlaneStore.Store.RequestProvision` | src/shop_bot/application/use_cases/provision_vpn.py:98-184 | Commits exactly the provision plan |
| `VpnEntity.VpnConfiguration.Activate` | src/shop_bot/domain/entities/vpn.py:47-54 | Accepted only from PROVISIONING with active intent; the whole new row |
| `VpnEntity.VpnConfiguration.BeginRevoke` | src/shop_bot/domain/entities/vpn.py:56-61 | Accepted only from ACTIVE; flips the intent and opens a generation |
| `VpnEntity.VpnConfiguration.RetryRevoke` | src/shop_bot/domain/entities/vpn.py:63-69 | Accepted only from REVOKE_FAILED; opens a generation |
| `VpnEntity.VpnConfiguration.CancelProvisioningForRevoke` | src/shop_bot/domain/entities/vpn.py:71-77 | Accepted only from PROVISIONING; opens a generation |
| `VpnEntity.VpnConfiguration.RequestCleanupFromFailed` | src/shop_bot/domain/entities/vpn.py:79-85 | Accepted only from FAILED; opens a generation |
| `VpnEntity.VpnConfiguration.Revoke` | src/shop_bot/domain/entities/vpn.py:87-93 | Accepted only from REVOKING with revoked intent |
| `VpnEntity.VpnConfiguration.FailProvisioning` | src/shop_bot/domain/entities/vpn.py:101-104 | Accepted only from PROVISIONING |
| `VpnEntity.VpnConfiguration.FailRevoke` | src/shop_bot/domain/entities/vpn.py:106-110 | Accepted only from REVOKING |
| `NodeTaskEntity.NodeTask.StartAttempt` | src/shop_bot/domain/entities/node.py:106-124 | Accepted only for a due pending task and a lease in the future; counts the attempt |
| `NodeTaskEntity.NodeTask.DeferWithoutAttempt` | src/shop_bot/domain/entities/node.py:152-166 | Moves the due time without counting an attempt |
| `NodeTaskEntity.NodeTask.Complete` | src/shop_bot/domain/entities/node.py:175-184 | Accepted only in progress; stores the response |
| `NodeTaskEntity.NodeTask.Retry` | src/shop_bot/domain/entities/node.py:186-196 | Fails at the last attempt, otherwise pending with backoff |
| `NodeTaskEntity.NodeTask.RecoverExpiredLease` | src/shop_bot/domain/entities/node.py:142-145 | Accepted only for an expired lease |
| `NodeTaskEntity.BackoffDoublesToCap` | src/shop_bot/domain/entities/node.py:186-196 | Delays start at the base, double with each attempt and are capped at 300 seconds |
| `NodeTaskEntity.RetryIsDue` | src/shop_bot/domain/entities/node.py:186-196 | A retried task is failed at the last attempt, else due within 300 seconds and not before |
| `PanelTaskEntity.PanelTask.StartAttempt` | src/shop_bot/domain/entities/panel_task.py:65-77 | Accepted only for a due pending task |
| `PanelTaskEntity.PanelTask.Complete` | src/shop_bot/domain/entities/panel_task.py:107-115 | Accepted only in progress; clears the compensation flag |
| `PanelTaskEntity.PanelTask.Retry` | src/shop_bot/domain/entities/panel_task.py:125-134 | Fails at the last attempt, otherwise pending with backoff |
| `PanelTaskEntity.PanelTask.RecoverProvisionLease` | src/shop_bot/domain/entities/panel_task.py:143-151 | An expired provision lease queues a compensation |
| `PanelTaskEntity.PanelTask.RecoverRevokeLease` | src/shop_bot/domain/entities/panel_task.py:294-301 | An expired revoke lease is requeued |
| `PanelTaskEntity.PanelTask.MarkCompensationRequired` | src/shop_bot/domain/entities/panel_task.py:153-158 | Accepted only in progress |
| `PanelTaskEntity.PanelTask.RequireCompensation` | src/shop_bot/domain/entities/panel_task.py:160-166 | Pending again, with the flag set and the lease cleared |
| `PanelTaskEntity.PanelTask.CompensationSucceeded` | src/shop_bot/domain/entities/panel_task.py:168-183 | Cancelled, failed or pending, by local state and attempts |
| `PaymentTheorems.OneLiveAttempt` | src/shop_bot/application/use_cases/create_payment.py:119-153 | At any moment only the newest attempt of an order may hold the creation claim or an invoice |
| `PaymentTheorems.OneInvoiceEver` | src/shop_bot/application/use_cases/create_payment.py:155-205 | Over any run at most one attempt of an order ever gets a provider payment id, and keeps it |
| `PaymentTheorems.ExactlyOnceEntitlement` | src/shop_bot/application/use_cases/process_payment.py:218-272 | An order is PAID iff exactly one period carries it; otherwise none does |
| `PaymentTheorems.PaidForever` | src/shop_bot/domain/entities/payment.py:73-114 | PAID is never left and no order changes its terms |
| `PaymentTheorems.PaidExactlyWhen` | src/shop_bot/application/use_cases/process_payment.py:170-257 | A step makes an order PAID iff the books before it meet the settlement guard: a manual settlement, or an unhandled paid event that passes every check, of an open order whose activation can be stored |
| `PaymentTheorems.PaidOnlyByItsInvoice` | src/shop_bot/domain/services/payment_settlement.py:7-39 | An order becomes PAID only by its own manual settlement, or by an event with its amount, currency, provider and the provider id of its newest attempt |
| `PaymentSteps.AccessEndsExactlyWhen` | src/shop_bot/application/use_cases/process_payment.py:124-135 | In every run a step ends a subscription iff it is active and the step is an expiry that finds no paid period covering now, a refund that takes its last funding, or its owner's payment for another tariff; it ends at that clock reading |
| `PaymentSteps.LapsesExactlyWhen` | src/shop_bot/application/use_cases/sync_subscriptions.py:95-117 | The expiry job ends a subscription iff it is active, began by now, and no paid period covers now, and otherwise changes nothing |
| `PaymentSteps.RefundAcceptedExactlyWhen` | src/shop_bot/application/use_cases/process_payment.py:80-138 | In every run an open refund is accepted iff it is tied to an order, positive, at most the order's amount, in its currency, and the end it may cause can be stored; it then counts once, by its amount, for that order alone; a bad one is rejected and changes nothing else |
| `EventSteps.PaymentReportExactlyWhen` | src/shop_bot/application/use_cases/process_payment.py:170-273 | In every run an open payment report is rejected, ignored, processed or left open by written-out conditions on event, attempt, order and the subscription to replace |
| `EventSteps.FailureReportExactlyWhen` | src/shop_bot/application/use_cases/process_payment.py:292-317 | Any other open report is processed iff it is a failure of its order that does not contradict its attempt, with exactly that status passed on, and ignored otherwise |
| `EventSteps.RecordedExactlyWhen` | src/shop_bot/application/use_cases/ingest_webhook.py:22-84 | An event is recorded iff its key is new, and is tied to the attempt of its provider with its payment id iff there is one |
| `EventSteps.PeriodOfPaidOrder` | src/shop_bot/application/use_cases/activate_subscription.py:24-46 | The step that pays an order appends its period, to the buyer's active subscription of that tariff or a new one, beginning now or exactly where the last period ends |
| `InvoiceSteps.ClaimedExactlyWhen` | src/shop_bot/application/use_cases/create_payment.py:79-153 | In every run a step takes a claim iff it asks for the order by key and terms and there is no attempt, an abandoned claim or a failed one without invoice; it creates an order iff the key is unknown |
| `InvoiceSteps.InvoicedExactlyWhen` | src/shop_bot/application/use_cases/create_payment.py:155-205 | An attempt gets a provider id iff the owner of its claim records one that no attempt of the provider has; an owner that gives up fails it |
| `PaymentTheorems.AccessEndsForCause` | src/shop_bot/application/use_cases/sync_subscriptions.py:95-109 | A step ends an active subscription only if it is left without a current funded period or its owner moves to an active subscription of another tariff |
| `PaymentTheorems.FundingStrandedExactlyWhen` | src/shop_bot/application/use_cases/sync_subscriptions.py:103-109 | A step ends a subscription that still has a funded period ending after its clock iff it is an expiry between funded periods, or it pays an order of another tariff for the same user while funded time is left |
| `PaymentWitnesses.GapLosesFuturePeriod` | src/shop_bot/application/use_cases/process_payment.py:133-135 | A run in which a refund keeps the subscription and the expiry ten days in ends it although days 30 to 60 are funded |
| `PaymentWitnesses.TariffSwitchLosesFundedTime` | src/shop_bot/domain/services/subscription_policy.py:35-39 | A run in which a change of tariff ends a subscription with its thirty days still funded |
| `PaymentTheorems.RefundsCountOnce` | src/shop_bot/infrastructure/persistence/repositories/payments.py:364-397 | The refund total of an order is the sum over its handled refund events, each counted once |
| `PaymentTheorems.AcceptedRefundIsExact` | src/shop_bot/application/use_cases/process_payment.py:94-137 | After any accepted refund the order's period is funded iff its refunds are below its amount |
| `PaymentTheorems.AccountingExactlyWhen` | src/shop_bot/application/use_cases/process_payment.py:115-135 | A step keeps that equivalence for an order iff, on the books before it, it does not pay an order whose refunds already reach its amount |
| `PaymentWitnesses.RefundBeforePayment` | src/shop_bot/application/use_cases/process_payment.py:116-123 | A run in which a full refund handled before the payment leaves a funded period with refunds equal to its amount |
| `PaymentTheorems.FundedMeansNotRefunded` | src/shop_bot/application/use_cases/process_payment.py:114-126 | In a run that never pays an order refunded in full, every period is funded iff its refunds are below its amount |
| `PaymentTheorems.RedeliveryIsIdempotent` | src/shop_bot/application/use_cases/process_payment.py:39-78 | Processing an event that was processed, ignored or rejected again, at any later point and clock reading, changes nothing |
| `PaymentTheorems.PaidTimeIsConserved` | src/shop_bot/domain/entities/subscription.py:87-109 | The number of instants with access equals the days of the orders funding the subscription: nothing lost, nothing counted twice |
| `PaymentTheorems.AccessIsUnrefundedTime` | src/shop_bot/domain/services/subscription_policy.py:20-55 | In a run that never pays an order refunded in full, total access time equals the days of the non-refunded orders |
| `PaymentTheorems.PeriodsFormAChain` | src/shop_bot/infrastructure/persistence/repositories/subscriptions.py:184-204 | A later period of a subscription starts no earlier than an older one ends, whatever the clock |
| `PaymentTheorems.PeriodsHavePurchasedLength` | src/shop_bot/domain/entities/subscription.py:100-109 | Every period of every run has exactly the length its order bought |
| `PaymentTheorems.OneActiveSubscription` | src/shop_bot/application/use_cases/activate_subscription.py:24-46 | A user never has two active subscriptions |
| `PaymentTheorems.PaymentsDriveEntitlements` | src/shop_bot/application/use_cases/process_payment.py:244-257 | Payment steps are entitlement changes the control plane is proved safe under, with the same notion of current funded access |
| `Shop.ActivationsArePaid` | src/shop_bot/application/use_cases/dispatch_node_task.py:358-385 | Payments and control plane composed: every activation lies in exactly one funded period of its subscription, carried by a PAID order of the same user and tariff |
| `Shop.EndedActivationExactlyWhen` | src/shop_bot/application/use_cases/dispatch_node_task.py:358-385 | In every composed run a step activates a configuration of an ended subscription iff it is an activating finalization and an earlier payment step ended that subscription with funded time left: an expiry in a gap or a change of tariff |
| `ShopWitnesses.ActivationForEndedSubscription` | src/shop_bot/application/use_cases/dispatch_panel_provision_task.py:142-179 | Composed runs, on the node path and on the panel path: the buyer changes tariff while the first configuration is being provisioned, and the late success activates for the ended subscription |
| `Shop.LapseClearsAnomalyExactlyWhen` | src/shop_bot/application/use_cases/sync_subscriptions.py:95-117 | In every composed run the expiry step takes its listed subscription off the anomaly list iff that began by now, and leaves every other entry |
| `Shop.BooksArePayments` | src/shop_bot/application/use_cases/activate_subscription.py:24-46 | The books of a composed run are those of its payment steps, so every payment theorem holds of it |
| `Shop.ShopRunInv` | src/shop_bot/application/use_cases/activate_subscription.py:24-46 | In every composed run both invariants hold and the control plane sees exactly the entitlements of the books |
| `PaymentSafety.StepKeepsInv` | src/shop_bot/application/use_cases/process_payment.py:140-216 | Every payment transaction keeps the whole invariant of the books, and rows only grow |
| `PaymentSafety.RunInv` | src/shop_bot/application/use_cases/admin_operations.py:65-88 | The invariant holds after every run |
| `SubscriptionAccess.ActivateKeepsInv` | src/shop_bot/application/use_cases/activate_subscription.py:24-46 | Activation appends exactly one funded period of the purchased length to an active subscription of the buyer and tariff |
| `SubscriptionAccess.WithdrawKeepsInv` | src/shop_bot/application/use_cases/process_payment.py:125-135 | A full refund unfunds exactly one period and keeps the chain |
| `SubscriptionAccess.LapseKeepsInv` | src/shop_bot/application/use_cases/sync_subscriptions.py:95-117 | Expiry keeps all periods and all owners |
| `SubscriptionAccess.OneFundedPeriodAtATime` | src/shop_bot/domain/entities/subscription.py:31-32 | At most one funded period of a subscription contains any instant |
| `SubscriptionAccess.FundedTimeIsAdditive` | src/shop_bot/domain/entities/subscription.py:100-109 | The accessible instants number the sum of the funded lengths |
| `PaymentStore.Store.PrepareOrder` | src/shop_bot/application/use_cases/create_payment.py:79-153 | Commits exactly the prepare step: known key, identity conflict, takeover of an abandoned claim; the caller owns creation iff a claim was appended for it |
| `PaymentStore.Store.ClaimInvoice` | src/shop_bot/application/use_cases/create_payment.py:125-153 | The caller owns creation iff a claim row was appended for it |
| `PaymentStore.Store.FinalizeClaim` | src/shop_bot/application/use_cases/create_payment.py:155-195 | Commits exactly the finalize step |
| `PaymentStore.Store.FailClaim` | src/shop_bot/application/use_cases/create_payment.py:197-205 | Commits exactly the fail step |
| `PaymentStore.Store.Ingest` | src/shop_bot/application/use_cases/ingest_webhook.py:39-75 | Records an event once, tied to the attempt with its provider id |
| `PaymentStore.Store.Activate` | src/shop_bot/application/use_cases/activate_subscription.py:14-46 | Commits exactly the activation: extend, replace or create |
| `PaymentStore.Store.Settle` | src/shop_bot/application/use_cases/process_payment.py:244-257 | Order and period are stored together or not at all |
| `PaymentStore.Store.AdminSettle` | src/shop_bot/application/use_cases/admin_operations.py:65-88 | Commits exactly the manual settlement |
| `PaymentStore.Store.ProcessPaid` | src/shop_bot/application/use_cases/process_payment.py:170-272 | Commits exactly the paid branch with its rejections |
| `PaymentStore.Store.ProcessRefund` | src/shop_bot/application/use_cases/process_payment.py:80-138 | Commits exactly the refund branch with its rejections |
| `PaymentStore.Store.ProcessOther` | src/shop_bot/application/use_cases/process_payment.py:291-317 | Commits exactly the unsuccessful branch |
| `PaymentStore.Store.Process` | src/shop_bot/application/use_cases/process_payment.py:39-78 | Commits exactly the processing step |
| `PaymentStore.Store.Withdraw` | src/shop_bot/application/use_cases/process_payment.py:124-135 | Commits exactly the withdrawal, or nothing |
| `PaymentStore.Store.Lapse` | src/shop_bot/application/use_cases/sync_subscriptions.py:95-117 | Commits exactly the expiry |
| `PaymentEntity.PaymentOrder.MarkPaid` | src/shop_bot/domain/entities/payment.py:73-81 | Refuses CREATED, ignores PAID, otherwise pays |
| `PaymentEntity.PaymentOrder.ApplyUnsuccessful` | src/shop_bot/domain/entities/payment.py:92-114 | A failure status ends only a pending order |
| `PaymentEntity.PaymentAttempt.ClaimCreation` | src/shop_bot/domain/entities/payment.py:137-145 | Accepted only in CREATED with a lease in the future |
| `PaymentEntity.PaymentAttempt.FinalizeCreation` | src/shop_bot/domain/entities/payment.py:170-189 | Accepted only from CREATED to another status; records the invoice |
| `PaymentEntity.PaymentAttempt.FailCreation` | src/shop_bot/domain/entities/payment.py:191-197 | Fails only a CREATED attempt |
| `PaymentEntity.PaymentAttempt.ApplyProviderStatus` | src/shop_bot/domain/entities/payment.py:199-221 | Applied, duplicate or stale by the monotone order of statuses |
| `SubscriptionEntity.Subscription.Expire` | src/shop_bot/domain/entities/subscription.py:67-71 | Ends a subscription once |
| `SubscriptionEntity.Subscription.Extend` | src/shop_bot/domain/entities/subscription.py:87-109 | The new period starts at the later of now and the last end and has the given length; an inactive subscription is reactivated |
| `SubscriptionEntity.ApplyPaidPeriod` | src/shop_bot/domain/services/subscription_policy.py:20-55 | Creates, replaces or extends, and what happens to the replaced subscription |
| `Reconciler.RunHandlesFirstItems` | src/shop_bot/infrastructure/persistence/repositories/maintenance.py:347-373 | On an unchanging listing a run handles exactly its first min(n, batches times size) items in (kind, id) order |
| `Reconciler.ListedByKind` | src/shop_bot/infrastructure/persistence/repositories/maintenance.py:347-373 | A listing goes through expiry, revoke, cleanup, provision, provision repair and revoke repair in this order, each by id |
| `Reconciler.StopsAtLoss` | src/shop_bot/application/use_cases/sync_subscriptions.py:71-83 | A run handles nothing after the first renewal that fails |
| `Reconciler.NothingTwice` | src/shop_bot/application/use_cases/sync_subscriptions.py:43-85 | However the store changes between batches, the handled items strictly increase, so none is handled twice, and each was listed |
| `Reconciler.RunCoversStore` | src/shop_bot/application/use_cases/sync_subscriptions.py:43-85 | A run with enough batches over an unchanging store handles each of its anomalies once and nothing else |
| `Reconciler.EmptyListing` | src/shop_bot/infrastructure/persistence/repositories/maintenance.py:339-373 | The listing is empty iff none of the six anomaly predicates holds of anything |
| `Reconciler.Execute` | src/shop_bot/application/use_cases/sync_subscriptions.py:31-93 | Acquire, batches, release, with other runs' lease calls before every renewal and before the release: already running iff the lease is held; lost iff the row was no longer the run's at the last renewal; the final row is what the others left, released if still the run's |
| `Reconciler.HeldExactlyWhen` | src/shop_bot/infrastructure/persistence/repositories/maintenance.py:48-98 | After n renewals the run still holds the lease iff no other run has asked for it since at or after its expiry |
| `Reconciler.Reconcile` | src/shop_bot/application/use_cases/sync_subscriptions.py:43-85 | The batch loop with cursor and renewal handles exactly the specified items and batches, with exact counters |
| `Reconciler.HandleAnomaly` | src/shop_bot/application/use_cases/sync_subscriptions.py:149-170 | The counters count exactly what happened |
| `Reconciler.OvertakenRunIsFenced` | src/shop_bot/infrastructure/persistence/repositories/maintenance.py:78-109 | Once another run has taken the lease, the earlier run can never renew or release it again |
| `Reconciler.MaintenanceLease.Acquire` | src/shop_bot/infrastructure/persistence/repositories/maintenance.py:48-76 | Acquires iff the lease is free or expired |
| `Reconciler.MaintenanceLease.Renew` | src/shop_bot/infrastructure/persistence/repositories/maintenance.py:78-98 | Renews iff the token holds the lease |
| `Reconciler.MaintenanceLease.Release` | src/shop_bot/infrastructure/persistence/repositories/maintenance.py:100-109 | Releases iff the token holds the lease |

## Left out

- Capacity.CapacityNeverExceeded: bounds reservations by the largest limit a node was ever given; with a limit that never changes, that is the limit.
- TaskProgress.MovesAreBounded: covers node tasks; how far panel tasks are bounded is `PanelProgress`.
- PanelCompensation.NoOrphanClient: stated under the two assumptions about the remote panel listed above.
- JournalRetirement.RetireRecords: no other job touches the rows between two updates of one batch.
- Recoverability.ConvergenceIsAlwaysReachable: says that convergence can be reached, not that a scheduler reaches it. In the continuation remote calls succeed, and operators keep the nodes up, with their credentials, and add one node with room.
- HTTP, Telegram and admin interfaces, Redis and ARQ delivery, the XUI client, settings, logging and migrations: plumbing. A queued job is a step that may run at any time, and enqueuing is not modelled.
- Request signing, the nonce store and webhook verification: messages are taken as authentic, and a request may arrive at any age.
- Diagnostic columns (`last_error`, error messages, `updated_at`, `created_at` of tasks and events) and payload dictionaries.
- Inferring a payment status from free-form event text; events carry their normalised status.
- Audit rows of the payment side; the audit rows of configurations are modelled.
- Tasks without a configuration or a subscription, and the `sync_status` operation: no use case here creates them.
- `VpnConfiguration.expire`, `Subscription.cancel` and `pause`, `PanelProvisionTask.cancel` and `fail`, the subscription facade, legacy repository mutators and compatibility commands: unused by the modelled steps.
- Payment adapters, URI building, money formatting, node administration, node health probing and user registration.
- Deadlock freedom and database isolation levels: transactions are taken as atomic.
