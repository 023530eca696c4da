/**
 One configuration with every row that references it, and the transactions of the use cases
 as functions on those rows. Each function is one `async with uow_factory()` block: it either
 commits the value it returns or, when the source raises or returns early, leaves the rows alone.
 */
module Transactions {
  import opened Common
  import opened VpnEntity
  import opened NodeTaskEntity
  import opened PanelTaskEntity
  import opened NodeSelection

  /** Settings are rejected at start-up unless positive. */
  datatype RawSettings = RawSettings(
    nodeMaxAttempts: int, nodeRetryBase: int, nodeLease: int, nodeDefer: int, staleAfter: int,
    panelMaxAttempts: int, panelRetryBase: int, panelLease: int)

  type Settings = s: RawSettings |
    && s.nodeMaxAttempts > 0 && s.nodeRetryBase > 0 && s.nodeLease > 0 && s.nodeDefer > 0 && s.staleAfter > 0
    && s.panelMaxAttempts > 0 && s.panelRetryBase > 0 && s.panelLease > 0
    witness RawSettings(5, 15, 60, 30, 180, 5, 15, 60)

  /** The unique index of node_tasks, within one configuration. */
  datatype TaskKey = TaskKey(op: Operation, generation: int)

  datatype AttemptRow = Started | Finished(ok: bool)

  /** A node task and its attempt rows, by attempt number. */
  datatype Ledger = Ledger(task: NodeTaskRow, attempts: map<int, AttemptRow>)

  datatype AuditRow = CreatedAudit(at: int) | ActivatedAudit(at: int) | RevokedAudit(at: int)

  datatype Config = Config(
    subscription: int,
    endpoint: int,
    node: Option<int>,
    vpn: VpnRow,
    nodeTasks: map<TaskKey, Ledger>,
    panelTask: Option<PanelRow>,
    panelRevokes: map<int, PanelRow>,
    audit: seq<AuditRow>)

  datatype RevokeReason = Expiration | Force | ReplacementCleanup

  datatype NodeAnswer = TransportError | Answered(response: Option<Response>)

  /** What the availability policy reads about a node; a missing node row is None. */
  datatype NodeState = NodeState(health: Health, enabled: bool, lastChecked: Option<int>)

  function PutLedger(c: Config, k: TaskKey, l: Ledger): Config {
    c.(nodeTasks := c.nodeTasks[k := l])
  }

  /** `create_task` converges on an existing row of the same operation and generation. */
  function AddNodeTask(c: Config, k: TaskKey, maxAttempts: int, now: int): Config {
    if k in c.nodeTasks then c else PutLedger(c, k, Ledger(NewTask(maxAttempts, now), map[]))
  }

  function AddPanelRevoke(c: Config, maxAttempts: int, now: int): Config {
    var g := c.vpn.generation;
    if g in c.panelRevokes then c
    else c.(panelRevokes := c.panelRevokes[g := NewPanelTask(g, maxAttempts, now)])
  }

  function AddPanelTask(c: Config, maxAttempts: int, now: int): Config {
    if c.panelTask.Some? then c
    else c.(panelTask := Some(NewPanelTask(c.vpn.generation, maxAttempts, now)))
  }

  function ActivateAudited(c: Config, ref: Option<string>, now: int): Config {
    c.(vpn := Activated(c.vpn, ref), audit := c.audit + [ActivatedAudit(now)])
  }

  function RevokeAudited(c: Config, now: int): Config {
    c.(vpn := RevokedNow(c.vpn, now), audit := c.audit + [RevokedAudit(now)])
  }

  /** The provisioning operation of generation `g` still speaks for the configuration. */
  predicate CurrentProvision(v: VpnRow, g: int) {
    g == v.generation && v.desired == WantActive && v.status == Provisioning
  }

  predicate CurrentRevoke(v: VpnRow, g: int) {
    g == v.generation && v.desired == WantRevoked && v.status == Revoking
  }

  // ---------------------------------------------------------------- node dispatch

  function MarkConfigurationFailure(c: Config, k: TaskKey): Config {
    if k.op == ProvisionClient && CurrentProvision(c.vpn, k.generation) then c.(vpn := c.vpn.(status := Failed))
    else if k.op == RevokeClient && CurrentRevoke(c.vpn, k.generation) then c.(vpn := c.vpn.(status := RevokeFailed))
    else c
  }

  /** `finish_task_attempt`: an update of one attempt row. */
  function CloseAttempt(rows: map<int, AttemptRow>, n: int, ok: bool): map<int, AttemptRow> {
    if n in rows then rows[n := Finished(ok)] else rows
  }

  /** Closes the current attempt row as failed and retries or fails the task. */
  function FailOrRetry(c: Config, k: TaskKey, attemptNo: int, response: Option<Response>, now: int, base: int): Config
    requires k in c.nodeTasks
  {
    var l := c.nodeTasks[k];
    var t := Retried(l.task, response, now, base);
    var saved := PutLedger(c, k, Ledger(t, CloseAttempt(l.attempts, attemptNo, false)));
    if t.status == TaskFailed then MarkConfigurationFailure(saved, k) else saved
  }

  predicate NodeAllows(k: TaskKey, node: Option<NodeState>, now: int, s: Settings) {
    node.Some? && AllowsOperation(s.staleAfter, node.value.health, node.value.enabled, node.value.lastChecked,
                                  now, k.op == ProvisionClient)
  }

  function StartLedger(l: Ledger, now: int, expiresAt: int, token: int): Ledger {
    var t := AttemptStarted(l.task, now, expiresAt, token);
    Ledger(t, l.attempts[t.attempts := Started])
  }

  /** `DispatchNodeTask._prepare`. */
  function NodePrepare(
    c: Config, k: TaskKey, now: int, token: int, node: Option<NodeState>, credential: bool, s: Settings): Config
  {
    if k !in c.nodeTasks || !CanDispatch(c.nodeTasks[k].task, now) then c
    else
      var l := c.nodeTasks[k];
      if !NodeAllows(k, node, now, s) then PutLedger(c, k, l.(task := Deferred(l.task, now, s.nodeDefer)))
      else
        var l' := StartLedger(l, now, now + s.nodeLease, token);
        if l'.task.attempts in l.attempts then c  // unique (task, attempt number): rolled back
        else if credential then PutLedger(c, k, l')
        else FailOrRetry(PutLedger(c, k, l'), k, l'.task.attempts, None, now, s.nodeRetryBase)
  }

  /** `_complete_provision`: activate, or make sure a revoke of the current generation exists. */
  function CompleteProvision(c: Config, k: TaskKey, funded: bool, now: int): Config
    requires k in c.nodeTasks
  {
    var task := c.nodeTasks[k].task;
    if CurrentProvision(c.vpn, k.generation) && funded then ActivateAudited(c, task.remoteRef, now)
    else
      var c1 :=
        if CurrentProvision(c.vpn, k.generation) then
          c.(vpn := RevokeRestarted(c.vpn).(remoteRef := KeepRef(task.remoteRef, c.vpn.remoteRef)))
        else c;
      AddNodeTask(c1, TaskKey(RevokeClient, c1.vpn.generation), task.maxAttempts, now)
  }

  function CompleteRevoke(c: Config, k: TaskKey, now: int): Config {
    if CurrentRevoke(c.vpn, k.generation) then RevokeAudited(c, now) else c
  }

  /** `DispatchNodeTask._finalize`, for any worker, however late. */
  function NodeFinalize(
    c: Config, k: TaskKey, now: int, token: int, attemptNo: int, answer: NodeAnswer, funded: bool, s: Settings): Config
  {
    if k !in c.nodeTasks || !OwnsActiveLease(c.nodeTasks[k].task, token, now, attemptNo) then c
    else if answer.TransportError? then FailOrRetry(c, k, attemptNo, None, now, s.nodeRetryBase)
    else if answer.response.Some? && Accepts(k.op, answer.response.value.status) then
      var l := c.nodeTasks[k];
      var done := PutLedger(c, k, Ledger(Completed(l.task, answer.response.value, now),
                                         CloseAttempt(l.attempts, attemptNo, true)));
      if k.op == ProvisionClient then CompleteProvision(done, k, funded, now) else CompleteRevoke(done, k, now)
    else FailOrRetry(c, k, attemptNo, answer.response, now, s.nodeRetryBase)
  }

  /** One iteration of `DispatchNodeTask.recover_stale`. */
  function NodeRecover(c: Config, k: TaskKey, now: int, s: Settings): Config {
    if k !in c.nodeTasks || !LeaseExpired(c.nodeTasks[k].task, now) then c
    else
      var l := c.nodeTasks[k];
      var n := l.task.attempts;
      var t := Retried(l.task, None, now, s.nodeRetryBase);
      var rows := if n in l.attempts && l.attempts[n] == Started then l.attempts[n := Finished(false)] else l.attempts;
      var saved := PutLedger(c, k, Ledger(t, rows));
      if t.status == TaskFailed then MarkConfigurationFailure(saved, k) else saved
  }

  // ---------------------------------------------------------------- panel provisioning

  /** `DispatchPanelProvisionTask._prepare`; the attempt compensates iff the flag is set. */
  function PanelPrepare(c: Config, now: int, token: int, s: Settings): Config {
    if c.panelTask.None? || !PanelCanDispatch(c.panelTask.value, now) then c
    else c.(panelTask := Some(PanelStarted(c.panelTask.value, now, now + s.panelLease, token)))
  }

  datatype PanelOutcome = ActivatedOutcome | LeaseLost | CompensateOutcome

  function PanelSuccessOutcome(c: Config, now: int, token: int, attemptNo: int, funded: bool): PanelOutcome {
    if c.panelTask.None? || !PanelOwnsLease(c.panelTask.value, token, attemptNo) then LeaseLost
    else if PanelOwnsActiveLease(c.panelTask.value, token, attemptNo, now)
         && CurrentProvision(c.vpn, c.panelTask.value.generation) && funded then ActivatedOutcome
    else CompensateOutcome
  }

  /** `_finalize_provision_success`. */
  function PanelFinalizeSuccess(c: Config, now: int, token: int, attemptNo: int, funded: bool): Config {
    match PanelSuccessOutcome(c, now, token, attemptNo, funded)
    case LeaseLost => c
    case ActivatedOutcome =>
      ActivateAudited(c, None, now).(panelTask := Some(PanelCompleted(c.panelTask.value, now)))
    case CompensateOutcome =>
      var t := c.panelTask.value;
      var c1 :=
        if PanelOwnsActiveLease(t, token, attemptNo, now) && CurrentProvision(c.vpn, t.generation) then
          c.(vpn := RevokeRestarted(c.vpn))
        else c;
      c1.(panelTask := Some(t.(compensation := true)))
  }

  /** `fail_provisioning` when the provision task itself has just failed. */
  function FailProvisionIfCurrent(c: Config, t: PanelRow): Config {
    if t.status == TaskFailed && CurrentProvision(c.vpn, t.generation) then c.(vpn := c.vpn.(status := Failed)) else c
  }

  /** `_finalize_remote_failure`. */
  function PanelFinalizeFailure(c: Config, now: int, token: int, attemptNo: int, s: Settings): Config {
    if c.panelTask.None? || !PanelOwnsLease(c.panelTask.value, token, attemptNo) then c
    else
      var t := PanelRetried(c.panelTask.value, now, s.panelRetryBase);
      FailProvisionIfCurrent(c.(panelTask := Some(t)), t)
  }

  /** `_record_compensation_success`. */
  function PanelCompensated(c: Config, now: int, token: int, attemptNo: int): Config {
    if c.panelTask.None? || !PanelOwnsLease(c.panelTask.value, token, attemptNo) then c
    else
      var t := c.panelTask.value;
      var completesCancelled := CanRevoke(c.vpn) && c.vpn.generation == t.generation + 1;
      var terminalLocally :=
        t.generation != c.vpn.generation || c.vpn.desired == WantRevoked || IsTerminal(c.vpn.status);
      var t' := CompensationDone(t, now, terminalLocally);
      var c1 := c.(panelTask := Some(t'));
      FailProvisionIfCurrent(if completesCancelled then RevokeAudited(c1, now) else c1, t')
  }

  /** `_record_compensation_failure`. */
  function PanelCompensationFailed(c: Config, now: int, token: int, attemptNo: int): Config {
    if c.panelTask.None? || !PanelOwnsLease(c.panelTask.value, token, attemptNo) then c
    else c.(panelTask := Some(CompensationQueued(c.panelTask.value, now)))
  }

  /** One iteration of `DispatchPanelProvisionTask.recover_stale`. */
  function PanelRecover(c: Config, now: int): Config {
    if c.panelTask.None? || !PanelLeaseExpired(c.panelTask.value, now) then c
    else c.(panelTask := Some(CompensationQueued(c.panelTask.value, now)))
  }

  // ---------------------------------------------------------------- panel revocation

  function PutPanelRevoke(c: Config, g: int, t: PanelRow): Config {
    c.(panelRevokes := c.panelRevokes[g := t])
  }

  function PanelRevokePrepare(c: Config, g: int, now: int, token: int, s: Settings): Config {
    if g !in c.panelRevokes || !PanelCanDispatch(c.panelRevokes[g], now) then c
    else PutPanelRevoke(c, g, PanelStarted(c.panelRevokes[g], now, now + s.panelLease, token))
  }

  function PanelRevokeSuccess(c: Config, g: int, now: int, token: int, attemptNo: int): Config {
    if g !in c.panelRevokes || !PanelOwnsActiveLease(c.panelRevokes[g], token, attemptNo, now) then c
    else
      var c1 := PutPanelRevoke(c, g, PanelCompleted(c.panelRevokes[g], now));
      if CurrentRevoke(c.vpn, g) then RevokeAudited(c1, now) else c1
  }

  function PanelRevokeFailure(c: Config, g: int, now: int, token: int, attemptNo: int, s: Settings): Config {
    if g !in c.panelRevokes || !PanelOwnsLease(c.panelRevokes[g], token, attemptNo) then c
    else
      var t := PanelRetried(c.panelRevokes[g], now, s.panelRetryBase);
      var c1 := PutPanelRevoke(c, g, t);
      if t.status == TaskFailed && CurrentRevoke(c.vpn, g) then c1.(vpn := c1.vpn.(status := RevokeFailed)) else c1
  }

  function PanelRevokeRecover(c: Config, g: int, now: int): Config {
    if g !in c.panelRevokes || !PanelLeaseExpired(c.panelRevokes[g], now) then c
    else PutPanelRevoke(c, g, PanelRequeued(c.panelRevokes[g], now))
  }

  // ---------------------------------------------------------------- revoke request

  /** The revoke task of the current generation, where it blocks a new request. */
  function ExistingRevoke(c: Config): Option<TaskStatus> {
    if c.node.Some? then
      var k := TaskKey(RevokeClient, c.vpn.generation);
      if k in c.nodeTasks then Some(c.nodeTasks[k].task.status) else None
    else
      var g := c.vpn.generation;
      if g in c.panelRevokes && c.panelRevokes[g].status != TaskFailed then Some(c.panelRevokes[g].status) else None
  }

  /** The row after a revoke request has been accepted. */
  function RevokeRequested(v: VpnRow): VpnRow {
    if v.status == Active then RevokeBegun(v)
    else if v.status == Revoking then v
    else RevokeRestarted(v)
  }

  /** `RevokeVpn._prepare_plan` after the subscription has been consulted. */
  function RevokePlan(c: Config, now: int, s: Settings): Config {
    var existing := ExistingRevoke(c);
    if existing == Some(Succeeded) && CanRevoke(c.vpn) then RevokeAudited(c, now)
    else if existing.Some? && c.vpn.status == Revoking then c
    else if existing.Some? && c.vpn.status == Failed && c.vpn.desired == WantRevoked then c
    else if IsTerminal(c.vpn.status) then c
    else
      var c1 := c.(vpn := RevokeRequested(c.vpn));
      if c1.node.Some? then AddNodeTask(c1, TaskKey(RevokeClient, c1.vpn.generation), s.nodeMaxAttempts, now)
      else AddPanelRevoke(c1, s.panelMaxAttempts, now)
  }

  // ---------------------------------------------------------------- worker transactions

  /** Everything a dispatcher may commit; tokens, attempt numbers and answers are unconstrained, so stale ones are covered. */
  datatype Work =
    | NodePrepares(key: TaskKey, token: int, node: Option<NodeState>, credential: bool)
    | NodeFinalizes(key: TaskKey, token: int, attemptNo: int, answer: NodeAnswer)
    | NodeRecovers(key: TaskKey)
    | PanelPrepares(token: int)
    | PanelSucceeds(token: int, attemptNo: int)
    | PanelFails(token: int, attemptNo: int)
    | PanelCompensates(token: int, attemptNo: int)
    | PanelCompensationFails(token: int, attemptNo: int)
    | PanelRecovers
    | PanelRevokePrepares(generation: int, token: int)
    | PanelRevokeSucceeds(generation: int, token: int, attemptNo: int)
    | PanelRevokeFails(generation: int, token: int, attemptNo: int)
    | PanelRevokeRecovers(generation: int)

  function Perform(c: Config, w: Work, now: int, funded: bool, s: Settings): Config {
    match w
    case NodePrepares(k, token, node, credential) => NodePrepare(c, k, now, token, node, credential, s)
    case NodeFinalizes(k, token, n, answer) => NodeFinalize(c, k, now, token, n, answer, funded, s)
    case NodeRecovers(k) => NodeRecover(c, k, now, s)
    case PanelPrepares(token) => PanelPrepare(c, now, token, s)
    case PanelSucceeds(token, n) => PanelFinalizeSuccess(c, now, token, n, funded)
    case PanelFails(token, n) => PanelFinalizeFailure(c, now, token, n, s)
    case PanelCompensates(token, n) => PanelCompensated(c, now, token, n)
    case PanelCompensationFails(token, n) => PanelCompensationFailed(c, now, token, n)
    case PanelRecovers => PanelRecover(c, now)
    case PanelRevokePrepares(g, token) => PanelRevokePrepare(c, g, now, token, s)
    case PanelRevokeSucceeds(g, token, n) => PanelRevokeSuccess(c, g, now, token, n)
    case PanelRevokeFails(g, token, n) => PanelRevokeFailure(c, g, now, token, n, s)
    case PanelRevokeRecovers(g) => PanelRevokeRecover(c, g, now)
  }

  // ---------------------------------------------------------------- provisioning request

  /** Creates the provisioning task of the configuration's path. */
  function AddProvisionTask(c: Config, now: int, s: Settings): Config {
    if c.node.Some? then AddNodeTask(c, TaskKey(ProvisionClient, c.vpn.generation), s.nodeMaxAttempts, now)
    else AddPanelTask(c, s.panelMaxAttempts, now)
  }

  function FreshConfig(subscription: int, endpoint: int, node: Option<int>, now: int, s: Settings): Config {
    AddProvisionTask(Config(subscription, endpoint, node, FRESH_VPN, map[], None, map[], [CreatedAudit(now)]), now, s)
  }

  /** `_reuse_existing_provisioning`: repairs a lost task or a lost activation. */
  function ReuseProvisioning(c: Config, now: int, s: Settings): Config {
    if c.vpn.desired != WantActive then c
    else if c.node.Some? then
      var k := TaskKey(ProvisionClient, c.vpn.generation);
      if k in c.nodeTasks && c.nodeTasks[k].task.status == Succeeded then
        ActivateAudited(c, c.nodeTasks[k].task.remoteRef, now)
      else AddProvisionTask(c, now, s)
    else if c.panelTask.Some? && c.panelTask.value.status == Succeeded then ActivateAudited(c, None, now)
    else AddProvisionTask(c, now, s)
  }
}
