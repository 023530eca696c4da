/**
 What every transaction keeps on one configuration, on the node path and on the panel path:
 the status is a function of the current-generation task, attempt rows are an exact ledger of
 the attempts, and the audit trail records each life-cycle event once.
 */
module Lifecycle {
  import opened Common
  import opened VpnEntity
  import opened NodeTaskEntity
  import opened PanelTaskEntity
  import opened Transactions

  /** The configuration wants access exactly in generation 1, and its status says so. */
  ghost predicate Shape(v: VpnRow) {
    && v.generation >= 1
    && (v.generation == 1 <==> v.desired == WantActive)
    && (v.generation == 1 <==> v.status == Provisioning || v.status == Active || v.status == Failed)
    && v.status != Expired && v.status != Disabled
  }

  ghost predicate OpenTrail(a: seq<AuditRow>) {
    |a| == 1 && a[0].CreatedAudit?
  }

  ghost predicate ActivatedTrail(a: seq<AuditRow>) {
    |a| == 2 && a[0].CreatedAudit? && a[1].ActivatedAudit?
  }

  /** One row per event that happened, in order: created, perhaps activated, perhaps revoked, nothing else. */
  ghost predicate Trail(status: VpnStatus, a: seq<AuditRow>) {
    match status
    case Provisioning => OpenTrail(a)
    case Failed => OpenTrail(a)
    case Active => ActivatedTrail(a)
    case Revoked => |a| > 0 && a[|a| - 1].RevokedAudit? && (OpenTrail(a[..|a| - 1]) || ActivatedTrail(a[..|a| - 1]))
    case _ => OpenTrail(a) || ActivatedTrail(a)
  }

  /** The exact ledger of a node task. */
  ghost predicate LedgerOk(op: Operation, l: Ledger) {
    var t := l.task;
    && 0 <= t.attempts <= t.maxAttempts && 0 < t.maxAttempts
    && (t.status == Pending ==> t.attempts < t.maxAttempts)
    && (t.status == InProgress ==> 0 < t.attempts)
    && t.status != Cancelled
    && (forall n :: n in l.attempts <==> 1 <= n <= t.attempts)
    && (forall n :: n in l.attempts ==> (l.attempts[n] == Started <==> t.status == InProgress && n == t.attempts))
    && (t.leaseToken.Some? <==> t.status == InProgress)
    && (t.leaseExpiresAt.Some? <==> t.status == InProgress)
    && (t.claimedAt.Some? <==> t.status == InProgress)
    && (t.status == Succeeded ==> t.response.Some? && Accepts(op, t.response.value.status))
  }

  /** The operation that speaks for a configuration of this generation. */
  function CurrentKey(generation: int): TaskKey {
    if generation == 1 then TaskKey(ProvisionClient, 1) else TaskKey(RevokeClient, generation)
  }

  /** The status a configuration must have, given the status of its current task. */
  function StatusByTask(generation: int, s: TaskStatus): VpnStatus {
    if generation == 1 then
      if s == Succeeded then Active else if s == TaskFailed then Failed else Provisioning
    else
      if s == Succeeded then Revoked else if s == TaskFailed then RevokeFailed else Revoking
  }

  /** Which tasks a node-backed configuration has. */
  ghost predicate KnownKey(c: Config, k: TaskKey) {
    if k.op == ProvisionClient then k.generation == 1 else 2 <= k.generation <= c.vpn.generation
  }

  ghost predicate NodeInv(c: Config) {
    && c.node.Some? && c.panelTask.None? && c.panelRevokes == map[]
    && Shape(c.vpn) && Trail(c.vpn.status, c.audit)
    && (forall k :: k in c.nodeTasks <==> KnownKey(c, k))
    && (forall k :: k in c.nodeTasks ==> LedgerOk(k.op, c.nodeTasks[k]))
    && c.vpn.status == StatusByTask(c.vpn.generation, c.nodeTasks[CurrentKey(c.vpn.generation)].task.status)
    && (forall k :: k in c.nodeTasks && k.op == RevokeClient && k.generation < c.vpn.generation ==>
          c.nodeTasks[k].task.status == TaskFailed)
  }

  /** Lease fields of a panel row are set exactly while it is in progress. */
  ghost predicate PanelRowOk(t: PanelRow) {
    && (t.leaseToken.Some? <==> t.status == InProgress)
    && (t.leaseExpiresAt.Some? <==> t.status == InProgress)
  }

  ghost predicate PanelRevokeOk(c: Config, g: int, t: PanelRow) {
    && 2 <= g <= c.vpn.generation && t.generation == g && PanelRowOk(t) && t.status != Cancelled
    && (g < c.vpn.generation ==> t.status == TaskFailed)
    && (g == c.vpn.generation && t.status == TaskFailed ==> c.vpn.status == RevokeFailed || c.vpn.status == Revoked)
    && (g == c.vpn.generation && t.status == Succeeded ==> c.vpn.status == Revoked)
    && (g == c.vpn.generation && IsOpen(t.status) ==> c.vpn.status == Revoking || c.vpn.status == Revoked)
  }

  ghost predicate PanelInv(c: Config) {
    && c.node.None? && c.nodeTasks == map[] && c.panelTask.Some?
    && Shape(c.vpn) && Trail(c.vpn.status, c.audit)
    && PanelRowOk(c.panelTask.value) && c.panelTask.value.generation == 1
    && (c.vpn.generation == 1 ==>
          && c.vpn.status == StatusByTask(1, c.panelTask.value.status)
          && c.panelTask.value.status != Cancelled)
    && (forall g :: g in c.panelRevokes ==> PanelRevokeOk(c, g, c.panelRevokes[g]))
    && (c.vpn.status == RevokeFailed ==> c.vpn.generation in c.panelRevokes)
  }

  ghost predicate ConfigInv(c: Config) {
    if c.node.Some? then NodeInv(c) else PanelInv(c)
  }

  // ---------------------------------------------------------------- ledgers

  lemma RetriedLedger(op: Operation, l: Ledger, n: int, response: Option<Response>, now: int, base: int)
    requires LedgerOk(op, l) && l.task.status == InProgress && n == l.task.attempts
    ensures LedgerOk(op, Ledger(Retried(l.task, response, now, base), CloseAttempt(l.attempts, n, false)))
  {
  }

  lemma StartedLedger(op: Operation, l: Ledger, now: int, expiresAt: int, token: int)
    requires LedgerOk(op, l) && l.task.status == Pending
    ensures var l' := StartLedger(l, now, expiresAt, token);
      l'.task.attempts !in l.attempts && LedgerOk(op, l')
  {
  }

  lemma CompletedLedger(op: Operation, l: Ledger, n: int, response: Response, now: int)
    requires LedgerOk(op, l) && l.task.status == InProgress && n == l.task.attempts
    requires Accepts(op, response.status)
    ensures LedgerOk(op, Ledger(Completed(l.task, response, now), CloseAttempt(l.attempts, n, true)))
  {
  }

  // ---------------------------------------------------------------- node path

  /** Writing back a ledger whose task keeps an unfinished status changes nothing else. */
  lemma PutKeepsInv(c: Config, k: TaskKey, l: Ledger)
    requires NodeInv(c) && k in c.nodeTasks && LedgerOk(k.op, l)
    requires IsOpen(c.nodeTasks[k].task.status) && IsOpen(l.task.status)
    ensures NodeInv(PutLedger(c, k, l))
  {
  }

  /** The stale case: finishing a task that no longer speaks for the configuration. */
  lemma StalePutKeepsInv(c: Config, k: TaskKey, l: Ledger)
    requires NodeInv(c) && k in c.nodeTasks && LedgerOk(k.op, l)
    requires IsOpen(c.nodeTasks[k].task.status) && k != CurrentKey(c.vpn.generation)
    ensures k.op == ProvisionClient && c.vpn.generation >= 2
    ensures NodeInv(PutLedger(c, k, l))
  {
  }

  /** Finishing the task that speaks for the configuration, together with the status and trail it calls for. */
  lemma CurrentPutKeepsInv(c: Config, k: TaskKey, l: Ledger, v: VpnRow, audit: seq<AuditRow>)
    requires NodeInv(c) && k in c.nodeTasks && LedgerOk(k.op, l) && k == CurrentKey(c.vpn.generation)
    requires v.generation == c.vpn.generation && v.desired == c.vpn.desired
    requires v.status == StatusByTask(c.vpn.generation, l.task.status) && Trail(v.status, audit)
    ensures NodeInv(PutLedger(c, k, l).(vpn := v, audit := audit))
  {
    hide LedgerOk, Trail;
  }

  /** On a failed task of the configuration, the failure is marked. */
  lemma FailedCurrent(c: Config, k: TaskKey, l: Ledger)
    requires NodeInv(c) && k in c.nodeTasks && IsOpen(c.nodeTasks[k].task.status) && k == CurrentKey(c.vpn.generation)
    requires LedgerOk(k.op, l) && l.task.status == TaskFailed
    ensures NodeInv(MarkConfigurationFailure(PutLedger(c, k, l), k))
  {
    var v := c.vpn.(status := StatusByTask(c.vpn.generation, TaskFailed));
    CurrentPutKeepsInv(c, k, l, v, c.audit);
    assert MarkConfigurationFailure(PutLedger(c, k, l), k) == PutLedger(c, k, l).(vpn := v, audit := c.audit);
    hide NodeInv;
  }

  lemma FailOrRetryKeepsInv(c: Config, k: TaskKey, n: int, response: Option<Response>, now: int, base: int)
    requires NodeInv(c) && k in c.nodeTasks
    requires c.nodeTasks[k].task.status == InProgress && n == c.nodeTasks[k].task.attempts
    ensures NodeInv(FailOrRetry(c, k, n, response, now, base))
  {
    assert LedgerOk(k.op, c.nodeTasks[k]);
    hide NodeInv;
    RetriedLedger(k.op, c.nodeTasks[k], n, response, now, base);
    var l := Ledger(Retried(c.nodeTasks[k].task, response, now, base), CloseAttempt(c.nodeTasks[k].attempts, n, false));
    hide LedgerOk;
    if l.task.status == Pending {
      PutKeepsInv(c, k, l);
    } else if k != CurrentKey(c.vpn.generation) {
      StalePutKeepsInv(c, k, l);
    } else {
      FailedCurrent(c, k, l);
    }
  }

  lemma DeferKeepsInv(c: Config, k: TaskKey, now: int, delay: int)
    requires NodeInv(c) && k in c.nodeTasks && c.nodeTasks[k].task.status == Pending
    ensures NodeInv(PutLedger(c, k, c.nodeTasks[k].(task := Deferred(c.nodeTasks[k].task, now, delay))))
  {
    PutKeepsInv(c, k, c.nodeTasks[k].(task := Deferred(c.nodeTasks[k].task, now, delay)));
  }

  lemma StartKeepsInv(c: Config, k: TaskKey, now: int, expiresAt: int, token: int)
    requires NodeInv(c) && k in c.nodeTasks && c.nodeTasks[k].task.status == Pending
    ensures var l' := StartLedger(c.nodeTasks[k], now, expiresAt, token);
      l'.task.attempts !in c.nodeTasks[k].attempts && NodeInv(PutLedger(c, k, l'))
  {
    StartedLedger(k.op, c.nodeTasks[k], now, expiresAt, token);
    PutKeepsInv(c, k, StartLedger(c.nodeTasks[k], now, expiresAt, token));
  }

  lemma PreflightFailureKeepsInv(c: Config, k: TaskKey, now: int, expiresAt: int, token: int, base: int)
    requires NodeInv(c) && k in c.nodeTasks && c.nodeTasks[k].task.status == Pending
    ensures var l' := StartLedger(c.nodeTasks[k], now, expiresAt, token);
      NodeInv(FailOrRetry(PutLedger(c, k, l'), k, l'.task.attempts, None, now, base))
  {
    StartKeepsInv(c, k, now, expiresAt, token);
    var l' := StartLedger(c.nodeTasks[k], now, expiresAt, token);
    FailOrRetryKeepsInv(PutLedger(c, k, l'), k, l'.task.attempts, None, now, base);
  }

  lemma NodePrepareCases(
    c: Config, k: TaskKey, now: int, token: int, node: Option<NodeState>, credential: bool, s: Settings)
    requires k in c.nodeTasks && CanDispatch(c.nodeTasks[k].task, now)
    ensures var r := NodePrepare(c, k, now, token, node, credential, s);
      var l := c.nodeTasks[k];
      var l' := StartLedger(l, now, now + s.nodeLease, token);
      if !NodeAllows(k, node, now, s) then r == PutLedger(c, k, l.(task := Deferred(l.task, now, s.nodeDefer)))
      else if l'.task.attempts in l.attempts then r == c
      else if credential then r == PutLedger(c, k, l')
      else r == FailOrRetry(PutLedger(c, k, l'), k, l'.task.attempts, None, now, s.nodeRetryBase)
  {
    hide FailOrRetry, StartLedger, Deferred, NodeAllows, PutLedger;
  }

  lemma NodePrepareKeepsInv(
    c: Config, k: TaskKey, now: int, token: int, node: Option<NodeState>, credential: bool, s: Settings)
    requires NodeInv(c)
    ensures NodeInv(NodePrepare(c, k, now, token, node, credential, s))
  {
    hide NodeInv;
    if k in c.nodeTasks && CanDispatch(c.nodeTasks[k].task, now) {
      NodePrepareCases(c, k, now, token, node, credential, s);
      if !NodeAllows(k, node, now, s) {
        DeferKeepsInv(c, k, now, s.nodeDefer);
      } else {
        StartKeepsInv(c, k, now, now + s.nodeLease, token);
        if !credential {
          PreflightFailureKeepsInv(c, k, now, now + s.nodeLease, token, s.nodeRetryBase);
        }
      }
    }
  }

  /** The ledger after an accepted answer. */
  function CompletedLedgerOf(l: Ledger, response: Response, n: int, now: int): Ledger {
    Ledger(Completed(l.task, response, now), CloseAttempt(l.attempts, n, true))
  }

  /** An accepted answer of the current task: activation while funded, or revocation. */
  lemma SucceededCurrent(c: Config, k: TaskKey, now: int, n: int, response: Response, funded: bool)
    requires NodeInv(c) && k in c.nodeTasks && c.nodeTasks[k].task.status == InProgress && k == CurrentKey(c.vpn.generation)
    requires LedgerOk(k.op, CompletedLedgerOf(c.nodeTasks[k], response, n, now)) && (k.op == ProvisionClient ==> funded)
    ensures NodeInv(NodeSucceeded(c, k, now, n, response, funded))
  {
    var l := CompletedLedgerOf(c.nodeTasks[k], response, n, now);
    var c' := NodeSucceeded(c, k, now, n, response, funded);
    assert c'.vpn.status == StatusByTask(c.vpn.generation, Succeeded);
    assert c' == PutLedger(c, k, l).(vpn := c'.vpn, audit := c'.audit);
    assert c'.audit[..|c'.audit| - 1] == c.audit;
    CurrentPutKeepsInv(c, k, l, c'.vpn, c'.audit);
    hide NodeInv, NodeSucceeded;
  }

  lemma NodeSuccessKeepsInv(c: Config, k: TaskKey, now: int, n: int, response: Response, funded: bool)
    requires NodeInv(c) && k in c.nodeTasks
    requires c.nodeTasks[k].task.status == InProgress && c.nodeTasks[k].task.attempts == n
    requires Accepts(k.op, response.status)
    ensures NodeInv(NodeSucceeded(c, k, now, n, response, funded))
  {
    CompletedLedger(k.op, c.nodeTasks[k], n, response, now);
    var l := CompletedLedgerOf(c.nodeTasks[k], response, n, now);
    if k != CurrentKey(c.vpn.generation) {
      StalePutKeepsInv(c, k, l);
    } else if k.op == ProvisionClient && !funded {
      ExpiredSuccessKeepsInv(c, k, l, now);
    } else {
      SucceededCurrent(c, k, now, n, response, funded);
    }
  }

  /** Access ended while provisioning ran: the configuration enters generation 2 with its revoke task. */
  lemma ExpiredSuccessKeepsInv(c: Config, k: TaskKey, l: Ledger, now: int)
    requires NodeInv(c) && k == TaskKey(ProvisionClient, 1) && c.vpn.generation == 1 && c.vpn.status == Provisioning
    requires LedgerOk(ProvisionClient, l) && l.task.status == Succeeded
    ensures NodeInv(CompleteProvision(PutLedger(c, k, l), k, false, now))
  {
    var c' := CompleteProvision(PutLedger(c, k, l), k, false, now);
    var r := TaskKey(RevokeClient, 2);
    assert !KnownKey(c, r);
    forall j ensures j in c'.nodeTasks <==> KnownKey(c', j) {
      assert j in c.nodeTasks <==> KnownKey(c, j);
    }
  }

  /** The rows after an accepted answer. */
  function NodeSucceeded(c: Config, k: TaskKey, now: int, n: int, response: Response, funded: bool): Config
    requires k in c.nodeTasks
  {
    var done := PutLedger(c, k, CompletedLedgerOf(c.nodeTasks[k], response, n, now));
    if k.op == ProvisionClient then CompleteProvision(done, k, funded, now) else CompleteRevoke(done, k, now)
  }

  lemma NodeFinalizeCases(
    c: Config, k: TaskKey, now: int, token: int, n: int, answer: NodeAnswer, funded: bool, s: Settings)
    requires k in c.nodeTasks && OwnsActiveLease(c.nodeTasks[k].task, token, now, n)
    ensures NodeFinalize(c, k, now, token, n, answer, funded, s) ==
      if answer.Answered? && answer.response.Some? && Accepts(k.op, answer.response.value.status)
      then NodeSucceeded(c, k, now, n, answer.response.value, funded)
      else FailOrRetry(c, k, n, if answer.TransportError? then None else answer.response, now, s.nodeRetryBase)
  {
    hide FailOrRetry, CompleteProvision, CompleteRevoke, PutLedger, Completed, CloseAttempt;
  }

  lemma NodeFinalizeKeepsInv(
    c: Config, k: TaskKey, now: int, token: int, n: int, answer: NodeAnswer, funded: bool, s: Settings)
    requires NodeInv(c)
    ensures NodeInv(NodeFinalize(c, k, now, token, n, answer, funded, s))
  {
    hide NodeInv;
    if k in c.nodeTasks && OwnsActiveLease(c.nodeTasks[k].task, token, now, n) {
      NodeFinalizeCases(c, k, now, token, n, answer, funded, s);
      hide NodeFinalize, FailOrRetry, NodeSucceeded;
      if answer.Answered? && answer.response.Some? && Accepts(k.op, answer.response.value.status) {
        NodeSuccessKeepsInv(c, k, now, n, answer.response.value, funded);
      } else {
        FailOrRetryKeepsInv(c, k, n, if answer.TransportError? then None else answer.response, now, s.nodeRetryBase);
      }
    }
  }

  lemma NodeRecoverKeepsInv(c: Config, k: TaskKey, now: int, s: Settings)
    requires NodeInv(c)
    ensures NodeInv(NodeRecover(c, k, now, s))
  {
    if k in c.nodeTasks && LeaseExpired(c.nodeTasks[k].task, now) {
      FailOrRetryKeepsInv(c, k, c.nodeTasks[k].task.attempts, None, now, s.nodeRetryBase);
      assert NodeRecover(c, k, now, s)
          == FailOrRetry(c, k, c.nodeTasks[k].task.attempts, None, now, s.nodeRetryBase);
    }
  }

  /** Opening generation g+1 together with its revoke task. */
  lemma NewGenerationKeepsInv(c: Config, v: VpnRow, maxAttempts: int, now: int)
    requires NodeInv(c) && maxAttempts > 0
    requires c.vpn.status == Active || c.vpn.status == Provisioning || c.vpn.status == Failed || c.vpn.status == RevokeFailed
    requires v.generation == c.vpn.generation + 1 && v.desired == WantRevoked && v.status == Revoking
    ensures NodeInv(AddNodeTask(c.(vpn := v), TaskKey(RevokeClient, v.generation), maxAttempts, now))
  {
    var k := TaskKey(RevokeClient, v.generation);
    assert !KnownKey(c, k);
    var c' := PutLedger(c.(vpn := v), k, Ledger(NewTask(maxAttempts, now), map[]));
    forall j ensures j in c'.nodeTasks <==> KnownKey(c', j) {
      assert j in c.nodeTasks <==> KnownKey(c, j);
    }
    forall j | j in c'.nodeTasks && j.op == RevokeClient && j.generation < v.generation
      ensures c'.nodeTasks[j].task.status == TaskFailed
    {
      assert KnownKey(c, j);
      if j.generation == c.vpn.generation {
        assert j == CurrentKey(c.vpn.generation);
      }
    }
  }

  lemma NodeRevokePlanKeepsInv(c: Config, now: int, s: Settings)
    requires NodeInv(c)
    ensures NodeInv(RevokePlan(c, now, s))
  {
    if c.vpn.status == Revoking {
      assert KnownKey(c, TaskKey(RevokeClient, c.vpn.generation));
    } else if c.vpn.status != Revoked {
      NewGenerationKeepsInv(c, RevokeRequested(c.vpn), s.nodeMaxAttempts, now);
    }
  }

  // ---------------------------------------------------------------- panel path

  /** Revoke rows stay good as long as their configuration keeps its generation and status, or leaves generation 1. */
  lemma RevokeRowsKept(c: Config, c': Config)
    requires PanelInv(c) && c'.panelRevokes == c.panelRevokes
    requires (c'.vpn.generation == c.vpn.generation && c'.vpn.status == c.vpn.status) || c.vpn.generation == 1 <= c'.vpn.generation
    ensures forall g :: g in c'.panelRevokes ==> PanelRevokeOk(c', g, c'.panelRevokes[g])
  {
    forall g | g in c'.panelRevokes ensures PanelRevokeOk(c', g, c'.panelRevokes[g]) {
      assert PanelRevokeOk(c, g, c.panelRevokes[g]);
    }
  }

  lemma PanelTaskStepKeepsInv(c: Config, w: Work, now: int, funded: bool, s: Settings)
    requires PanelInv(c)
    requires w.PanelPrepares? || w.PanelCompensationFails? || w.PanelRecovers?
    ensures PanelInv(Perform(c, w, now, funded, s))
  {
    RevokeRowsKept(c, Perform(c, w, now, funded, s));
    hide PanelRevokeOk;
  }

  lemma PanelFinalizationKeepsInv(c: Config, w: Work, now: int, funded: bool, s: Settings)
    requires PanelInv(c)
    requires w.PanelSucceeds? || w.PanelFails?
    ensures PanelInv(Perform(c, w, now, funded, s))
  {
    RevokeRowsKept(c, Perform(c, w, now, funded, s));
    hide PanelRevokeOk;
  }

  /** Panel provision transactions touch the provision task and the configuration, never the revoke rows. */
  lemma PanelProvisionKeepsInv(c: Config, w: Work, now: int, funded: bool, s: Settings)
    requires PanelInv(c)
    requires w.PanelPrepares? || w.PanelSucceeds? || w.PanelFails? || w.PanelCompensationFails? || w.PanelRecovers?
    ensures PanelInv(Perform(c, w, now, funded, s))
  {
    hide PanelInv, Perform;
    if w.PanelSucceeds? || w.PanelFails? { PanelFinalizationKeepsInv(c, w, now, funded, s); }
    else { PanelTaskStepKeepsInv(c, w, now, funded, s); }
  }

  lemma PanelCompensatedKeepsInv(c: Config, now: int, token: int, n: int)
    requires PanelInv(c)
    ensures PanelInv(PanelCompensated(c, now, token, n))
  {
    var c' := PanelCompensated(c, now, token, n);
    forall g | g in c'.panelRevokes ensures PanelRevokeOk(c', g, c'.panelRevokes[g]) {
      assert PanelRevokeOk(c, g, c.panelRevokes[g]);
    }
    if c'.audit != c.audit {
      assert c'.audit[..|c'.audit| - 1] == c.audit;
    }
  }

  lemma PanelRevokeTaskStepKeepsInv(c: Config, w: Work, now: int, funded: bool, s: Settings)
    requires PanelInv(c)
    requires w.PanelRevokePrepares? || w.PanelRevokeRecovers?
    ensures PanelInv(Perform(c, w, now, funded, s))
  {
    var c' := Perform(c, w, now, funded, s);
    forall g | g in c'.panelRevokes ensures PanelRevokeOk(c', g, c'.panelRevokes[g]) {
      assert PanelRevokeOk(c, g, c.panelRevokes[g]);
    }
    hide PanelRevokeOk;
  }

  lemma PanelRevokeSuccessKeepsInv(c: Config, g: int, now: int, token: int, n: int)
    requires PanelInv(c)
    ensures PanelInv(PanelRevokeSuccess(c, g, now, token, n))
  {
    var c' := PanelRevokeSuccess(c, g, now, token, n);
    forall h | h in c'.panelRevokes ensures PanelRevokeOk(c', h, c'.panelRevokes[h]) {
      assert PanelRevokeOk(c, h, c.panelRevokes[h]);
    }
    if c'.audit != c.audit {
      assert c'.audit[..|c'.audit| - 1] == c.audit;
    }
    hide PanelRevokeOk;
  }

  lemma PanelRevokeFailureKeepsInv(c: Config, g: int, now: int, token: int, n: int, s: Settings)
    requires PanelInv(c)
    ensures PanelInv(PanelRevokeFailure(c, g, now, token, n, s))
  {
    var c' := PanelRevokeFailure(c, g, now, token, n, s);
    forall h | h in c'.panelRevokes ensures PanelRevokeOk(c', h, c'.panelRevokes[h]) {
      assert PanelRevokeOk(c, h, c.panelRevokes[h]);
    }
    hide PanelRevokeOk;
  }

  lemma PanelRevocationKeepsInv(c: Config, w: Work, now: int, funded: bool, s: Settings)
    requires PanelInv(c)
    requires w.PanelRevokePrepares? || w.PanelRevokeSucceeds? || w.PanelRevokeFails? || w.PanelRevokeRecovers?
    ensures PanelInv(Perform(c, w, now, funded, s))
  {
    hide PanelInv, PanelRevokeSuccess, PanelRevokeFailure;
    match w
    case PanelRevokeSucceeds(g, token, n) => PanelRevokeSuccessKeepsInv(c, g, now, token, n);
    case PanelRevokeFails(g, token, n) => PanelRevokeFailureKeepsInv(c, g, now, token, n, s);
    case _ => PanelRevokeTaskStepKeepsInv(c, w, now, funded, s);
  }

  lemma PanelRevokePlanKeepsInv(c: Config, now: int, s: Settings)
    requires PanelInv(c)
    ensures PanelInv(RevokePlan(c, now, s))
  {
    var c' := RevokePlan(c, now, s);
    forall g | g in c'.panelRevokes ensures PanelRevokeOk(c', g, c'.panelRevokes[g]) {
      assert g in c.panelRevokes ==> PanelRevokeOk(c, g, c.panelRevokes[g]);
    }
    hide PanelRevokeOk;
  }

  // ---------------------------------------------------------------- every transaction

  lemma WorkKeepsInv(c: Config, w: Work, now: int, funded: bool, s: Settings)
    requires ConfigInv(c)
    ensures ConfigInv(Perform(c, w, now, funded, s))
  {
    if c.node.Some? {
      match w
      case NodePrepares(k, token, node, credential) => NodePrepareKeepsInv(c, k, now, token, node, credential, s);
      case NodeFinalizes(k, token, n, answer) => NodeFinalizeKeepsInv(c, k, now, token, n, answer, funded, s);
      case NodeRecovers(k) => NodeRecoverKeepsInv(c, k, now, s);
      case _ =>
    } else {
      match w
      case PanelPrepares(_) => PanelProvisionKeepsInv(c, w, now, funded, s);
      case PanelSucceeds(_, _) => PanelProvisionKeepsInv(c, w, now, funded, s);
      case PanelFails(_, _) => PanelProvisionKeepsInv(c, w, now, funded, s);
      case PanelCompensationFails(_, _) => PanelProvisionKeepsInv(c, w, now, funded, s);
      case PanelRecovers => PanelProvisionKeepsInv(c, w, now, funded, s);
      case PanelCompensates(token, n) => PanelCompensatedKeepsInv(c, now, token, n);
      case NodePrepares(_, _, _, _) =>
      case NodeFinalizes(_, _, _, _) =>
      case NodeRecovers(_) =>
      case _ => PanelRevocationKeepsInv(c, w, now, funded, s);
    }
  }

  lemma RevokePlanKeepsInv(c: Config, now: int, s: Settings)
    requires ConfigInv(c)
    ensures ConfigInv(RevokePlan(c, now, s))
  {
    if c.node.Some? { NodeRevokePlanKeepsInv(c, now, s); } else { PanelRevokePlanKeepsInv(c, now, s); }
  }

  lemma FreshConfigInv(subscription: int, endpoint: int, node: Option<int>, now: int, s: Settings)
    ensures ConfigInv(FreshConfig(subscription, endpoint, node, now, s))
  {
  }

  /** The repair branches of a repeated provisioning request have nothing to repair. */
  lemma ReuseIsNoOp(c: Config, now: int, s: Settings)
    requires ConfigInv(c) && c.vpn.status == Provisioning
    ensures ReuseProvisioning(c, now, s) == c
  {
  }
}
