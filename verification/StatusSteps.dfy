/**
 Exactly when a step of a run makes a configuration REVOKED or ACTIVE, on either path. The conditions
 are written out on the rows before the step.
 */
module StatusSteps {
  import opened Common
  import opened VpnEntity
  import opened NodeTaskEntity
  import opened PanelTaskEntity
  import opened NodeSelection
  import opened Transactions
  import opened Lifecycle
  import opened ControlPlane
  import opened ControlPlaneSafety
  import opened ConfigSteps
  import opened NodeTaskSteps

  // ---------------------------------------------------------------- revoked configurations

  /**
   The transaction completes the revoke of a REVOKING configuration: its current task is reported as
   done, or the panel has removed what a cancelled provisioning had left.
   */
  predicate CompletesRevocation(c: Config, work: Work, now: int) {
    && c.vpn.status == Revoking
    && (|| EndsWell(c, work, now, TaskKey(RevokeClient, c.vpn.generation))
        || (work.PanelRevokeSucceeds? && work.generation == c.vpn.generation && work.generation in c.panelRevokes
            && PanelHoldsLive(c.panelRevokes[work.generation], work.token, work.attemptNo, now))
        || (work.PanelCompensates? && c.panelTask.Some? && PanelHolds(c.panelTask.value, work.token, work.attemptNo)
            && c.vpn.generation == 2))
  }

  ghost predicate BecomesRevoked(c: Config, c': Config, now: int) {
    c'.vpn.status == Revoked && c'.vpn.revokedAt == Some(now) && c'.audit == c.audit + [RevokedAudit(now)]
  }

  lemma FailOrRetryNeverRevokes(c: Config, k: TaskKey, n: int, response: Option<Response>, now: int, base: int)
    requires k in c.nodeTasks && c.vpn.status != Revoked
    ensures FailOrRetry(c, k, n, response, now, base).vpn.status != Revoked
  {
    hide Backoff;
  }

  lemma SucceededRevokes(c: Config, k: TaskKey, now: int, n: int, r: Response, paid: bool)
    requires NodeInv(c) && k in c.nodeTasks && c.vpn.status != Revoked
    ensures var c' := NodeSucceeded(c, k, now, n, r, paid);
      if c.vpn.status == Revoking && k == TaskKey(RevokeClient, c.vpn.generation) then BecomesRevoked(c, c', now)
      else c'.vpn.status != Revoked
  {
    assert KnownKey(c, k);
  }

  lemma NodeFinalizeRevokes(c: Config, k: TaskKey, now: int, token: int, n: int, answer: NodeAnswer, paid: bool, s: Settings)
    requires NodeInv(c) && c.vpn.status != Revoked
    ensures var c' := NodeFinalize(c, k, now, token, n, answer, paid, s);
      if CompletesRevocation(c, NodeFinalizes(k, token, n, answer), now) then BecomesRevoked(c, c', now) else c'.vpn.status != Revoked
  {
    hide NodeFinalize, FailOrRetry, NodeSucceeded, NodeInv, BecomesRevoked, IsSuccess, Accepts;
    SuccessIsAccepted(k.op, answer);
    if k in c.nodeTasks && OwnsActiveLease(c.nodeTasks[k].task, token, now, n) {
      NodeFinalizeCases(c, k, now, token, n, answer, paid, s);
      if IsSuccess(k.op, answer) { SucceededRevokes(c, k, now, n, answer.response.value, paid); }
      else { FailOrRetryNeverRevokes(c, k, n, if answer.TransportError? then None else answer.response, now, s.nodeRetryBase); }
    } else {
      IdleFinalize(c, k, now, token, n, answer, paid, s);
    }
  }

  lemma NodePrepareNeverRevokes(
    c: Config, k: TaskKey, now: int, token: int, node: Option<NodeState>, credential: bool, s: Settings)
    requires c.vpn.status != Revoked
    ensures NodePrepare(c, k, now, token, node, credential, s).vpn.status != Revoked
  {
    hide NodePrepare, FailOrRetry, NodeAllows;
    if k in c.nodeTasks && CanDispatch(c.nodeTasks[k].task, now) {
      NodePrepareCases(c, k, now, token, node, credential, s);
      var l' := StartLedger(c.nodeTasks[k], now, now + s.nodeLease, token);
      FailOrRetryNeverRevokes(PutLedger(c, k, l'), k, l'.task.attempts, None, now, s.nodeRetryBase);
    } else {
      IdlePrepare(c, k, now, token, node, credential, s);
    }
  }

  lemma PanelWorkRevokes(c: Config, work: Work, now: int, paid: bool, s: Settings)
    requires PanelInv(c) && c.vpn.status != Revoked
    ensures var c' := Perform(c, work, now, paid, s);
      if CompletesRevocation(c, work, now) then BecomesRevoked(c, c', now) else c'.vpn.status != Revoked
  {
    assert Shape(c.vpn) && c.panelTask.Some? && c.panelTask.value.generation == 1 && c.nodeTasks == map[];
    hide PanelInv, Backoff;
  }

  lemma NodeWorkRevokes(c: Config, work: Work, now: int, paid: bool, s: Settings)
    requires NodeInv(c) && c.vpn.status != Revoked
    ensures var c' := Perform(c, work, now, paid, s);
      if CompletesRevocation(c, work, now) then BecomesRevoked(c, c', now) else c'.vpn.status != Revoked
  {
    hide NodePrepare, NodeFinalize, BecomesRevoked, Backoff;
    assert c.panelTask.None? && c.panelRevokes == map[];
    hide NodeInv;
    match work
    case NodePrepares(k, token, node, credential) => NodePrepareNeverRevokes(c, k, now, token, node, credential, s);
    case NodeFinalizes(k, token, n, answer) => NodeFinalizeRevokes(c, k, now, token, n, answer, paid, s);
    case _ =>
  }

  lemma PlanNeverRevokes(c: Config, now: int, s: Settings)
    requires ConfigInv(c) && c.vpn.status != Revoked
    ensures RevokePlan(c, now, s).vpn.status != Revoked
  {
    if c.node.Some? && c.vpn.generation > 1 { assert KnownKey(c, TaskKey(RevokeClient, c.vpn.generation)); }
    if c.node.None? && c.vpn.generation in c.panelRevokes {
      assert PanelRevokeOk(c, c.vpn.generation, c.panelRevokes[c.vpn.generation]);
    }
  }

  /** In every run, a configuration becomes REVOKED exactly when its current revoke, or the cleanup of a cancelled provisioning, is done. */
  lemma RevokedExactlyWhen(steps: seq<Step>, step: Step, s: Settings, i: int)
    requires 0 <= i < |Run(steps, s).configs| && Run(steps, s).configs[i].vpn.status != Revoked
    ensures i < |Run(steps + [step], s).configs|
    ensures var c, c' := Run(steps, s).configs[i], Run(steps + [step], s).configs[i];
      && (c'.vpn.status == Revoked <==> OnConfig(step, i) && CompletesRevocation(c, step.work, step.now))
      && (c'.vpn.status == Revoked ==> BecomesRevoked(c, c', step.now))
  {
    hide NodeInv, PanelInv, ControlPlane.Apply, Perform, RevokePlan, PaidAt, HasAccess, CompletesRevocation;
    RunInv(steps, s);
    assert (steps + [step])[..|steps|] == steps;
    var w := Run(steps, s);
    var c := w.configs[i];
    assert ConfigInv(c);
    StepOnConfig(w, step, s, i);
    hide Inv, Run;
    if OnConfig(step, i) {
      var paid := PaidAt(w, c.subscription, step.now);
      if c.node.Some? { NodeWorkRevokes(c, step.work, step.now, paid, s); } else { PanelWorkRevokes(c, step.work, step.now, paid, s); }
    } else if step.RequestRevoke? { PlanNeverRevokes(c, step.now, s); }
  }

  // ---------------------------------------------------------------- activated configurations

  /** The transaction reports the provisioning of a PROVISIONING configuration as done while a paid period is current. */
  predicate CompletesProvisioning(c: Config, work: Work, now: int, paid: bool) {
    && c.vpn.status == Provisioning && paid
    && (|| EndsWell(c, work, now, TaskKey(ProvisionClient, 1))
        || (work.PanelSucceeds? && c.panelTask.Some? && PanelHoldsLive(c.panelTask.value, work.token, work.attemptNo, now)))
  }

  /** ACTIVE with its activation on the trail; a reference the node sent is kept unless it is blank. */
  ghost predicate BecomesActive(c: Config, c': Config, work: Work, now: int) {
    && c'.vpn.status == Active && c'.vpn.generation == c.vpn.generation && c'.audit == c.audit + [ActivatedAudit(now)]
    && (var ref := if work.NodeFinalizes? && work.answer.Answered? && work.answer.response.Some?
                   then work.answer.response.value.remoteRef else None;
        c'.vpn.remoteRef == if ref.Some? && |ref.value| > 0 then ref else c.vpn.remoteRef)
  }

  lemma SucceededActivates(c: Config, k: TaskKey, now: int, token: int, n: int, answer: NodeAnswer, paid: bool)
    requires NodeInv(c) && k in c.nodeTasks && c.vpn.status == Provisioning && answer.Answered? && answer.response.Some?
    ensures var c' := NodeSucceeded(c, k, now, n, answer.response.value, paid);
      k == TaskKey(ProvisionClient, 1) && paid ==> BecomesActive(c, c', NodeFinalizes(k, token, n, answer), now)
  {
  }

  lemma WorkActivatesFully(c: Config, work: Work, now: int, paid: bool, s: Settings)
    requires ConfigInv(c) && CompletesProvisioning(c, work, now, paid)
    ensures BecomesActive(c, Perform(c, work, now, paid, s), work, now)
  {
    if work.NodeFinalizes? {
      hide NodeFinalize, NodeSucceeded, NodeInv, BecomesActive, IsSuccess, Accepts;
      assert c.node.Some? by { NodeTaskMeansNode(c, work.key); }
      SuccessIsAccepted(work.key.op, work.answer);
      NodeFinalizeCases(c, work.key, now, work.token, work.attemptNo, work.answer, paid, s);
      SucceededActivates(c, work.key, now, work.token, work.attemptNo, work.answer, paid);
    } else {
      assert c.node.None?;
      hide Trail, PanelRevokeOk;
    }
  }

  lemma NodeTaskMeansNode(c: Config, k: TaskKey)
    requires ConfigInv(c) && k in c.nodeTasks
    ensures c.node.Some?
  {
  }

  lemma ActivatesByCompletion(c: Config, work: Work, now: int, paid: bool)
    requires ConfigInv(c) && c.vpn.status != Active
    ensures WorkActivates(c, work, now, paid) <==> CompletesProvisioning(c, work, now, paid)
  {
    if work.NodeFinalizes? && work.key in c.nodeTasks { assert c.node.Some? && KnownKey(c, work.key); }
  }

  /** In every run, a configuration becomes ACTIVE exactly when its provisioning is reported as done while a paid period is current. */
  lemma ActivatedExactlyWhen(steps: seq<Step>, step: Step, s: Settings, i: int)
    requires 0 <= i < |Run(steps, s).configs| && Run(steps, s).configs[i].vpn.status != Active
    ensures i < |Run(steps + [step], s).configs|
    ensures var w, c' := Run(steps, s), Run(steps + [step], s).configs[i];
      var c := w.configs[i];
      && (c'.vpn.status == Active <==>
            OnConfig(step, i) && CompletesProvisioning(c, step.work, step.now, PaidAt(w, c.subscription, step.now)))
      && (c'.vpn.status == Active ==> BecomesActive(c, c', step.work, step.now))
  {
    hide ConfigInv, ControlPlane.Apply, Perform, RevokePlan, CompletesProvisioning, BecomesActive, WorkActivates;
    RunInv(steps, s);
    assert (steps + [step])[..|steps|] == steps;
    var w := Run(steps, s);
    var c := w.configs[i];
    assert ConfigInv(c);
    StepOnConfig(w, step, s, i);
    ActivatesExactlyWhen(steps, step, s, i);
    hide Inv, Run;
    if OnConfig(step, i) {
      var paid := PaidAt(w, c.subscription, step.now);
      PaidIsFunded(w, c.subscription, step.now);
      hide PaidAt, SubFunded;
      ActivatesByCompletion(c, step.work, step.now, paid);
      if CompletesProvisioning(c, step.work, step.now, paid) { WorkActivatesFully(c, step.work, step.now, paid, s); }
    }
  }
}
