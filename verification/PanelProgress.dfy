/**
 How far panel tasks respect their attempt limit. A provisioning attempt never exceeds it; only a
 compensation owed to a lost or late attempt may, and on the revoke side only a recovered lease.
 */
module PanelProgress {
  import opened Common
  import opened VpnEntity
  import opened NodeTaskEntity
  import opened PanelTaskEntity
  import opened NodeSelection
  import opened Transactions
  import opened Lifecycle
  import opened ControlPlane
  import opened ControlPlaneSafety

  // ---------------------------------------------------------------- provision tasks

  /** Without the compensation flag, a pending task has an attempt left and a running one is within the limit. */
  ghost predicate WithinLimit(t: PanelRow) {
    && (t.status == Pending && !t.compensation ==> t.attempts < t.maxAttempts)
    && (t.status == InProgress && !t.compensation ==> t.attempts <= t.maxAttempts)
  }

  ghost predicate ProvisionWithinLimit(c: Config) {
    c.panelTask.Some? ==> WithinLimit(c.panelTask.value)
  }

  lemma PanelTaskStepWithinLimit(c: Config, work: Work, now: int, funded: bool, s: Settings)
    requires ProvisionWithinLimit(c) && !work.NodePrepares? && !work.NodeFinalizes? && !work.NodeRecovers?
    ensures ProvisionWithinLimit(Perform(c, work, now, funded, s))
  {
  }

  lemma FailOrRetryKeepsPanelTask(c: Config, k: TaskKey, n: int, response: Option<Response>, now: int, base: int)
    requires k in c.nodeTasks
    ensures FailOrRetry(c, k, n, response, now, base).panelTask == c.panelTask
    ensures FailOrRetry(c, k, n, response, now, base).panelRevokes == c.panelRevokes
  {
  }

  lemma NodeWorkKeepsPanelTasks(c: Config, work: Work, now: int, funded: bool, s: Settings)
    requires work.NodePrepares? || work.NodeFinalizes? || work.NodeRecovers?
    ensures var c' := Perform(c, work, now, funded, s); c'.panelTask == c.panelTask && c'.panelRevokes == c.panelRevokes
  {
    match work
    case NodePrepares(k, token, node, credential) =>
      if k in c.nodeTasks && CanDispatch(c.nodeTasks[k].task, now) {
        NodePrepareCases(c, k, now, token, node, credential, s);
        var l' := StartLedger(c.nodeTasks[k], now, now + s.nodeLease, token);
        FailOrRetryKeepsPanelTask(PutLedger(c, k, l'), k, l'.task.attempts, None, now, s.nodeRetryBase);
        hide FailOrRetry, NodePrepare, StartLedger;
      }
    case NodeFinalizes(k, token, n, answer) =>
      if k in c.nodeTasks && OwnsActiveLease(c.nodeTasks[k].task, token, now, n) {
        NodeFinalizeCases(c, k, now, token, n, answer, funded, s);
        FailOrRetryKeepsPanelTask(c, k, n, if answer.TransportError? then None else answer.response, now, s.nodeRetryBase);
        hide FailOrRetry, NodeFinalize;
      }
    case NodeRecovers(k) => hide Retried;
  }

  lemma WorkWithinLimit(c: Config, work: Work, now: int, funded: bool, s: Settings)
    requires ProvisionWithinLimit(c)
    ensures ProvisionWithinLimit(Perform(c, work, now, funded, s))
  {
    hide Perform, WithinLimit;
    if work.NodePrepares? || work.NodeFinalizes? || work.NodeRecovers? { NodeWorkKeepsPanelTasks(c, work, now, funded, s); }
    else { PanelTaskStepWithinLimit(c, work, now, funded, s); }
  }

  lemma RevokePlanKeepsPanelTask(c: Config, now: int, s: Settings)
    ensures RevokePlan(c, now, s).panelTask == c.panelTask
  {
  }

  lemma FreshWithinLimit(sub: int, endpoint: int, node: Option<int>, now: int, s: Settings)
    ensures ProvisionWithinLimit(FreshConfig(sub, endpoint, node, now, s))
  {
  }

  ghost predicate AllWithinLimit(w: World) {
    forall i :: 0 <= i < |w.configs| ==> ProvisionWithinLimit(w.configs[i])
  }

  lemma StepWithinLimit(w: World, step: Step, s: Settings)
    requires Inv(w) && AllWithinLimit(w)
    ensures AllWithinLimit(Apply(w, step, s))
  {
    hide ConfigInv, Perform, RevokePlan, ProvisionWithinLimit, FreshConfig, SelectEndpoint;
    match step
    case WorkerCommits(i, work, now) =>
      if 0 <= i < |w.configs| { WorkWithinLimit(w.configs[i], work, now, SubFunded(w, w.configs[i].subscription, now), s); }
    case RequestRevoke(i, reason, now) =>
      if 0 <= i < |w.configs| { RevokePlanWithinLimit(w.configs[i], now, s); }
    case RequestProvision(sub, now, snapshot, ticket, panelEndpoint) =>
      if TicketDrawn(snapshot, ticket, now, s.staleAfter) {
        var plan := PlanProvision(w, sub, now);
        if plan.Reuse? { ReuseIsNoOp(w.configs[plan.config], now, s); }
        if plan.Create? {
          var place := SelectEndpoint(w, snapshot, ticket, panelEndpoint, now, s);
          if place.At? { FreshWithinLimit(sub, place.endpoint, place.node, now, s); }
        }
      }
    case EntitlementsChange(subs) =>
    case FleetChange(fleet) =>
  }

  lemma RevokePlanWithinLimit(c: Config, now: int, s: Settings)
    requires ProvisionWithinLimit(c)
    ensures ProvisionWithinLimit(RevokePlan(c, now, s))
  {
    RevokePlanKeepsPanelTask(c, now, s);
    hide RevokePlan, WithinLimit;
  }

  lemma {:induction false} RunWithinLimit(steps: seq<Step>, s: Settings)
    ensures AllWithinLimit(Run(steps, s))
  {
    if steps != [] {
      RunWithinLimit(steps[..|steps| - 1], s);
      RunInv(steps[..|steps| - 1], s);
      hide AllWithinLimit, Apply, Inv;
      StepWithinLimit(Run(steps[..|steps| - 1], s), steps[|steps| - 1], s);
    }
  }

  /** In every run, an attempt of a provision task that is not a compensation is within the limit, and so is the next one. */
  lemma ProvisionAttemptsBounded(steps: seq<Step>, s: Settings, i: int)
    requires 0 <= i < |Run(steps, s).configs| && Run(steps, s).configs[i].panelTask.Some?
    ensures var t := Run(steps, s).configs[i].panelTask.value;
      && (t.status == Pending && !t.compensation ==> t.attempts < t.maxAttempts)
      && (t.status == InProgress && !t.compensation ==> t.attempts <= t.maxAttempts)
  {
    RunWithinLimit(steps, s);
    assert ProvisionWithinLimit(Run(steps, s).configs[i]);
  }

  /** A provision task that goes into progress with an attempt number above its limit. */
  ghost predicate LeasedAboveLimit(c: Config, c': Config) {
    && c.panelTask.Some? && c'.panelTask.Some?
    && c.panelTask.value.status != InProgress && c'.panelTask.value.status == InProgress
    && c'.panelTask.value.maxAttempts < c'.panelTask.value.attempts
  }

  /** The step prepares a due provision task that owes a compensation and has no attempt left. */
  predicate CompensatesAboveLimit(w: World, step: Step, i: int) {
    && step.WorkerCommits? && step.config == i && step.work.PanelPrepares? && 0 <= i < |w.configs|
    && w.configs[i].panelTask.Some?
    && (var t := w.configs[i].panelTask.value;
        PanelCanDispatch(t, step.now) && t.compensation && t.maxAttempts <= t.attempts)
  }

  lemma WorkAboveLimit(c: Config, work: Work, now: int, funded: bool, s: Settings)
    requires ProvisionWithinLimit(c)
    ensures LeasedAboveLimit(c, Perform(c, work, now, funded, s)) <==>
      (work.PanelPrepares? && c.panelTask.Some? && PanelCanDispatch(c.panelTask.value, now)
       && c.panelTask.value.compensation && c.panelTask.value.maxAttempts <= c.panelTask.value.attempts)
  {
    if work.NodePrepares? || work.NodeFinalizes? || work.NodeRecovers? {
      NodeWorkKeepsPanelTasks(c, work, now, funded, s);
      hide Perform;
    }
  }

  /** In every run, a provision lease above the limit is granted if and only if the task is due, pending, flagged and exhausted. */
  lemma AboveLimitExactlyWhen(steps: seq<Step>, step: Step, s: Settings, i: int)
    requires 0 <= i < |Run(steps, s).configs|
    ensures i < |Run(steps + [step], s).configs|
    ensures LeasedAboveLimit(Run(steps, s).configs[i], Run(steps + [step], s).configs[i])
      <==> CompensatesAboveLimit(Run(steps, s), step, i)
  {
    var w := Run(steps, s);
    var c := w.configs[i];
    RunInv(steps, s);
    RunWithinLimit(steps, s);
    assert ProvisionWithinLimit(c);
    assert (steps + [step])[..|steps|] == steps;
    match step
    case WorkerCommits(j, work, now) =>
      WorkAboveLimit(c, work, now, SubFunded(w, c.subscription, now), s);
      hide Perform, Inv;
    case RequestRevoke(j, reason, now) =>
      RevokePlanKeepsPanelTask(c, now, s);
      hide RevokePlan, Inv;
    case RequestProvision(sub, now, snapshot, ticket, panelEndpoint) =>
      if TicketDrawn(snapshot, ticket, now, s.staleAfter) {
        ProvisionKeepsConfigs(w, sub, now, snapshot, ticket, panelEndpoint, s, i);
      }
      hide Provision, Inv;
    case EntitlementsChange(subs) =>
    case FleetChange(fleet) =>
  }

  // ---------------------------------------------------------------- revoke tasks

  /** The revoke task of generation `g` waits for an attempt above its limit. */
  ghost predicate RevokeOverLimit(c: Config, g: int) {
    g in c.panelRevokes && c.panelRevokes[g].status == Pending && c.panelRevokes[g].maxAttempts <= c.panelRevokes[g].attempts
  }

  /** The step recovers the expired lease of the task's last allowed attempt, or of a later one. */
  predicate RecoversLastAttempt(w: World, step: Step, i: int, g: int) {
    && step.WorkerCommits? && step.config == i && step.work == PanelRevokeRecovers(g) && 0 <= i < |w.configs|
    && g in w.configs[i].panelRevokes
    && PanelLeaseExpired(w.configs[i].panelRevokes[g], step.now)
    && w.configs[i].panelRevokes[g].maxAttempts <= w.configs[i].panelRevokes[g].attempts
  }

  lemma WorkOverLimit(c: Config, work: Work, now: int, funded: bool, s: Settings, g: int)
    requires !RevokeOverLimit(c, g)
    ensures RevokeOverLimit(Perform(c, work, now, funded, s), g) <==>
      (work == PanelRevokeRecovers(g) && g in c.panelRevokes && PanelLeaseExpired(c.panelRevokes[g], now)
       && c.panelRevokes[g].maxAttempts <= c.panelRevokes[g].attempts)
  {
    if work.NodePrepares? || work.NodeFinalizes? || work.NodeRecovers? {
      NodeWorkKeepsPanelTasks(c, work, now, funded, s);
      hide Perform;
    }
  }

  lemma RevokePlanNeverOverLimit(c: Config, now: int, s: Settings, g: int)
    requires !RevokeOverLimit(c, g)
    ensures !RevokeOverLimit(RevokePlan(c, now, s), g)
  {
  }

  /** In every run, a revoke task comes to wait for an attempt above its limit if and only if its last lease is recovered. */
  lemma RevokeOverLimitExactlyWhen(steps: seq<Step>, step: Step, s: Settings, i: int, g: int)
    requires 0 <= i < |Run(steps, s).configs| && !RevokeOverLimit(Run(steps, s).configs[i], g)
    ensures i < |Run(steps + [step], s).configs|
    ensures RevokeOverLimit(Run(steps + [step], s).configs[i], g) <==> RecoversLastAttempt(Run(steps, s), step, i, g)
  {
    var w := Run(steps, s);
    var c := w.configs[i];
    RunInv(steps, s);
    assert (steps + [step])[..|steps|] == steps;
    match step
    case WorkerCommits(j, work, now) =>
      WorkOverLimit(c, work, now, SubFunded(w, c.subscription, now), s, g);
      hide Perform, Inv;
    case RequestRevoke(j, reason, now) =>
      RevokePlanNeverOverLimit(c, now, s, g);
      hide RevokePlan, Inv;
    case RequestProvision(sub, now, snapshot, ticket, panelEndpoint) =>
      if TicketDrawn(snapshot, ticket, now, s.staleAfter) {
        ProvisionKeepsConfigs(w, sub, now, snapshot, ticket, panelEndpoint, s, i);
      }
      hide Provision, Inv;
    case EntitlementsChange(subs) =>
    case FleetChange(fleet) =>
  }

  ghost predicate RevokeLeasedAboveLimit(c: Config, c': Config, g: int) {
    && g in c.panelRevokes && g in c'.panelRevokes
    && c.panelRevokes[g].status != InProgress && c'.panelRevokes[g].status == InProgress
    && c'.panelRevokes[g].maxAttempts < c'.panelRevokes[g].attempts
  }

  lemma WorkRevokeLeases(c: Config, work: Work, now: int, funded: bool, s: Settings, g: int)
    ensures RevokeLeasedAboveLimit(c, Perform(c, work, now, funded, s), g) <==>
      (work.PanelRevokePrepares? && work.generation == g && RevokeOverLimit(c, g) && PanelCanDispatch(c.panelRevokes[g], now))
  {
    if work.NodePrepares? || work.NodeFinalizes? || work.NodeRecovers? {
      NodeWorkKeepsPanelTasks(c, work, now, funded, s);
      hide Perform;
    }
  }

  lemma RevokePlanKeepsRevokes(c: Config, now: int, s: Settings, g: int)
    requires g in c.panelRevokes
    ensures g in RevokePlan(c, now, s).panelRevokes && RevokePlan(c, now, s).panelRevokes[g] == c.panelRevokes[g]
  {
  }

  /** A revoke lease above the limit is granted if and only if such a task is due and prepared. */
  lemma RevokeAboveLimitExactlyWhen(steps: seq<Step>, step: Step, s: Settings, i: int, g: int)
    requires 0 <= i < |Run(steps, s).configs|
    ensures i < |Run(steps + [step], s).configs|
    ensures RevokeLeasedAboveLimit(Run(steps, s).configs[i], Run(steps + [step], s).configs[i], g) <==>
      (step.WorkerCommits? && step.config == i && step.work.PanelRevokePrepares? && step.work.generation == g
       && RevokeOverLimit(Run(steps, s).configs[i], g)
       && PanelCanDispatch(Run(steps, s).configs[i].panelRevokes[g], step.now))
  {
    var w := Run(steps, s);
    var c := w.configs[i];
    RunInv(steps, s);
    assert (steps + [step])[..|steps|] == steps;
    match step
    case WorkerCommits(j, work, now) =>
      WorkRevokeLeases(c, work, now, SubFunded(w, c.subscription, now), s, g);
      hide Perform, Inv;
    case RequestRevoke(j, reason, now) =>
      if g in c.panelRevokes { RevokePlanKeepsRevokes(c, now, s, g); }
      hide RevokePlan, Inv;
    case RequestProvision(sub, now, snapshot, ticket, panelEndpoint) =>
      if TicketDrawn(snapshot, ticket, now, s.staleAfter) {
        ProvisionKeepsConfigs(w, sub, now, snapshot, ticket, panelEndpoint, s, i);
      }
      hide Provision, Inv;
    case EntitlementsChange(subs) =>
    case FleetChange(fleet) =>
  }

  ghost predicate NeverRecoversLastAttempt(steps: seq<Step>, s: Settings, i: int, g: int) {
    forall n :: 0 <= n < |steps| ==> !RecoversLastAttempt(Run(steps[..n], s), steps[n], i, g)
  }

  lemma NewConfigNotOverLimit(w: World, step: Step, s: Settings, i: int, g: int)
    requires Inv(w) && |w.configs| <= i < |Apply(w, step, s).configs|
    ensures !RevokeOverLimit(Apply(w, step, s).configs[i], g)
  {
    hide ConfigInv, Perform, RevokePlan, SelectEndpoint;
  }

  /** Then its next attempt is always within the limit. */
  lemma {:induction false} RevokeAttemptsBounded(steps: seq<Step>, s: Settings, i: int, g: int)
    requires NeverRecoversLastAttempt(steps, s, i, g) && 0 <= i < |Run(steps, s).configs|
    ensures !RevokeOverLimit(Run(steps, s).configs[i], g)
    decreases |steps|
  {
    if steps != [] {
      var n := |steps| - 1;
      var p := steps[..n];
      assert steps == p + [steps[n]];
      hide RecoversLastAttempt, RevokeOverLimit, Apply, Inv;
      forall m | 0 <= m < n ensures !RecoversLastAttempt(Run(p[..m], s), p[m], i, g) {
        assert p[..m] == steps[..m] && p[m] == steps[m];
      }
      if i < |Run(p, s).configs| {
        RevokeAttemptsBounded(p, s, i, g);
        RevokeOverLimitExactlyWhen(p, steps[n], s, i, g);
      } else {
        RunInv(p, s);
        NewConfigNotOverLimit(Run(p, s), steps[n], s, i, g);
      }
    }
  }
}
