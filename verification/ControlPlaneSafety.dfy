/**
 What holds in every reachable store: the per-configuration invariants, one live
 configuration per subscription, funded activations, and intent that is never withdrawn.
 */
module ControlPlaneSafety {
  import opened Common
  import opened VpnEntity
  import opened NodeTaskEntity
  import opened PanelTaskEntity
  import opened NodeSelection
  import opened Transactions
  import opened Lifecycle
  import opened ControlPlane

  /** Only the newest configuration of a subscription may still be live. */
  ghost predicate OnlyNewestLive(configs: seq<Config>) {
    forall i, j :: 0 <= i < j < |configs| && configs[i].subscription == configs[j].subscription ==>
      IsTerminal(configs[i].vpn.status)
  }

  ghost predicate Inv(w: World) {
    && (forall i :: 0 <= i < |w.configs| ==> ConfigInv(w.configs[i]))
    && (forall i :: 0 <= i < |w.configs| ==> w.configs[i].subscription in w.subs)
    && OnlyNewestLive(w.configs)
  }

  /** What a transaction on one configuration may not change. */
  ghost predicate SameIdentity(c: Config, c': Config) {
    && c'.subscription == c.subscription && c'.endpoint == c.endpoint && c'.node == c.node
    && (IsTerminal(c.vpn.status) ==> c'.vpn.status == c.vpn.status)
    && c.vpn.generation <= c'.vpn.generation
  }

  lemma FailOrRetryKeepsIdentity(c: Config, k: TaskKey, n: int, response: Option<Response>, now: int, base: int)
    requires k in c.nodeTasks
    ensures SameIdentity(c, FailOrRetry(c, k, n, response, now, base))
  {
  }

  lemma NodeSucceededKeepsIdentity(c: Config, k: TaskKey, now: int, n: int, response: Response, funded: bool)
    requires k in c.nodeTasks
    ensures SameIdentity(c, NodeSucceeded(c, k, now, n, response, funded))
  {
  }

  lemma NodePrepareKeepsIdentity(
    c: Config, k: TaskKey, now: int, token: int, node: Option<NodeState>, credential: bool, s: Settings)
    ensures SameIdentity(c, NodePrepare(c, k, now, token, node, credential, s))
  {
    if k in c.nodeTasks && CanDispatch(c.nodeTasks[k].task, now) {
      NodePrepareCases(c, k, now, token, node, credential, s);
      var l' := StartLedger(c.nodeTasks[k], now, now + s.nodeLease, token);
      FailOrRetryKeepsIdentity(PutLedger(c, k, l'), k, l'.task.attempts, None, now, s.nodeRetryBase);
      hide FailOrRetry, NodePrepare, StartLedger;
    }
  }

  lemma NodeFinalizeKeepsIdentity(
    c: Config, k: TaskKey, now: int, token: int, n: int, answer: NodeAnswer, funded: bool, s: Settings)
    ensures SameIdentity(c, NodeFinalize(c, k, now, token, n, answer, funded, s))
  {
    if k in c.nodeTasks && OwnsActiveLease(c.nodeTasks[k].task, token, now, n) {
      NodeFinalizeCases(c, k, now, token, n, answer, funded, s);
      hide NodeFinalize, FailOrRetry, NodeSucceeded;
      if answer.Answered? && answer.response.Some? { NodeSucceededKeepsIdentity(c, k, now, n, answer.response.value, funded); }
      FailOrRetryKeepsIdentity(c, k, n, if answer.TransportError? then None else answer.response, now, s.nodeRetryBase);
    }
  }

  lemma NodeRecoverKeepsIdentity(c: Config, k: TaskKey, now: int, s: Settings)
    ensures SameIdentity(c, NodeRecover(c, k, now, s))
  {
    hide Retried;
  }

  lemma PanelWorkKeepsIdentity(c: Config, w: Work, now: int, funded: bool, s: Settings)
    requires !(w.NodePrepares? || w.NodeFinalizes? || w.NodeRecovers?)
    ensures SameIdentity(c, Perform(c, w, now, funded, s))
  {
  }

  lemma WorkKeepsIdentity(c: Config, w: Work, now: int, funded: bool, s: Settings)
    ensures SameIdentity(c, Perform(c, w, now, funded, s))
  {
    hide SameIdentity, NodePrepare, NodeFinalize, NodeRecover;
    match w
    case NodePrepares(k, token, node, credential) => NodePrepareKeepsIdentity(c, k, now, token, node, credential, s);
    case NodeFinalizes(k, token, n, answer) => NodeFinalizeKeepsIdentity(c, k, now, token, n, answer, funded, s);
    case NodeRecovers(k) => NodeRecoverKeepsIdentity(c, k, now, s);
    case _ => PanelWorkKeepsIdentity(c, w, now, funded, s);
  }

  lemma RevokePlanKeepsIdentity(c: Config, now: int, s: Settings)
    ensures SameIdentity(c, RevokePlan(c, now, s))
  {
  }

  lemma PutKeepsInv(w: World, i: int, c: Config)
    requires Inv(w) && 0 <= i < |w.configs|
    requires ConfigInv(c) && SameIdentity(w.configs[i], c)
    ensures Inv(PutConfig(w, i, c))
  {
  }

  lemma CreateKeepsInv(w: World, sub: int, endpoint: int, node: Option<int>, now: int, s: Settings)
    requires Inv(w) && PlanProvision(w, sub, now) == Create
    ensures Inv(w.(configs := w.configs + [FreshConfig(sub, endpoint, node, now, s)]))
  {
    FreshConfigInv(sub, endpoint, node, now, s);
    var latest := Latest(w.configs, sub);
    forall i | 0 <= i < |w.configs| && w.configs[i].subscription == sub
      ensures IsTerminal(w.configs[i].vpn.status)
    {
      assert i <= latest.value;
    }
    hide ConfigInv;
  }

  lemma StepKeepsInv(w: World, step: Step, s: Settings)
    requires Inv(w)
    ensures Inv(Apply(w, step, s))
  {
    hide ConfigInv, Perform, RevokePlan;
    match step
    case RequestProvision(sub, now, snapshot, ticket, panelEndpoint) =>
      if TicketDrawn(snapshot, ticket, now, s.staleAfter) {
        var plan := PlanProvision(w, sub, now);
        if plan.Reuse? {
          ReuseIsNoOp(w.configs[plan.config], now, s);
          PutKeepsInv(w, plan.config, w.configs[plan.config]);
        } else if plan.Create? {
          var place := SelectEndpoint(w, snapshot, ticket, panelEndpoint, now, s);
          if place.At? { CreateKeepsInv(w, sub, place.endpoint, place.node, now, s); }
        }
      }
    case RequestRevoke(i, reason, now) =>
      if 0 <= i < |w.configs| {
        RevokePlanKeepsInv(w.configs[i], now, s);
        RevokePlanKeepsIdentity(w.configs[i], now, s);
        PutKeepsInv(w, i, RevokePlan(w.configs[i], now, s));
      }
    case WorkerCommits(i, work, now) =>
      if 0 <= i < |w.configs| {
        var funded := SubFunded(w, w.configs[i].subscription, now);
        WorkKeepsInv(w.configs[i], work, now, funded, s);
        WorkKeepsIdentity(w.configs[i], work, now, funded, s);
        PutKeepsInv(w, i, Perform(w.configs[i], work, now, funded, s));
      }
    case EntitlementsChange(subs) =>
    case FleetChange(fleet) =>
  }

  /** Every reachable store satisfies the invariant. */
  lemma {:induction false} RunInv(steps: seq<Step>, s: Settings)
    ensures Inv(Run(steps, s))
  {
    if steps != [] {
      RunInv(steps[..|steps| - 1], s);
      StepKeepsInv(Run(steps[..|steps| - 1], s), steps[|steps| - 1], s);
    }
  }

  /** In every run, the status of a node-backed configuration is decided by its tasks, generation by generation. */
  lemma StatusFollowsTasks(steps: seq<Step>, s: Settings, i: int)
    requires 0 <= i < |Run(steps, s).configs| && Run(steps, s).configs[i].node.Some?
    ensures var c := Run(steps, s).configs[i];
      var g := c.vpn.generation;
      && CurrentKey(g) in c.nodeTasks
      && c.vpn.status == StatusByTask(g, c.nodeTasks[CurrentKey(g)].task.status)
      && (c.vpn.desired == WantActive <==> g == 1)
      && (forall k :: k in c.nodeTasks <==>
            (if k.op == ProvisionClient then k.generation == 1 else 2 <= k.generation <= g))
      && (forall k :: k in c.nodeTasks && k.op == RevokeClient && k.generation < g ==>
            c.nodeTasks[k].task.status == TaskFailed)
  {
    RunInv(steps, s);
    var c := Run(steps, s).configs[i];
    assert ConfigInv(c);
    assert KnownKey(c, CurrentKey(c.vpn.generation));
  }

  /** In every run, attempts are bounded and the attempt rows are exactly the attempts made. */
  lemma LedgersExact(steps: seq<Step>, s: Settings, i: int, k: TaskKey)
    requires 0 <= i < |Run(steps, s).configs| && k in Run(steps, s).configs[i].nodeTasks
    ensures LedgerOk(k.op, Run(steps, s).configs[i].nodeTasks[k])
  {
    RunInv(steps, s);
    assert ConfigInv(Run(steps, s).configs[i]);
  }

  /** In every run, the audit trail of a configuration is one row per event that its status implies. */
  lemma TrailExact(steps: seq<Step>, s: Settings, i: int)
    requires 0 <= i < |Run(steps, s).configs|
    ensures Trail(Run(steps, s).configs[i].vpn.status, Run(steps, s).configs[i].audit)
  {
    RunInv(steps, s);
    assert ConfigInv(Run(steps, s).configs[i]);
  }

  /** In every run, a subscription has at most one configuration that is not terminal. */
  lemma OneLiveConfiguration(steps: seq<Step>, s: Settings, i: int, j: int)
    requires 0 <= i < |Run(steps, s).configs| && 0 <= j < |Run(steps, s).configs|
    requires Run(steps, s).configs[i].subscription == Run(steps, s).configs[j].subscription
    requires !IsTerminal(Run(steps, s).configs[i].vpn.status) && !IsTerminal(Run(steps, s).configs[j].vpn.status)
    ensures i == j
  {
    RunInv(steps, s);
  }

  /** A provisioning request leaves every existing configuration as it is. */
  lemma ProvisionKeepsConfigs(
    w: World, sub: int, now: int, snapshot: seq<Candidate>, ticket: int, panelEndpoint: Option<int>, s: Settings, i: int)
    requires Inv(w) && 0 <= i < |w.configs| && TicketDrawn(snapshot, ticket, now, s.staleAfter)
    ensures var w' := Provision(w, sub, now, snapshot, ticket, panelEndpoint, s);
      i < |w'.configs| && w'.configs[i] == w.configs[i]
  {
    var plan := PlanProvision(w, sub, now);
    if plan.Reuse? { ReuseIsNoOp(w.configs[plan.config], now, s); }
    hide ReuseProvisioning, ConfigInv, SelectEndpoint, FreshConfig, PlanProvision;
  }

  /** A revoke request leaves every existing task row as it is. */
  lemma RevokePlanKeepsTasks(c: Config, now: int, s: Settings, k: TaskKey)
    requires k in c.nodeTasks
    ensures var c' := RevokePlan(c, now, s); k in c'.nodeTasks && c'.nodeTasks[k] == c.nodeTasks[k]
  {
  }

  // ---------------------------------------------------------------- activations

  /** At most one row is appended, and it says what happened to the status. */
  ghost predicate AuditStep(c: Config, c': Config, now: int, funded: bool) {
    if c'.audit == c.audit then c'.vpn.status == Active ==> c.vpn.status == Active
    else
      && |c'.audit| == |c.audit| + 1 && c'.audit[..|c.audit|] == c.audit
      && (var e := c'.audit[|c.audit|];
          || (e == ActivatedAudit(now) && funded && CanActivate(c.vpn) && c'.vpn.status == Active)
          || (e == RevokedAudit(now) && CanRevoke(c.vpn) && c'.vpn.status == Revoked))
  }

  lemma FailOrRetryAudit(c: Config, k: TaskKey, n: int, response: Option<Response>, now: int, base: int, funded: bool)
    requires k in c.nodeTasks
    ensures AuditStep(c, FailOrRetry(c, k, n, response, now, base), now, funded)
  {
  }

  lemma NodeSucceededAudit(c: Config, k: TaskKey, now: int, n: int, response: Response, funded: bool)
    requires k in c.nodeTasks
    ensures AuditStep(c, NodeSucceeded(c, k, now, n, response, funded), now, funded)
  {
  }

  lemma NodeFinalizeAudit(
    c: Config, k: TaskKey, now: int, token: int, n: int, answer: NodeAnswer, funded: bool, s: Settings)
    ensures AuditStep(c, NodeFinalize(c, k, now, token, n, answer, funded, s), now, funded)
  {
    if k in c.nodeTasks && OwnsActiveLease(c.nodeTasks[k].task, token, now, n) {
      NodeFinalizeCases(c, k, now, token, n, answer, funded, s);
      hide NodeFinalize, FailOrRetry, NodeSucceeded, AuditStep;
      if answer.Answered? && answer.response.Some? { NodeSucceededAudit(c, k, now, n, answer.response.value, funded); }
      FailOrRetryAudit(c, k, n, if answer.TransportError? then None else answer.response, now, s.nodeRetryBase, funded);
    }
  }

  lemma PanelWorkAudit(c: Config, work: Work, now: int, funded: bool, s: Settings)
    requires !work.NodePrepares? && !work.NodeFinalizes? && !work.NodeRecovers?
    ensures AuditStep(c, Perform(c, work, now, funded, s), now, funded)
  {
  }

  lemma WorkAudit(c: Config, work: Work, now: int, funded: bool, s: Settings)
    ensures AuditStep(c, Perform(c, work, now, funded, s), now, funded)
  {
    match work
    case NodePrepares(k, token, node, credential) =>
    case NodeFinalizes(k, token, n, answer) => NodeFinalizeAudit(c, k, now, token, n, answer, funded, s);
    case NodeRecovers(k) =>
    case _ => PanelWorkAudit(c, work, now, funded, s);
  }

  lemma RevokePlanAudit(c: Config, now: int, funded: bool, s: Settings)
    ensures AuditStep(c, RevokePlan(c, now, s), now, funded)
  {
  }

  /** The clock reading of a step; changes of entitlements and fleet have none. */
  function ClockOf(step: Step): int {
    match step
    case RequestProvision(_, now, _, _, _) => now
    case RequestRevoke(_, _, now) => now
    case WorkerCommits(_, _, now) => now
    case _ => 0
  }

  lemma StepAudit(w: World, step: Step, s: Settings, i: int)
    requires Inv(w) && 0 <= i < |w.configs|
    ensures var w' := Apply(w, step, s);
      i < |w'.configs| &&
      AuditStep(w.configs[i], w'.configs[i], ClockOf(step), SubFunded(w, w.configs[i].subscription, ClockOf(step)))
  {
    var funded := SubFunded(w, w.configs[i].subscription, ClockOf(step));
    match step
    case WorkerCommits(j, work, now) =>
      WorkAudit(w.configs[i], work, now, funded, s);
      hide Perform, ConfigInv;
    case RequestRevoke(j, reason, now) =>
      RevokePlanAudit(w.configs[i], now, funded, s);
      hide RevokePlan, ConfigInv;
    case RequestProvision(sub, now, snapshot, ticket, panelEndpoint) =>
      if TicketDrawn(snapshot, ticket, now, s.staleAfter) {
        ProvisionKeepsConfigs(w, sub, now, snapshot, ticket, panelEndpoint, s, i);
      }
      hide Provision, ConfigInv;
    case EntitlementsChange(subs) =>
    case FleetChange(fleet) =>
  }

  /** What a step did to one configuration's trail, in terms of the rows it added. */
  ghost predicate ActivationFunded(w: World, c: Config, c': Config, at: int) {
    && c.audit <= c'.audit
    && (c.vpn.status != Active && c'.vpn.status == Active <==> c'.audit[|c.audit|..] == [ActivatedAudit(at)])
    && (forall t :: ActivatedAudit(t) in c'.audit[|c.audit|..] ==> t == at && SubFunded(w, c.subscription, t))
  }

  lemma AuditStepMeaning(w: World, c: Config, c': Config, at: int)
    requires AuditStep(c, c', at, SubFunded(w, c.subscription, at))
    ensures ActivationFunded(w, c, c', at)
  {
    if c'.audit != c.audit {
      assert c'.audit[|c.audit|..] == [c'.audit[|c.audit|]];
    } else {
      assert c'.audit[|c.audit|..] == [];
    }
  }

  /**
   A step of a run activates a configuration exactly when it appends an activation row, and then
   the clock reading of that step lies inside a funded period of the configuration's subscription.
   */
  lemma ActivationsAreFunded(steps: seq<Step>, step: Step, s: Settings, i: int)
    requires 0 <= i < |Run(steps, s).configs|
    ensures i < |Run(steps + [step], s).configs|
    ensures ActivationFunded(Run(steps, s), Run(steps, s).configs[i], Run(steps + [step], s).configs[i], ClockOf(step))
  {
    RunInv(steps, s);
    assert (steps + [step])[..|steps|] == steps;
    var w := Run(steps, s);
    StepAudit(w, step, s, i);
    hide Inv, Apply, AuditStep, ActivationFunded;
    AuditStepMeaning(w, w.configs[i], Apply(w, step, s).configs[i], ClockOf(step));
  }

  // ---------------------------------------------------------------- intent is one-way

  lemma StepKeepsIdentity(w: World, step: Step, s: Settings, i: int)
    requires Inv(w) && 0 <= i < |w.configs|
    ensures var w' := Apply(w, step, s); i < |w'.configs| && SameIdentity(w.configs[i], w'.configs[i])
  {
    var c := w.configs[i];
    match step
    case WorkerCommits(j, work, now) =>
      WorkKeepsIdentity(c, work, now, SubFunded(w, c.subscription, now), s);
      hide Perform, ConfigInv;
    case RequestRevoke(j, reason, now) =>
      RevokePlanKeepsIdentity(c, now, s);
      hide RevokePlan, ConfigInv;
    case RequestProvision(sub, now, snapshot, ticket, panelEndpoint) =>
      if TicketDrawn(snapshot, ticket, now, s.staleAfter) {
        ProvisionKeepsConfigs(w, sub, now, snapshot, ticket, panelEndpoint, s, i);
      }
      hide Provision, ConfigInv;
    case EntitlementsChange(subs) =>
    case FleetChange(fleet) =>
  }

  lemma DesireIsGeneration(w: World, i: int)
    requires Inv(w) && 0 <= i < |w.configs|
    ensures Shape(w.configs[i].vpn)
  {
    assert ConfigInv(w.configs[i]);
  }

  /** Once a revoke has been requested, no later step of the run withdraws it or activates the configuration. */
  lemma NoActivationAfterRevoke(steps: seq<Step>, step: Step, s: Settings, i: int)
    requires 0 <= i < |Run(steps, s).configs| && Run(steps, s).configs[i].vpn.desired == WantRevoked
    ensures i < |Run(steps + [step], s).configs|
    ensures var c, c' := Run(steps, s).configs[i], Run(steps + [step], s).configs[i];
      && c'.vpn.desired == WantRevoked && c.vpn.generation <= c'.vpn.generation
      && c'.vpn.status != Active && c.audit <= c'.audit
      && (forall t :: ActivatedAudit(t) !in c'.audit[|c.audit|..])
  {
    var w := Run(steps, s);
    RunInv(steps, s);
    assert (steps + [step])[..|steps|] == steps;
    StepKeepsInv(w, step, s);
    StepKeepsIdentity(w, step, s, i);
    DesireIsGeneration(w, i);
    DesireIsGeneration(Apply(w, step, s), i);
    StepAudit(w, step, s, i);
    hide Inv, Apply, ConfigInv;
    var c, c' := w.configs[i], Apply(w, step, s).configs[i];
    if c'.audit == c.audit {
      assert c'.audit[|c.audit|..] == [];
    } else {
      assert c'.audit[|c.audit|..] == [c'.audit[|c.audit|]];
    }
  }

  // ---------------------------------------------------------------- when a configuration is activated

  /** The transaction activates the configuration, as its rows before it tell. */
  predicate WorkActivates(c: Config, work: Work, now: int, funded: bool) {
    match work
    case NodeFinalizes(k, token, n, answer) =>
      && k.op == ProvisionClient && k in c.nodeTasks && OwnsActiveLease(c.nodeTasks[k].task, token, now, n)
      && answer.Answered? && answer.response.Some? && Accepts(k.op, answer.response.value.status)
      && CurrentProvision(c.vpn, k.generation) && funded
    case PanelSucceeds(token, n) =>
      && c.panelTask.Some? && PanelOwnsActiveLease(c.panelTask.value, token, n, now)
      && CurrentProvision(c.vpn, c.panelTask.value.generation) && funded
    case _ => false
  }

  lemma FailOrRetryNeverActivates(c: Config, k: TaskKey, n: int, response: Option<Response>, now: int, base: int)
    requires k in c.nodeTasks
    ensures FailOrRetry(c, k, n, response, now, base).vpn.status == Active ==> c.vpn.status == Active
  {
  }

  lemma NodePrepareNeverActivates(
    c: Config, k: TaskKey, now: int, token: int, node: Option<NodeState>, credential: bool, s: Settings)
    ensures NodePrepare(c, k, now, token, node, credential, s).vpn.status == Active ==> c.vpn.status == Active
  {
    if k in c.nodeTasks && CanDispatch(c.nodeTasks[k].task, now) {
      NodePrepareCases(c, k, now, token, node, credential, s);
      var l' := StartLedger(c.nodeTasks[k], now, now + s.nodeLease, token);
      FailOrRetryNeverActivates(PutLedger(c, k, l'), k, l'.task.attempts, None, now, s.nodeRetryBase);
      hide FailOrRetry, NodePrepare, StartLedger;
    }
  }

  lemma NodeFinalizeActivates(
    c: Config, k: TaskKey, now: int, token: int, n: int, answer: NodeAnswer, funded: bool, s: Settings)
    requires c.vpn.status != Active
    ensures NodeFinalize(c, k, now, token, n, answer, funded, s).vpn.status == Active
      <==> WorkActivates(c, NodeFinalizes(k, token, n, answer), now, funded)
  {
    if k in c.nodeTasks && OwnsActiveLease(c.nodeTasks[k].task, token, now, n) {
      NodeFinalizeCases(c, k, now, token, n, answer, funded, s);
      hide NodeFinalize, FailOrRetry;
      FailOrRetryNeverActivates(c, k, n, if answer.TransportError? then None else answer.response, now, s.nodeRetryBase);
    }
  }

  lemma PanelWorkActivates(c: Config, work: Work, now: int, funded: bool, s: Settings)
    requires !work.NodePrepares? && !work.NodeFinalizes? && !work.NodeRecovers? && c.vpn.status != Active
    ensures Perform(c, work, now, funded, s).vpn.status == Active <==> WorkActivates(c, work, now, funded)
  {
  }

  lemma WorkActivatesExactlyWhen(c: Config, work: Work, now: int, funded: bool, s: Settings)
    requires c.vpn.status != Active
    ensures Perform(c, work, now, funded, s).vpn.status == Active <==> WorkActivates(c, work, now, funded)
  {
    hide NodePrepare, NodeFinalize;
    match work
    case NodePrepares(k, token, node, credential) => NodePrepareNeverActivates(c, k, now, token, node, credential, s);
    case NodeFinalizes(k, token, n, answer) =>
      hide WorkActivates;
      NodeFinalizeActivates(c, k, now, token, n, answer, funded, s);
    case NodeRecovers(k) =>
    case _ => PanelWorkActivates(c, work, now, funded, s);
  }

  /** The step activates configuration `i`, as the store before it tells. */
  predicate Activates(w: World, step: Step, i: int) {
    && step.WorkerCommits? && step.config == i && 0 <= i < |w.configs| && w.configs[i].vpn.status != Active
    && WorkActivates(w.configs[i], step.work, step.now, SubFunded(w, w.configs[i].subscription, step.now))
  }

  lemma StepActivates(w: World, step: Step, s: Settings, i: int)
    requires Inv(w) && 0 <= i < |w.configs| && w.configs[i].vpn.status != Active
    ensures var w' := Apply(w, step, s);
      i < |w'.configs| && (w'.configs[i].vpn.status == Active <==> Activates(w, step, i))
  {
    var c := w.configs[i];
    match step
    case WorkerCommits(j, work, now) =>
      WorkActivatesExactlyWhen(c, work, now, SubFunded(w, c.subscription, now), s);
      hide Perform, ConfigInv, WorkActivates;
    case RequestRevoke(j, reason, now) =>
      RevokePlanAudit(c, now, false, s);
      hide RevokePlan, ConfigInv;
    case RequestProvision(sub, now, snapshot, ticket, panelEndpoint) =>
      if TicketDrawn(snapshot, ticket, now, s.staleAfter) {
        ProvisionKeepsConfigs(w, sub, now, snapshot, ticket, panelEndpoint, s, i);
      }
      hide Provision, ConfigInv;
    case EntitlementsChange(subs) =>
    case FleetChange(fleet) =>
  }

  /**
   A step of a run activates a configuration if and only if it finalizes, under a live lease, an
   accepted provisioning of the current generation while a funded period is current. The status of
   the subscription plays no part.
   */
  lemma ActivatesExactlyWhen(steps: seq<Step>, step: Step, s: Settings, i: int)
    requires 0 <= i < |Run(steps, s).configs| && Run(steps, s).configs[i].vpn.status != Active
    ensures i < |Run(steps + [step], s).configs|
    ensures Run(steps + [step], s).configs[i].vpn.status == Active <==> Activates(Run(steps, s), step, i)
  {
    RunInv(steps, s);
    assert (steps + [step])[..|steps|] == steps;
    StepActivates(Run(steps, s), step, s, i);
  }

  /** So an activation leaves its configuration with an active subscription if and only if that was active before. */
  lemma ActivationServesActiveExactlyWhen(steps: seq<Step>, step: Step, s: Settings, i: int)
    requires Activates(Run(steps, s), step, i)
    ensures var w, w' := Run(steps, s), Run(steps + [step], s);
      var sub := w.configs[i].subscription;
      && i < |w'.configs| && w'.configs[i].vpn.status == Active && w'.configs[i].subscription == sub
      && sub in w.subs && sub in w'.subs && (w'.subs[sub].active <==> w.subs[sub].active)
  {
    var w := Run(steps, s);
    RunInv(steps, s);
    assert (steps + [step])[..|steps|] == steps;
    StepActivates(w, step, s, i);
    StepKeepsIdentity(w, step, s, i);
    hide Perform, ConfigInv, WorkActivates;
  }
}
