/**
 Exactly when a step of a run changes a configuration: when its generation rises, when it is
 created, and that nothing else touches it. The conditions are written out on the rows before the step.
 */
module ConfigSteps {
  import opened Common
  import opened VpnEntity
  import opened NodeTaskEntity
  import opened PanelTaskEntity
  import opened NodeSelection
  import opened Transactions
  import opened Lifecycle
  import opened ControlPlane
  import opened ControlPlaneSafety

  /** The subscription is active, and a paid period of it contains `now`. */
  predicate HasAccess(w: World, sub: int, now: int) {
    sub in w.subs && w.subs[sub].active && PaidAt(w, sub, now)
  }

  predicate PaidAt(w: World, sub: int, now: int) {
    && sub in w.subs
    && exists p :: 0 <= p < |w.subs[sub].periods| && w.subs[sub].periods[p].paid
         && w.subs[sub].periods[p].start <= now < w.subs[sub].periods[p].end
  }

  lemma PaidIsFunded(w: World, sub: int, now: int)
    ensures PaidAt(w, sub, now) <==> SubFunded(w, sub, now)
  {
    if SubFunded(w, sub, now) {
      var e := w.subs[sub];
      var p :| 0 <= p < |e.periods| && Covers(e.periods[p], now);
      assert w.subs[sub].periods[p].paid;
    }
    if PaidAt(w, sub, now) {
      var p :| 0 <= p < |w.subs[sub].periods| && w.subs[sub].periods[p].paid
        && w.subs[sub].periods[p].start <= now < w.subs[sub].periods[p].end;
      assert Covers(w.subs[sub].periods[p], now);
    }
  }

  /** A revoke request for configuration `i` that is not an expiry while access is current. */
  predicate RevokeAsked(w: World, step: Step, i: int)
    requires 0 <= i < |w.configs|
  {
    && step.RequestRevoke? && step.config == i
    && (step.reason == Expiration ==> !HasAccess(w, w.configs[i].subscription, step.now))
  }

  /** One step as configuration `i` sees it: a worker's transaction on it, a granted revoke request, or nothing. */
  lemma StepOnConfig(w: World, step: Step, s: Settings, i: int)
    requires Inv(w) && 0 <= i < |w.configs|
    ensures var w', c := Apply(w, step, s), w.configs[i];
      && i < |w'.configs|
      && w'.configs[i] ==
           if step.WorkerCommits? && step.config == i then
             Perform(c, step.work, step.now, PaidAt(w, c.subscription, step.now), s)
           else if RevokeAsked(w, step, i) then RevokePlan(c, step.now, s)
           else c
  {
    var c := w.configs[i];
    hide Perform, RevokePlan, ConfigInv;
    match step
    case WorkerCommits(j, work, now) => PaidIsFunded(w, c.subscription, now); hide SubFunded, PaidAt;
    case RequestRevoke(j, reason, now) => PaidIsFunded(w, c.subscription, now); hide Funded, PaidAt;
    case RequestProvision(sub, now, snapshot, ticket, panelEndpoint) =>
      if TicketDrawn(snapshot, ticket, now, s.staleAfter) {
        ProvisionKeepsConfigs(w, sub, now, snapshot, ticket, panelEndpoint, s, i);
      }
      hide Provision;
    case _ =>
  }

  // ---------------------------------------------------------------- answers, written out

  /** The answer is one of the two that count as success of the operation. */
  predicate IsSuccess(op: Operation, answer: NodeAnswer) {
    && answer.Answered? && answer.response.Some?
    && (var word := answer.response.value.status;
        if op == ProvisionClient then word == Provisioned || word == AlreadyExists
        else word == ClientRevoked || word == NotFoundTreatedAsSuccess)
  }

  /** The worker finalizes attempt `t.attempts` of task `k`, whose lease it holds and which has not run out. */
  predicate HolderReports(c: Config, work: Work, now: int, k: TaskKey) {
    && work.NodeFinalizes? && work.key == k && k in c.nodeTasks
    && (var t := c.nodeTasks[k].task;
        && t.status == InProgress && t.attempts == work.attemptNo && t.leaseToken == Some(work.token)
        && t.leaseExpiresAt.Some? && now < t.leaseExpiresAt.value)
  }

  /** The worker holds the lease of the current attempt of a panel task; it may have run out. */
  predicate PanelHolds(t: PanelRow, token: int, attemptNo: int) {
    t.status == InProgress && t.attempts == attemptNo && t.leaseToken == Some(token)
  }

  predicate PanelHoldsLive(t: PanelRow, token: int, attemptNo: int, now: int) {
    PanelHolds(t, token, attemptNo) && t.leaseExpiresAt.Some? && now < t.leaseExpiresAt.value
  }

  // ---------------------------------------------------------------- a new generation

  /** A provisioning of a PROVISIONING configuration is reported as done while no paid period is current. */
  predicate ReportsUnpaid(c: Config, work: Work, now: int, paid: bool) {
    && c.vpn.status == Provisioning && !paid
    && (|| (work.NodeFinalizes? && work.key.op == ProvisionClient && HolderReports(c, work, now, work.key)
            && IsSuccess(ProvisionClient, work.answer))
        || (work.PanelSucceeds? && c.panelTask.Some? && PanelHoldsLive(c.panelTask.value, work.token, work.attemptNo, now)))
  }

  /** The generation rose by one, the configuration is to be revoked. */
  ghost predicate Reopened(v: VpnRow, v': VpnRow) {
    v'.generation == v.generation + 1 && v'.status == Revoking && v'.desired == WantRevoked
  }

  predicate FreshlyDue(status: TaskStatus, attempts: int, retryAt: Option<int>, now: int) {
    status == Pending && attempts == 0 && retryAt == Some(now)
  }

  /** The revoke task of the current generation has just been created, with `max` attempts. */
  ghost predicate RevokeQueued(c: Config, now: int, max: int) {
    var g := c.vpn.generation;
    if c.node.Some? then
      var k := TaskKey(RevokeClient, g);
      && k in c.nodeTasks && c.nodeTasks[k].attempts == map[] && c.nodeTasks[k].task.maxAttempts == max
      && FreshlyDue(c.nodeTasks[k].task.status, c.nodeTasks[k].task.attempts, c.nodeTasks[k].task.nextRetryAt, now)
    else
      && g in c.panelRevokes && c.panelRevokes[g].generation == g && c.panelRevokes[g].maxAttempts == max
      && FreshlyDue(c.panelRevokes[g].status, c.panelRevokes[g].attempts, c.panelRevokes[g].nextRetryAt, now)
  }

  /** How many attempts the provision task of a node-backed configuration was given. */
  function ProvisionMax(c: Config): int {
    var k := TaskKey(ProvisionClient, 1);
    if k in c.nodeTasks then c.nodeTasks[k].task.maxAttempts else 0
  }

  lemma PlanReopens(c: Config, now: int, s: Settings)
    requires ConfigInv(c)
    ensures var c' := RevokePlan(c, now, s);
      if c.vpn.status == Provisioning || c.vpn.status == Active || c.vpn.status == Failed || c.vpn.status == RevokeFailed
      then c'.vpn.generation == c.vpn.generation + 1 && c'.vpn.status == Revoking && c'.vpn.desired == WantRevoked
           && RevokeQueued(c', now, if c.node.Some? then s.nodeMaxAttempts else s.panelMaxAttempts)
      else c'.vpn.generation == c.vpn.generation
  {
    if c.node.Some? {
      assert !KnownKey(c, TaskKey(RevokeClient, c.vpn.generation + 1));
      assert c.vpn.generation > 1 ==> KnownKey(c, TaskKey(RevokeClient, c.vpn.generation));
    } else if c.vpn.generation in c.panelRevokes {
      assert PanelRevokeOk(c, c.vpn.generation, c.panelRevokes[c.vpn.generation]);
    }
  }

  /** A finalization under a live lease, by whether it reports an unpaid provisioning. */
  lemma FinalizeReopens(c: Config, k: TaskKey, now: int, n: int, answer: NodeAnswer, paid: bool, s: Settings)
    requires NodeInv(c) && k in c.nodeTasks
    ensures var r := if answer.TransportError? then None else answer.response;
      FailOrRetry(c, k, n, r, now, s.nodeRetryBase).vpn.generation == c.vpn.generation
    ensures answer.Answered? && answer.response.Some? ==>
      var c' := NodeSucceeded(c, k, now, n, answer.response.value, paid);
      if k.op == ProvisionClient && c.vpn.status == Provisioning && !paid
      then Reopened(c.vpn, c'.vpn) && RevokeQueued(c', now, ProvisionMax(c'))
      else c'.vpn.generation == c.vpn.generation
  {
    assert KnownKey(c, k) && !KnownKey(c, TaskKey(RevokeClient, c.vpn.generation + 1));
    hide Backoff;
  }

  lemma NodeFinalizeReopens(
    c: Config, k: TaskKey, now: int, token: int, n: int, answer: NodeAnswer, paid: bool, s: Settings)
    requires NodeInv(c)
    ensures var c' := NodeFinalize(c, k, now, token, n, answer, paid, s);
      if ReportsUnpaid(c, NodeFinalizes(k, token, n, answer), now, paid)
      then Reopened(c.vpn, c'.vpn) && RevokeQueued(c', now, ProvisionMax(c'))
      else c'.vpn.generation == c.vpn.generation
  {
    hide NodeFinalize, RevokeQueued, FailOrRetry, NodeSucceeded, Reopened, NodeInv;
    if k in c.nodeTasks && OwnsActiveLease(c.nodeTasks[k].task, token, now, n) {
      FinalizeReopens(c, k, now, n, answer, paid, s);
      NodeFinalizeCases(c, k, now, token, n, answer, paid, s);
    } else {
      IdleFinalize(c, k, now, token, n, answer, paid, s);
    }
  }

  lemma NodePrepareKeepsVpn(
    c: Config, k: TaskKey, now: int, token: int, node: Option<NodeState>, credential: bool, s: Settings)
    ensures NodePrepare(c, k, now, token, node, credential, s).vpn.generation == c.vpn.generation
  {
    hide NodePrepare, Backoff, NodeAllows;
    if k in c.nodeTasks && CanDispatch(c.nodeTasks[k].task, now) { NodePrepareCases(c, k, now, token, node, credential, s); }
    else { IdlePrepare(c, k, now, token, node, credential, s); }
  }

  lemma NodeWorkReopens(c: Config, work: Work, now: int, paid: bool, s: Settings)
    requires NodeInv(c)
    ensures var c' := Perform(c, work, now, paid, s);
      if ReportsUnpaid(c, work, now, paid) then Reopened(c.vpn, c'.vpn) && RevokeQueued(c', now, ProvisionMax(c'))
      else c'.vpn.generation == c.vpn.generation
  {
    hide NodePrepare, NodeFinalize, RevokeQueued, Reopened, Backoff;
    assert c.panelTask.None?;
    hide NodeInv;
    match work
    case NodePrepares(k, token, node, credential) => NodePrepareKeepsVpn(c, k, now, token, node, credential, s);
    case NodeFinalizes(k, token, n, answer) => NodeFinalizeReopens(c, k, now, token, n, answer, paid, s);
    case _ =>
  }

  lemma IdlePrepare(c: Config, k: TaskKey, now: int, token: int, node: Option<NodeState>, credential: bool, s: Settings)
    requires !(k in c.nodeTasks && CanDispatch(c.nodeTasks[k].task, now))
    ensures NodePrepare(c, k, now, token, node, credential, s) == c
  {
  }

  lemma IdleFinalize(c: Config, k: TaskKey, now: int, token: int, n: int, answer: NodeAnswer, paid: bool, s: Settings)
    requires !(k in c.nodeTasks && OwnsActiveLease(c.nodeTasks[k].task, token, now, n))
    ensures NodeFinalize(c, k, now, token, n, answer, paid, s) == c
  {
  }

  lemma PanelWorkReopens(c: Config, work: Work, now: int, paid: bool, s: Settings)
    requires PanelInv(c)
    ensures var c' := Perform(c, work, now, paid, s);
      if ReportsUnpaid(c, work, now, paid) then Reopened(c.vpn, c'.vpn) && c'.panelTask == Some(c.panelTask.value.(compensation := true))
      else c'.vpn.generation == c.vpn.generation
  {
  }

  /** The step asks to revoke a configuration whose status accepts it, or reports an unpaid provisioning as done. */
  predicate Reopens(w: World, step: Step, i: int)
    requires 0 <= i < |w.configs|
  {
    var c := w.configs[i];
    || (RevokeAsked(w, step, i)
        && (c.vpn.status == Provisioning || c.vpn.status == Active || c.vpn.status == Failed || c.vpn.status == RevokeFailed))
    || (step.WorkerCommits? && step.config == i
        && ReportsUnpaid(c, step.work, step.now, PaidAt(w, c.subscription, step.now)))
  }

  /** How a reopened configuration will be cleaned up: by a new revoke task, or by the panel's flagged provision task. */
  ghost predicate CleanupQueued(c: Config, step: Step, s: Settings) {
    if c.node.None? && step.WorkerCommits? then c.panelTask.Some? && c.panelTask.value.compensation
    else if step.WorkerCommits? then RevokeQueued(c, step.now, ProvisionMax(c))
    else step.RequestRevoke? && RevokeQueued(c, step.now, if c.node.Some? then s.nodeMaxAttempts else s.panelMaxAttempts)
  }

  lemma StepReopens(w: World, step: Step, s: Settings, i: int)
    requires Inv(w) && 0 <= i < |w.configs|
    ensures var c, w' := w.configs[i], Apply(w, step, s);
      && i < |w'.configs|
      && (if Reopens(w, step, i) then
            w'.configs[i].vpn.generation == c.vpn.generation + 1 && w'.configs[i].vpn.status == Revoking
            && w'.configs[i].vpn.desired == WantRevoked && CleanupQueued(w'.configs[i], step, s)
          else w'.configs[i].vpn.generation == c.vpn.generation)
  {
    StepOnConfig(w, step, s, i);
    StepKeepsIdentity(w, step, s, i);
    var c := w.configs[i];
    assert ConfigInv(c);
    hide Inv, ControlPlane.Apply, RevokePlan, Perform, ReportsUnpaid, PaidAt, RevokeQueued;
    if step.WorkerCommits? && step.config == i {
      var paid := PaidAt(w, c.subscription, step.now);
      if c.node.Some? { NodeWorkReopens(c, step.work, step.now, paid, s); } else { PanelWorkReopens(c, step.work, step.now, paid, s); }
    } else if RevokeAsked(w, step, i) {
      PlanReopens(c, step.now, s);
    }
  }

  /**
   In every run, a step raises the generation of a configuration if and only if it is a revoke request
   that its status accepts, and not an expiry while access is current, or a report that a
   provisioning is done while no paid period is. The configuration is then REVOKING and its cleanup queued.
   */
  lemma ReopensExactlyWhen(steps: seq<Step>, step: Step, s: Settings, i: int)
    requires 0 <= i < |Run(steps, s).configs|
    ensures var w, w' := Run(steps, s), Run(steps + [step], s);
      && i < |w'.configs|
      && (w'.configs[i].vpn.generation != w.configs[i].vpn.generation <==> Reopens(w, step, i))
      && (Reopens(w, step, i) ==>
            && w'.configs[i].vpn.generation == w.configs[i].vpn.generation + 1
            && w'.configs[i].vpn.status == Revoking && w'.configs[i].vpn.desired == WantRevoked
            && CleanupQueued(w'.configs[i], step, s))
  {
    RunInv(steps, s);
    assert (steps + [step])[..|steps|] == steps;
    hide Inv, ControlPlane.Apply, Reopens, CleanupQueued;
    StepReopens(Run(steps, s), step, s, i);
  }

  /** An expiry job that comes while access is current changes nothing at all. */
  lemma ExpiryDroppedWhileCurrent(steps: seq<Step>, s: Settings, i: int, now: int)
    requires 0 <= i < |Run(steps, s).configs| && HasAccess(Run(steps, s), Run(steps, s).configs[i].subscription, now)
    ensures Run(steps + [RequestRevoke(i, Expiration, now)], s) == Run(steps, s)
  {
    var w := Run(steps, s);
    assert (steps + [RequestRevoke(i, Expiration, now)])[..|steps|] == steps;
    PaidIsFunded(w, w.configs[i].subscription, now);
    hide Funded, PaidAt, RevokePlan;
  }

  // ---------------------------------------------------------------- a new configuration

  /** Enabled, up, checked recently, and with a limit above both the reported and the reserved clients. */
  predicate HasRoom(n: NodeRow, reserved: int, now: int, staleAfter: int) {
    && n.enabled && (n.health == Online || n.health == Degraded)
    && n.lastChecked.Some? && now <= n.lastChecked.value + staleAfter
    && n.maxClients.Some? && 0 < n.maxClients.value && reserved < n.maxClients.value
    && (n.activeClients.Some? ==> n.activeClients.value < n.maxClients.value)
  }

  /** The endpoint is enabled and its node has room. */
  predicate NodePlace(w: World, node: int, endpoint: int, now: int, s: Settings) {
    && endpoint in w.fleet.endpoints && w.fleet.endpoints[endpoint] == EndpointRow(Some(node), true)
    && node in w.fleet.nodes && HasRoom(w.fleet.nodes[node], Reserved(w.configs, node), now, s.staleAfter)
  }

  /** The request's choice, made on its snapshot, still stands; without any candidate the panel serves. */
  ghost predicate Places(w: World, step: Step, endpoint: int, node: Option<int>, s: Settings) {
    && step.RequestProvision? && TicketDrawn(step.snapshot, step.ticket, step.now, s.staleAfter)
    && (var chosen := Select(step.snapshot, step.now, s.staleAfter, step.ticket);
        if chosen.Some? then
          endpoint == chosen.value.endpoint && node == Some(chosen.value.node) && NodePlace(w, chosen.value.node, endpoint, step.now, s)
        else
          && step.snapshot == [] && step.panelEndpoint == Some(endpoint) && node == None
          && endpoint in w.fleet.endpoints && w.fleet.endpoints[endpoint] == EndpointRow(None, true))
  }

  lemma PlaceExactlyWhen(w: World, step: Step, endpoint: int, node: Option<int>, s: Settings)
    requires step.RequestProvision? && TicketDrawn(step.snapshot, step.ticket, step.now, s.staleAfter)
    ensures SelectEndpoint(w, step.snapshot, step.ticket, step.panelEndpoint, step.now, s) == At(endpoint, node)
      <==> Places(w, step, endpoint, node, s)
  {
    hide Select, TicketDrawn, Reserved;
  }

  /** The subscription has access and no configuration that is not terminal. */
  predicate Unserved(w: World, sub: int, now: int) {
    HasAccess(w, sub, now) && forall i :: 0 <= i < |w.configs| && w.configs[i].subscription == sub ==> IsTerminal(w.configs[i].vpn.status)
  }

  lemma CreateExactlyWhen(w: World, sub: int, now: int)
    requires Inv(w)
    ensures PlanProvision(w, sub, now).Create? <==> Unserved(w, sub, now)
  {
    PaidIsFunded(w, sub, now);
    hide ConfigInv, Funded, PaidAt;
    var latest := Latest(w.configs, sub);
  }

  /** A PROVISIONING configuration with its task due at once, and its creation on the trail. */
  ghost predicate JustCreated(c: Config, sub: int, endpoint: int, node: Option<int>, now: int, s: Settings) {
    && c.subscription == sub && c.endpoint == endpoint && c.node == node && c.audit == [CreatedAudit(now)]
    && c.vpn.status == Provisioning && c.vpn.desired == WantActive && c.vpn.generation == 1 && c.panelRevokes == map[]
    && (if node.Some? then
          var k := TaskKey(ProvisionClient, 1);
          && c.nodeTasks.Keys == {k} && c.panelTask.None? && c.nodeTasks[k].attempts == map[]
          && c.nodeTasks[k].task.maxAttempts == s.nodeMaxAttempts
          && FreshlyDue(c.nodeTasks[k].task.status, c.nodeTasks[k].task.attempts, c.nodeTasks[k].task.nextRetryAt, now)
        else
          && c.nodeTasks == map[] && c.panelTask.Some? && !c.panelTask.value.compensation
          && c.panelTask.value.maxAttempts == s.panelMaxAttempts
          && FreshlyDue(c.panelTask.value.status, c.panelTask.value.attempts, c.panelTask.value.nextRetryAt, now))
  }

  lemma FreshIsJustCreated(sub: int, endpoint: int, node: Option<int>, now: int, s: Settings)
    ensures JustCreated(FreshConfig(sub, endpoint, node, now, s), sub, endpoint, node, now, s)
  {
  }

  /** The step creates a configuration at this place. */
  ghost predicate CreatesAt(w: World, step: Step, endpoint: int, node: Option<int>, s: Settings) {
    step.RequestProvision? && Unserved(w, step.sub, step.now) && Places(w, step, endpoint, node, s)
  }

  lemma StepCreates(w: World, step: Step, s: Settings, endpoint: int, node: Option<int>)
    requires Inv(w)
    ensures var w' := Apply(w, step, s);
      && |w.configs| <= |w'.configs| <= |w.configs| + 1
      && (CreatesAt(w, step, endpoint, node, s) ==>
            |w'.configs| == |w.configs| + 1 && JustCreated(w'.configs[|w.configs|], step.sub, endpoint, node, step.now, s))
      && (|w'.configs| == |w.configs| + 1 ==>
            CreatesAt(w, step, w'.configs[|w.configs|].endpoint, w'.configs[|w.configs|].node, s))
  {
    hide ConfigInv, Perform, RevokePlan, FreshConfig, SelectEndpoint, NodePlace, Select, PlanProvision, ReuseProvisioning, Unserved,
      JustCreated, TicketDrawn;
    if step.RequestProvision? && TicketDrawn(step.snapshot, step.ticket, step.now, s.staleAfter) {
      CreateExactlyWhen(w, step.sub, step.now);
      PlaceExactlyWhen(w, step, endpoint, node, s);
      var place := SelectEndpoint(w, step.snapshot, step.ticket, step.panelEndpoint, step.now, s);
      if place.At? {
        PlaceExactlyWhen(w, step, place.endpoint, place.node, s);
        FreshIsJustCreated(step.sub, place.endpoint, place.node, step.now, s);
      }
    }
  }

  /**
   In every run, a step creates a configuration if and only if it requests one for a subscription with
   access and without a live configuration, and its choice is still fit: an enabled endpoint of a
   node with room, or, without any candidate, an enabled panel endpoint.
   */
  lemma CreatedExactlyWhen(steps: seq<Step>, step: Step, s: Settings)
    ensures var w, w' := Run(steps, s), Run(steps + [step], s);
      && |w.configs| <= |w'.configs| <= |w.configs| + 1
      && (|w'.configs| > |w.configs| <==> exists endpoint, node :: CreatesAt(w, step, endpoint, node, s))
      && (forall endpoint, node :: CreatesAt(w, step, endpoint, node, s) ==>
            JustCreated(w'.configs[|w.configs|], step.sub, endpoint, node, step.now, s))
  {
    var w, w' := Run(steps, s), Run(steps + [step], s);
    RunInv(steps, s);
    assert (steps + [step])[..|steps|] == steps;
    hide Inv, ControlPlane.Apply, CreatesAt, JustCreated;
    forall endpoint, node
      ensures CreatesAt(w, step, endpoint, node, s) ==>
        |w'.configs| == |w.configs| + 1 && JustCreated(w'.configs[|w.configs|], step.sub, endpoint, node, step.now, s)
    {
      StepCreates(w, step, s, endpoint, node);
    }
    StepCreates(w, step, s, 0, None);
  }
}
