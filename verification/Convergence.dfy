/**
 The reconciler's anomaly list is complete and precise: with no task in flight, it is empty
 exactly when local state has converged on what each subscription is entitled to.
 */
module Convergence {
  import opened Common
  import opened VpnEntity
  import opened NodeTaskEntity
  import opened PanelTaskEntity
  import opened NodeSelection
  import opened Transactions
  import opened Lifecycle
  import opened ControlPlane
  import opened ControlPlaneSafety

  predicate Entitled(w: World, sub: int, now: int) {
    sub in w.subs && w.subs[sub].active && Funded(w.subs[sub], now)
  }

  // ---------------------------------------------------------------- the six anomaly queries

  predicate ExpireSubscription(w: World, sub: int, now: int) {
    sub in w.subs && w.subs[sub].active && !Funded(w.subs[sub], now)
  }

  predicate RemoteLive(st: VpnStatus) {
    st == Provisioning || st == Active || st == Failed || st == RevokeFailed
  }

  predicate Blocking(st: VpnStatus) {
    RemoteLive(st) || st == Revoking
  }

  predicate RevokeVpn(w: World, i: int, now: int)
    requires 0 <= i < |w.configs|
  {
    var c := w.configs[i];
    c.subscription in w.subs && RemoteLive(c.vpn.status) && !Entitled(w, c.subscription, now)
  }

  predicate CleanupVpn(w: World, i: int, now: int)
    requires 0 <= i < |w.configs|
  {
    var c := w.configs[i];
    c.vpn.status == Failed && Entitled(w, c.subscription, now)
  }

  predicate BlockedBy(w: World, sub: int, i: int)
    requires 0 <= i < |w.configs|
  {
    w.configs[i].subscription == sub && Blocking(w.configs[i].vpn.status)
  }

  predicate ProvisionSubscription(w: World, sub: int, now: int) {
    Entitled(w, sub, now) && !(exists i :: 0 <= i < |w.configs| && BlockedBy(w, sub, i))
  }

  predicate ProvisionNeedsRepair(c: Config) {
    if c.node.Some? then
      var k := TaskKey(ProvisionClient, c.vpn.generation);
      k !in c.nodeTasks || !IsOpen(c.nodeTasks[k].task.status)
    else
      c.panelTask.None? || c.panelTask.value.generation != c.vpn.generation || !IsOpen(c.panelTask.value.status)
  }

  predicate RepairProvision(w: World, i: int, now: int)
    requires 0 <= i < |w.configs|
  {
    var c := w.configs[i];
    c.vpn.status == Provisioning && c.vpn.desired == WantActive && Entitled(w, c.subscription, now) && ProvisionNeedsRepair(c)
  }

  predicate RevokeNeedsRepair(c: Config) {
    if c.node.Some? then
      var k := TaskKey(RevokeClient, c.vpn.generation);
      k !in c.nodeTasks || c.nodeTasks[k].task.status == Succeeded
    else
      c.vpn.generation !in c.panelRevokes || c.panelRevokes[c.vpn.generation].status == Succeeded
  }

  predicate RepairRevoke(w: World, i: int)
    requires 0 <= i < |w.configs|
  {
    var c := w.configs[i];
    c.vpn.status == Revoking && c.vpn.desired == WantRevoked && RevokeNeedsRepair(c)
  }

  predicate ConfigAnomaly(w: World, i: int, now: int)
    requires 0 <= i < |w.configs|
  {
    RevokeVpn(w, i, now) || CleanupVpn(w, i, now) || RepairProvision(w, i, now) || RepairRevoke(w, i)
  }

  /** `list_reconciliation_anomalies` returns nothing. */
  ghost predicate NoAnomaly(w: World, now: int) {
    && (forall sub :: sub in w.subs ==> !ExpireSubscription(w, sub, now) && !ProvisionSubscription(w, sub, now))
    && (forall i :: 0 <= i < |w.configs| ==> !ConfigAnomaly(w, i, now))
  }

  // ---------------------------------------------------------------- convergence

  ghost predicate NoOpenTask(c: Config) {
    && (forall k :: k in c.nodeTasks ==> !IsOpen(c.nodeTasks[k].task.status))
    && (c.panelTask.Some? ==> !IsOpen(c.panelTask.value.status))
    && (forall g :: g in c.panelRevokes ==> !IsOpen(c.panelRevokes[g].status))
  }

  ghost predicate Quiescent(w: World) {
    forall i :: 0 <= i < |w.configs| ==> NoOpenTask(w.configs[i])
  }

  /** `i` is the one live configuration of `sub`, and it is settled. */
  ghost predicate ServedBy(w: World, sub: int, i: int) {
    && 0 <= i < |w.configs| && w.configs[i].subscription == sub
    && (w.configs[i].vpn.status == Active || w.configs[i].vpn.status == RevokeFailed)
    && (forall j :: 0 <= j < |w.configs| && j != i && w.configs[j].subscription == sub ==>
          IsTerminal(w.configs[j].vpn.status))
  }

  ghost predicate Converged(w: World, now: int) {
    && (forall i :: 0 <= i < |w.configs| && !Entitled(w, w.configs[i].subscription, now) ==>
          IsTerminal(w.configs[i].vpn.status))
    && (forall sub :: sub in w.subs && w.subs[sub].active ==> exists i :: ServedBy(w, sub, i))
  }

  /** A configuration in transition has an open task, or is listed. */
  lemma TransitionIsVisible(c: Config)
    requires ConfigInv(c) && NoOpenTask(c)
    ensures c.vpn.status == Provisioning ==> ProvisionNeedsRepair(c) && c.vpn.desired == WantActive
    ensures c.vpn.status == Revoking ==> RevokeNeedsRepair(c) && c.vpn.desired == WantRevoked
    ensures IsTerminal(c.vpn.status) || Blocking(c.vpn.status)
  {
    if c.node.Some? {
      assert KnownKey(c, CurrentKey(c.vpn.generation));
    } else if c.vpn.status == Revoking && c.vpn.generation in c.panelRevokes {
      assert PanelRevokeOk(c, c.vpn.generation, c.panelRevokes[c.vpn.generation]);
    }
  }

  lemma NoAnomalyServes(w: World, now: int, sub: int)
    requires Inv(w) && Quiescent(w) && NoAnomaly(w, now)
    requires sub in w.subs && w.subs[sub].active
    ensures exists i :: ServedBy(w, sub, i)
  {
    assert !ExpireSubscription(w, sub, now) && !ProvisionSubscription(w, sub, now);
    var i :| 0 <= i < |w.configs| && BlockedBy(w, sub, i);
    assert !ConfigAnomaly(w, i, now) && NoOpenTask(w.configs[i]);
    TransitionIsVisible(w.configs[i]);
    hide ConfigInv;
    assert ServedBy(w, sub, i);
  }

  lemma NoAnomalyConverges(w: World, now: int)
    requires Inv(w) && Quiescent(w) && NoAnomaly(w, now)
    ensures Converged(w, now)
  {
    hide ConfigInv;
    forall i | 0 <= i < |w.configs| && !Entitled(w, w.configs[i].subscription, now)
      ensures IsTerminal(w.configs[i].vpn.status)
    {
      assert !ConfigAnomaly(w, i, now) && NoOpenTask(w.configs[i]);
      TransitionIsVisible(w.configs[i]);
    }
    forall sub | sub in w.subs && w.subs[sub].active ensures exists i :: ServedBy(w, sub, i) {
      NoAnomalyServes(w, now, sub);
    }
  }

  lemma ConvergedHasNoAnomaly(w: World, now: int)
    requires Inv(w) && Converged(w, now)
    ensures NoAnomaly(w, now)
  {
    hide ConfigInv;
    forall sub | sub in w.subs
      ensures !ExpireSubscription(w, sub, now) && !ProvisionSubscription(w, sub, now)
    {
      if w.subs[sub].active {
        var i :| ServedBy(w, sub, i);
        assert BlockedBy(w, sub, i);
      }
    }
    forall i | 0 <= i < |w.configs| ensures !ConfigAnomaly(w, i, now) {
      var sub := w.configs[i].subscription;
      if Entitled(w, sub, now) {
        var j :| ServedBy(w, sub, j);
        assert i == j || IsTerminal(w.configs[i].vpn.status);
      }
    }
  }

  /**
   In every reachable store with no pending or in-progress task, the anomaly list is empty if and
   only if every configuration without current access is terminal and every active subscription has
   exactly one live configuration, which is ACTIVE or REVOKE_FAILED.
   */
  lemma AnomalyListIsExact(steps: seq<Step>, s: Settings, now: int)
    requires Quiescent(Run(steps, s))
    ensures NoAnomaly(Run(steps, s), now) <==> Converged(Run(steps, s), now)
  {
    RunInv(steps, s);
    var w := Run(steps, s);
    if NoAnomaly(w, now) { NoAnomalyConverges(w, now); }
    if Converged(w, now) { ConvergedHasNoAnomaly(w, now); }
  }

  /** The two repair anomalies need a lost row: neither ever appears for a node-backed configuration. */
  lemma NodeRepairsNeverListed(steps: seq<Step>, s: Settings, i: int, now: int)
    requires 0 <= i < |Run(steps, s).configs|
    ensures !RepairProvision(Run(steps, s), i, now)
    ensures Run(steps, s).configs[i].node.Some? ==> !RepairRevoke(Run(steps, s), i)
  {
    RunInv(steps, s);
    var c := Run(steps, s).configs[i];
    assert ConfigInv(c);
    if c.node.Some? { assert KnownKey(c, CurrentKey(c.vpn.generation)); }
  }

  /** A revoke request on a configuration that calls for one leaves it REVOKING with an open task. */
  lemma RevokePlanOpens(c: Config, now: int, s: Settings)
    requires ConfigInv(c)
    requires RemoteLive(c.vpn.status) || (c.node.None? && c.vpn.status == Revoking && RevokeNeedsRepair(c))
    ensures var c' := RevokePlan(c, now, s);
      c'.vpn.status == Revoking && !RevokeNeedsRepair(c') && !NoOpenTask(c')
  {
    var c' := RevokePlan(c, now, s);
    RevokePlanKeepsInv(c, now, s);
    if c.node.Some? {
      var k := CurrentKey(c'.vpn.generation);
      assert KnownKey(c', k);
      assert IsOpen(c'.nodeTasks[k].task.status);
    } else {
      if c.vpn.generation in c.panelRevokes {
        assert PanelRevokeOk(c, c.vpn.generation, c.panelRevokes[c.vpn.generation]);
      }
      assert IsOpen(c'.panelRevokes[c'.vpn.generation].status);
    }
  }

  /** What a granted revoke request leaves behind is on none of the anomaly queries. */
  lemma OpenRevokeIsNoAnomaly(w: World, i: int, now: int)
    requires 0 <= i < |w.configs| && w.configs[i].vpn.status == Revoking && !RevokeNeedsRepair(w.configs[i])
    ensures !ConfigAnomaly(w, i, now)
  {
    hide RevokeNeedsRepair, ProvisionNeedsRepair, Funded;
  }

  /** A revoke request with the reason of its anomaly is not dropped. */
  lemma RequestGranted(w: World, i: int, reason: RevokeReason, now: int, s: Settings)
    requires 0 <= i < |w.configs| && w.configs[i].subscription in w.subs
    requires reason == Expiration ==> RevokeVpn(w, i, now)
    ensures Revoke(w, i, reason, now, s) == PutConfig(w, i, RevokePlan(w.configs[i], now, s))
  {
    hide RevokePlan, Funded;
  }

  /** The job enqueued for a revoke, cleanup or revoke-repair anomaly takes the configuration off the list. */
  lemma RevokeJobClearsAnomaly(steps: seq<Step>, s: Settings, i: int, now: int, reason: RevokeReason)
    requires 0 <= i < |Run(steps, s).configs|
    requires match reason
      case Expiration => RevokeVpn(Run(steps, s), i, now)
      case ReplacementCleanup => CleanupVpn(Run(steps, s), i, now)
      case Force => RepairRevoke(Run(steps, s), i)
    ensures var w' := Run(steps + [RequestRevoke(i, reason, now)], s);
      && !ConfigAnomaly(w', i, now)
      && w'.configs[i].vpn.status == Revoking
      && !NoOpenTask(w'.configs[i])
  {
    var w := Run(steps, s);
    RunInv(steps, s);
    assert (steps + [RequestRevoke(i, reason, now)])[..|steps|] == steps;
    assert Run(steps + [RequestRevoke(i, reason, now)], s) == Revoke(w, i, reason, now, s);
    NodeRepairsNeverListed(steps, s, i, now);
    RequestGranted(w, i, reason, now, s);
    RevokePlanOpens(w.configs[i], now, s);
    var w' := PutConfig(w, i, RevokePlan(w.configs[i], now, s));
    hide Run, Revoke, Inv, RevokePlan, NoOpenTask, RevokeNeedsRepair, ConfigAnomaly, RevokeVpn, CleanupVpn, RepairRevoke;
    OpenRevokeIsNoAnomaly(w', i, now);
  }

  /** An entitled subscription without a blocking configuration gets a new one from its provisioning job. */
  lemma UnservedCreates(w: World, sub: int, now: int)
    requires Inv(w) && ProvisionSubscription(w, sub, now)
    ensures PlanProvision(w, sub, now) == Create
  {
    forall i | 0 <= i < |w.configs| && w.configs[i].subscription == sub ensures IsTerminal(w.configs[i].vpn.status) {
      assert !BlockedBy(w, sub, i);
    }
    hide ConfigInv;
  }

  lemma FreshIsNoAnomaly(w: World, sub: int, endpoint: int, node: Option<int>, at: int, s: Settings, now: int)
    ensures var c := FreshConfig(sub, endpoint, node, at, s);
      var w' := w.(configs := w.configs + [c]);
      && !NoOpenTask(c) && !ProvisionNeedsRepair(c) && c.subscription == sub && c.vpn.status == Provisioning
      && BlockedBy(w', sub, |w.configs|)
  {
    var c := FreshConfig(sub, endpoint, node, at, s);
    if node.Some? { assert IsOpen(c.nodeTasks[TaskKey(ProvisionClient, 1)].task.status); }
  }

  /** The job enqueued for a provisioning anomaly takes the subscription off the list, where there is a place. */
  lemma ProvisionJobClearsAnomaly(
    steps: seq<Step>, s: Settings, sub: int, now: int, snapshot: seq<Candidate>, ticket: int, panelEndpoint: Option<int>)
    requires ProvisionSubscription(Run(steps, s), sub, now) && TicketDrawn(snapshot, ticket, now, s.staleAfter)
    requires SelectEndpoint(Run(steps, s), snapshot, ticket, panelEndpoint, now, s).At?
    ensures var w := Run(steps, s);
      var w' := Run(steps + [RequestProvision(sub, now, snapshot, ticket, panelEndpoint)], s);
      && !ProvisionSubscription(w', sub, now)
      && |w'.configs| == |w.configs| + 1 && w'.configs[|w.configs|].subscription == sub
      && !NoOpenTask(w'.configs[|w.configs|]) && !ConfigAnomaly(w', |w.configs|, now)
  {
    var w := Run(steps, s);
    var step := RequestProvision(sub, now, snapshot, ticket, panelEndpoint);
    RunInv(steps, s);
    assert (steps + [step])[..|steps|] == steps;
    assert Run(steps + [step], s) == Apply(w, step, s);
    hide Run, Inv, SelectEndpoint, FreshConfig, NoOpenTask, ProvisionNeedsRepair, RevokeNeedsRepair, Funded;
    UnservedCreates(w, sub, now);
    var place := SelectEndpoint(w, snapshot, ticket, panelEndpoint, now, s);
    var c := FreshConfig(sub, place.endpoint, place.node, now, s);
    assert Apply(w, step, s) == w.(configs := w.configs + [c]);
    hide Apply;
    FreshIsNoAnomaly(w, sub, place.endpoint, place.node, now, s, now);
    CreatedIsNoAnomaly(w, c, sub, now);
  }

  /** A configuration that has just been created for an entitled subscription is on none of the lists. */
  lemma CreatedIsNoAnomaly(w: World, c: Config, sub: int, now: int)
    requires c.subscription == sub && c.vpn.status == Provisioning && !ProvisionNeedsRepair(c) && Entitled(w, sub, now)
    ensures var w' := w.(configs := w.configs + [c]);
      !ConfigAnomaly(w', |w.configs|, now) && !ProvisionSubscription(w', sub, now)
  {
    hide ProvisionNeedsRepair, RevokeNeedsRepair, Funded;
    var w' := w.(configs := w.configs + [c]);
    assert w'.configs[|w.configs|] == c;
    assert BlockedBy(w', sub, |w.configs|);
  }

  /** The reconciler's expiry takes the subscription off the list. */
  lemma ExpiryClearsAnomaly(steps: seq<Step>, s: Settings, sub: int, now: int)
    requires ExpireSubscription(Run(steps, s), sub, now)
    ensures var w := Run(steps, s);
      var w' := Run(steps + [EntitlementsChange(w.subs[sub := w.subs[sub].(active := false)])], s);
      !ExpireSubscription(w', sub, now) && (forall other :: other != sub ==>
        (ExpireSubscription(w', other, now) <==> ExpireSubscription(w, other, now)))
  {
    var w := Run(steps, s);
    var step := EntitlementsChange(w.subs[sub := w.subs[sub].(active := false)]);
    assert (steps + [step])[..|steps|] == steps;
    hide Funded;
  }
}
