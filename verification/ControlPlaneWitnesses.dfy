/**
 Runs of the control plane that show where a tempting promise fails: concrete inputs to the
 conditions proved about all runs.
 */
module ControlPlaneWitnesses {
  import opened Common
  import opened VpnEntity
  import opened NodeTaskEntity
  import opened PanelTaskEntity
  import opened NodeSelection
  import opened Transactions
  import opened Lifecycle
  import opened ControlPlane
  import opened ControlPlaneSafety
  import opened TaskProgress
  import opened PanelProgress

  lemma RunSnoc(steps: seq<Step>, step: Step, s: Settings)
    ensures Run(steps + [step], s) == Apply(Run(steps, s), step, s)
  {
    assert (steps + [step])[..|steps|] == steps;
  }

  // ---------------------------------------------------------------- a store with one configuration

  const SUBSCRIBER := 7
  const PERIODS := [AccessPeriod(0, 100, true)]
  const ENTITLED: map<int, Entitlement> := map[SUBSCRIBER := Entitlement(true, PERIODS)]

  const NODE_UP := Some(NodeState(Online, true, Some(0)))
  const NODE_FLEET :=
    Fleet(map[1 := NodeRow(Online, true, Some(0), None, Some(10), 1)], map[1 := EndpointRow(Some(1), true)])
  const CANDIDATE := Candidate(1, 1, Online, true, Some(0), None, Some(10), 1, 0)
  const PANEL_FLEET := Fleet(map[], map[1 := EndpointRow(None, true)])

  /** The store after one provisioning request. */
  function OneConfig(subs: map<int, Entitlement>, fleet: Fleet, c: Config): World {
    World(subs, [c], fleet)
  }

  lemma FundedAtStart()
    ensures Funded(ENTITLED[SUBSCRIBER], 0)
  {
    assert Covers(ENTITLED[SUBSCRIBER].periods[0], 0);
  }

  /** A single eligible online candidate is what every ticket selects. */
  lemma SingleCandidate(c: Candidate, now: int, staleAfter: int)
    requires Eligible(c, now, staleAfter)
    ensures TicketDrawn([c], 0, now, staleAfter) && Select([c], now, staleAfter, 0) == Some(c)
  {
    RepresentativesExact([c], now, staleAfter);
    SelectionIsExact([c], now, staleAfter);
    var pool := Pool([c], now, staleAfter);
    var nodes := Representatives(pool);
    hide Pool, Representatives, Eligible, PickIndex;
    assert c in [c];
    assert nodes != [];
    var r := Select([c], now, staleAfter, 0).value;
    var k :| 0 <= k < |nodes| && nodes[k] == r;
    assert Represents(pool, nodes[k]);
  }

  lemma NodePlace(w: World, s: Settings)
    requires w.configs == [] && w.fleet == NODE_FLEET
    ensures TicketDrawn([CANDIDATE], 0, 0, s.staleAfter)
    ensures SelectEndpoint(w, [CANDIDATE], 0, None, 0, s) == At(1, Some(1))
  {
    assert Eligible(CANDIDATE, 0, s.staleAfter);
    SingleCandidate(CANDIDATE, 0, s.staleAfter);
    hide Select;
    assert CandidateRow(w, 1, 1) == Some(CANDIDATE);
  }

  lemma PanelPlace(w: World, s: Settings)
    requires w.configs == [] && w.fleet == PANEL_FLEET
    ensures TicketDrawn([], 0, 0, s.staleAfter)
    ensures SelectEndpoint(w, [], 0, Some(1), 0, s) == At(1, None)
  {
    RepresentativesExact([], 0, s.staleAfter);
    hide Pool, Representatives;
  }

  function FleetOf(onNode: bool): Fleet {
    if onNode then NODE_FLEET else PANEL_FLEET
  }

  function FirstRequest(sub: int, onNode: bool): Step {
    if onNode then RequestProvision(sub, 0, [CANDIDATE], 0, None) else RequestProvision(sub, 0, [], 0, Some(1))
  }

  function FirstConfig(sub: int, onNode: bool, s: Settings): Config {
    FreshConfig(sub, 1, if onNode then Some(1) else None, 0, s)
  }

  /** The request for an entitled subscription creates the first configuration, on a node or on the panel. */
  lemma RequestCreates(w: World, sub: int, onNode: bool, s: Settings)
    requires w.configs == [] && w.fleet == FleetOf(onNode)
    requires sub in w.subs && w.subs[sub].active && Funded(w.subs[sub], 0)
    ensures Apply(w, FirstRequest(sub, onNode), s) == w.(configs := [FirstConfig(sub, onNode, s)])
  {
    if onNode { NodePlace(w, s); } else { PanelPlace(w, s); }
    hide Funded, SelectEndpoint, FreshConfig, TicketDrawn;
    assert PlanProvision(w, sub, 0) == Create;
  }

  /** A subscriber whose first configuration has just been requested. */
  lemma Requested(onNode: bool, s: Settings) returns (steps: seq<Step>)
    ensures Run(steps, s) == OneConfig(ENTITLED, FleetOf(onNode), FirstConfig(SUBSCRIBER, onNode, s))
    ensures forall k :: 0 <= k < |steps| ==> !steps[k].WorkerCommits?
  {
    var fleet, request := FleetChange(FleetOf(onNode)), FirstRequest(SUBSCRIBER, onNode);
    RunSnoc([], fleet, s);
    RunSnoc([] + [fleet], EntitlementsChange(ENTITLED), s);
    var s2 := [] + [fleet] + [EntitlementsChange(ENTITLED)];
    var w := Run(s2, s);
    assert w == World(ENTITLED, [], FleetOf(onNode));
    RunSnoc(s2, request, s);
    steps := s2 + [request];
    FundedAtStart();
    hide Run, Funded, FirstConfig;
    RequestCreates(w, SUBSCRIBER, onNode, s);
  }

  /** A worker's transaction on the only configuration. */
  lemma WorkApplies(w: World, work: Work, now: int, s: Settings)
    requires |w.configs| == 1
    ensures var c := w.configs[0];
      Apply(w, WorkerCommits(0, work, now), s) == w.(configs := [Perform(c, work, now, SubFunded(w, c.subscription, now), s)])
  {
    hide Perform, SubFunded;
  }

  lemma WorkSnoc(steps: seq<Step>, work: Work, now: int, s: Settings)
    requires |Run(steps, s).configs| == 1
    ensures var w := Run(steps, s);
      var c := w.configs[0];
      Run(steps + [WorkerCommits(0, work, now)], s)
        == w.(configs := [Perform(c, work, now, SubFunded(w, c.subscription, now), s)])
  {
    RunSnoc(steps, WorkerCommits(0, work, now), s);
    hide Run, Perform, SubFunded;
    WorkApplies(Run(steps, s), work, now, s);
  }

  /** A forced revoke of the only configuration. */
  lemma ForceApplies(w: World, now: int, s: Settings)
    requires |w.configs| == 1
    ensures Apply(w, RequestRevoke(0, Force, now), s) == w.(configs := [RevokePlan(w.configs[0], now, s)])
  {
    hide RevokePlan;
  }

  lemma ForceSnoc(steps: seq<Step>, now: int, s: Settings)
    requires |Run(steps, s).configs| == 1
    ensures var w := Run(steps, s);
      Run(steps + [RequestRevoke(0, Force, now)], s) == w.(configs := [RevokePlan(w.configs[0], now, s)])
  {
    RunSnoc(steps, RequestRevoke(0, Force, now), s);
    hide Run, RevokePlan;
    ForceApplies(Run(steps, s), now, s);
  }

  // ---------------------------------------------------------------- a task is dispatched

  const PROVISION := TaskKey(ProvisionClient, 1)
  const REVOKE := TaskKey(RevokeClient, 2)
  const PROVISIONED := Response(Provisioned, None, "")
  const REVOKED_ANSWER := Response(ClientRevoked, None, "")

  /** Attempt 1 of task `k` is out under `token`, with a lease that holds at time 0. */
  ghost predicate Dispatched(c: Config, k: TaskKey, token: int) {
    k in c.nodeTasks && OwnsActiveLease(c.nodeTasks[k].task, token, 0, 1)
  }

  lemma Dispatch(c: Config, k: TaskKey, token: int, s: Settings)
    requires k in c.nodeTasks && c.nodeTasks[k] == Ledger(NewTask(s.nodeMaxAttempts, 0), map[])
    ensures var c' := NodePrepare(c, k, 0, token, NODE_UP, true, s);
      && Dispatched(c', k, token) && c' == c.(nodeTasks := c'.nodeTasks) && c'.nodeTasks.Keys == c.nodeTasks.Keys
      && (forall j :: j in c.nodeTasks && j != k ==> c'.nodeTasks[j] == c.nodeTasks[j])
  {
  }

  /** The first provisioning attempt is out under token 10. */
  ghost predicate InFlight(c: Config, onNode: bool) {
    && c.vpn == FRESH_VPN
    && (if onNode then Dispatched(c, PROVISION, 10)
        else c.panelTask.Some? && PanelOwnsActiveLease(c.panelTask.value, 10, 1, 0) && c.panelTask.value.generation == 1)
  }

  function FirstDispatch(onNode: bool): Work {
    if onNode then NodePrepares(PROVISION, 10, NODE_UP, true) else PanelPrepares(10)
  }

  function FirstSuccess(onNode: bool): Work {
    if onNode then NodeFinalizes(PROVISION, 10, 1, Answered(Some(PROVISIONED))) else PanelSucceeds(10, 1)
  }

  lemma FirstDispatched(sub: int, onNode: bool, funded: bool, s: Settings)
    ensures var c := Perform(FirstConfig(sub, onNode, s), FirstDispatch(onNode), 0, funded, s);
      c.subscription == sub && InFlight(c, onNode) && (onNode ==> c.node.Some? && c.nodeTasks.Keys == {PROVISION})
  {
    if onNode { Dispatch(FirstConfig(sub, onNode, s), PROVISION, 10, s); hide NodePrepare; }
  }

  lemma SuccessActivates(w: World, onNode: bool)
    requires |w.configs| == 1 && InFlight(w.configs[0], onNode) && SubFunded(w, w.configs[0].subscription, 0)
    ensures Activates(w, WorkerCommits(0, FirstSuccess(onNode), 0), 0)
  {
    hide SubFunded;
  }

  // ---------------------------------------------------------------- a late success without cleanup

  const REVOKE_DISPATCH := NodePrepares(REVOKE, 11, NODE_UP, true)
  const REVOKE_SUCCESS := NodeFinalizes(REVOKE, 11, 1, Answered(Some(REVOKED_ANSWER)))

  /** Provisioning was dispatched and then cancelled by a forced revoke, which is dispatched as well. */
  ghost predicate BothInFlight(c: Config) {
    && c.node.Some? && c.vpn.generation == 2 && CanRevoke(c.vpn) && c.nodeTasks.Keys == {PROVISION, REVOKE}
    && Dispatched(c, PROVISION, 10) && Dispatched(c, REVOKE, 11)
  }

  lemma CancelsInFlight(c: Config, funded: bool, s: Settings)
    requires InFlight(c, true) && c.node.Some? && c.nodeTasks.Keys == {PROVISION}
    ensures var c1 := RevokePlan(c, 0, s);
      && REVOKE in c1.nodeTasks && c1.nodeTasks[REVOKE].task.status == Pending
      && BothInFlight(Perform(c1, REVOKE_DISPATCH, 0, funded, s))
  {
    var c1 := RevokePlan(c, 0, s);
    assert REVOKE !in c.nodeTasks;
    assert c1.nodeTasks.Keys == {PROVISION, REVOKE} && c1.nodeTasks[PROVISION] == c.nodeTasks[PROVISION];
    Dispatch(c1, REVOKE, 11, s);
    hide NodePrepare;
  }

  /** The revoke has finished and the provisioning is still out. */
  ghost predicate RevokedFirst(c: Config) {
    && c.node.Some? && c.vpn.status == Revoked && c.vpn.generation == 2 && c.nodeTasks.Keys == {PROVISION, REVOKE}
    && Dispatched(c, PROVISION, 10) && c.nodeTasks[REVOKE].task.status == Succeeded
  }

  ghost predicate FinishedRevoked(c: Config) {
    && c.node.Some? && c.vpn.status == Revoked
    && PROVISION in c.nodeTasks && c.nodeTasks[PROVISION].task.status == Succeeded
    && (forall k :: k in c.nodeTasks ==> !IsOpen(c.nodeTasks[k].task.status))
  }

  lemma FinishesRevokeFirst(c: Config, funded: bool, s: Settings)
    requires BothInFlight(c)
    ensures RevokedFirst(Perform(c, REVOKE_SUCCESS, 0, funded, s))
  {
  }

  lemma FinishesLate(c: Config, funded: bool, s: Settings)
    requires RevokedFirst(c)
    ensures FinishedRevoked(Perform(c, FirstSuccess(true), 0, funded, s))
  {
  }

  /**
   The revoke finishes first, and the late provision success then leaves a REVOKED configuration and
   no task that would remove the client.
   */
  lemma LateSuccessWithoutCleanup(s: Settings) returns (steps: seq<Step>)
    ensures var w := Run(steps, s); |w.configs| == 1 && FinishedRevoked(w.configs[0])
  {
    var s0 := Requested(true, s);
    hide Run, Perform, RevokePlan, FirstConfig, InFlight, BothInFlight, RevokedFirst, FinishedRevoked, SubFunded;
    var w0 := Run(s0, s);
    FirstDispatched(SUBSCRIBER, true, SubFunded(w0, w0.configs[0].subscription, 0), s);
    WorkSnoc(s0, FirstDispatch(true), 0, s);
    var s1 := s0 + [WorkerCommits(0, FirstDispatch(true), 0)];
    ForceSnoc(s1, 0, s);
    var s2 := s1 + [RequestRevoke(0, Force, 0)];
    var w2 := Run(s2, s);
    CancelsInFlight(Run(s1, s).configs[0], SubFunded(w2, w2.configs[0].subscription, 0), s);
    WorkSnoc(s2, REVOKE_DISPATCH, 0, s);
    var s3 := s2 + [WorkerCommits(0, REVOKE_DISPATCH, 0)];
    var w3 := Run(s3, s);
    FinishesRevokeFirst(w3.configs[0], SubFunded(w3, w3.configs[0].subscription, 0), s);
    WorkSnoc(s3, REVOKE_SUCCESS, 0, s);
    var s4 := s3 + [WorkerCommits(0, REVOKE_SUCCESS, 0)];
    var w4 := Run(s4, s);
    FinishesLate(w4.configs[0], SubFunded(w4, w4.configs[0].subscription, 0), s);
    WorkSnoc(s4, FirstSuccess(true), 0, s);
    steps := s4 + [WorkerCommits(0, FirstSuccess(true), 0)];
  }

  // ---------------------------------------------------------------- panel attempts without bound

  /** `n` attempts of the provision task have been started and recovered; the next one is due at `now`. */
  ghost predicate Recovered(c: Config, n: nat, now: int) {
    && c.panelTask.Some?
    && (var t := c.panelTask.value;
        t.status == Pending && t.attempts == n && t.nextRetryAt == Some(now) && (n > 0 ==> t.compensation))
  }

  lemma OneMoreAttempt(c: Config, n: nat, now: int, s: Settings)
    requires Recovered(c, n, now)
    ensures var c1 := PanelPrepare(c, now, n, s);
      && c1.panelTask.Some? && c1.panelTask.value.status == InProgress && c1.panelTask.value.attempts == n + 1
      && c1.panelTask.value.maxAttempts == c.panelTask.value.maxAttempts
      && Recovered(PanelRecover(c1, now + s.panelLease), n + 1, now + s.panelLease)
      && PanelRecover(c1, now + s.panelLease).panelTask.value.maxAttempts == c.panelTask.value.maxAttempts
  {
  }

  /** One store holds the only configuration, recovered `n` times. */
  ghost predicate RecoveredRun(w: World, n: nat, now: int, s: Settings) {
    |w.configs| == 1 && Recovered(w.configs[0], n, now) && w.configs[0].panelTask.value.maxAttempts == s.panelMaxAttempts
  }

  lemma RecoveredStep(steps: seq<Step>, n: nat, now: int, s: Settings)
    requires RecoveredRun(Run(steps, s), n, now, s)
    ensures RecoveredRun(Run(steps + [WorkerCommits(0, PanelPrepares(n), now)]
                                   + [WorkerCommits(0, PanelRecovers, now + s.panelLease)], s), n + 1, now + s.panelLease, s)
  {
    var s1 := steps + [WorkerCommits(0, PanelPrepares(n), now)];
    hide Run, PanelPrepare, PanelRecover, Recovered;
    OneMoreAttempt(Run(steps, s).configs[0], n, now, s);
    WorkSnoc(steps, PanelPrepares(n), now, s);
    WorkSnoc(s1, PanelRecovers, now + s.panelLease, s);
  }

  lemma {:induction false} RecoveredTimes(n: nat, s: Settings) returns (steps: seq<Step>, now: int)
    ensures RecoveredRun(Run(steps, s), n, now, s)
  {
    hide Run;
    if n == 0 {
      steps := Requested(false, s);
      now := 0;
    } else {
      hide RecoveredRun;
      var s0, t := RecoveredTimes(n - 1, s);
      RecoveredStep(s0, n - 1, t, s);
      steps := s0 + [WorkerCommits(0, PanelPrepares(n - 1), t)] + [WorkerCommits(0, PanelRecovers, t + s.panelLease)];
      now := t + s.panelLease;
    }
  }

  /** Panel attempts have no bound: for every number there is a run whose provision task starts that many, whatever its limit. */
  lemma PanelAttemptsUnbounded(n: nat, s: Settings) returns (steps: seq<Step>)
    requires n > 0
    ensures var w := Run(steps, s);
      && |w.configs| == 1 && w.configs[0].panelTask.Some?
      && w.configs[0].panelTask.value.status == InProgress && w.configs[0].panelTask.value.attempts == n
      && w.configs[0].panelTask.value.maxAttempts == s.panelMaxAttempts
  {
    var s0, now := RecoveredTimes(n - 1, s);
    OneMoreAttempt(Run(s0, s).configs[0], n - 1, now, s);
    hide Run, PanelPrepare;
    WorkSnoc(s0, PanelPrepares(n - 1), now, s);
    steps := s0 + [WorkerCommits(0, PanelPrepares(n - 1), now)];
  }

  /** The same on the revoke side, after a forced revoke. */
  ghost predicate RevokeRecovered(c: Config, n: nat, now: int) {
    && 2 in c.panelRevokes
    && (var t := c.panelRevokes[2]; t.status == Pending && t.attempts == n && t.nextRetryAt == Some(now))
  }

  lemma OneMoreRevokeAttempt(c: Config, n: nat, now: int, s: Settings)
    requires RevokeRecovered(c, n, now)
    ensures var c1 := PanelRevokePrepare(c, 2, now, n, s);
      var c2 := PanelRevokeRecover(c1, 2, now + s.panelLease);
      RevokeRecovered(c2, n + 1, now + s.panelLease) && c2.panelRevokes[2].maxAttempts == c.panelRevokes[2].maxAttempts
  {
  }

  ghost predicate RevokeRecoveredRun(w: World, n: nat, now: int, s: Settings) {
    |w.configs| == 1 && RevokeRecovered(w.configs[0], n, now) && w.configs[0].panelRevokes[2].maxAttempts == s.panelMaxAttempts
  }

  lemma RevokeRecoveredStep(steps: seq<Step>, n: nat, now: int, s: Settings)
    requires RevokeRecoveredRun(Run(steps, s), n, now, s)
    ensures RevokeRecoveredRun(Run(steps + [WorkerCommits(0, PanelRevokePrepares(2, n), now)]
                                         + [WorkerCommits(0, PanelRevokeRecovers(2), now + s.panelLease)], s),
                               n + 1, now + s.panelLease, s)
  {
    var s1 := steps + [WorkerCommits(0, PanelRevokePrepares(2, n), now)];
    hide Run, PanelRevokePrepare, PanelRevokeRecover, RevokeRecovered;
    OneMoreRevokeAttempt(Run(steps, s).configs[0], n, now, s);
    WorkSnoc(steps, PanelRevokePrepares(2, n), now, s);
    WorkSnoc(s1, PanelRevokeRecovers(2), now + s.panelLease, s);
  }

  /** A forced revoke of the requested configuration leaves its revoke task due. */
  lemma RevokeRequested(s: Settings) returns (steps: seq<Step>)
    ensures RevokeRecoveredRun(Run(steps, s), 0, 0, s)
  {
    hide Run;
    var s0 := Requested(false, s);
    ForceSnoc(s0, 0, s);
    steps := s0 + [RequestRevoke(0, Force, 0)];
  }

  /** Nor have revoke attempts: any number of them can be started and lost, whatever the limit. */
  lemma {:induction false} RevokeAttemptsUnbounded(n: nat, s: Settings) returns (steps: seq<Step>, now: int)
    ensures RevokeRecoveredRun(Run(steps, s), n, now, s)
  {
    hide Run, RevokeRecoveredRun;
    if n == 0 {
      steps := RevokeRequested(s);
      now := 0;
    } else {
      var s0, t := RevokeAttemptsUnbounded(n - 1, s);
      RevokeRecoveredStep(s0, n - 1, t, s);
      steps := s0 + [WorkerCommits(0, PanelRevokePrepares(2, n - 1), t)] + [WorkerCommits(0, PanelRevokeRecovers(2), t + s.panelLease)];
      now := t + s.panelLease;
    }
  }
}
