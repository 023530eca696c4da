/**
 Runs of control plane and agents: one in which a completed operation runs a second time, because its
 row is retired before a copy of its request arrives, and one that leaves a client behind.
 */
module AgreementWitnesses {
  import opened Common
  import opened VpnEntity
  import opened NodeTaskEntity
  import opened Transactions
  import opened ControlPlane
  import opened ControlPlaneSafety
  import opened ControlPlaneWitnesses
  import Journal
  import opened AgentAgreement
  import opened NodeClients

  const KEY := OpKey(0, PROVISION)

  lemma NetSnoc(steps: seq<NetStep>, step: NetStep, lease: int, s: Settings)
    ensures NetRun(steps + [step], lease, s) == Next(NetRun(steps, lease, s), step, lease, s)
  {
    assert (steps + [step])[..|steps|] == steps;
  }

  /** Steps that report no answer need no network. */
  lemma {:induction false} ControlOnly(control: seq<Step>, lease: int, s: Settings) returns (steps: seq<NetStep>)
    requires forall k :: 0 <= k < |control| ==> !control[k].WorkerCommits?
    ensures var n := NetRun(steps, lease, s); n == QUIET.(world := Run(control, s))
    ensures forall k :: 0 <= k < |steps| ==> steps[k].Control?
  {
    steps := [];
    if control != [] {
      var k := |control| - 1;
      var p := ControlOnly(control[..k], lease, s);
      NetSnoc(p, Control(control[k]), lease, s);
      hide NetRun, ControlPlane.Apply;
      steps := p + [Control(control[k])];
    }
  }

  /** The first provisioning request is on its way to the agent. */
  lemma RequestSent(lease: int, s: Settings) returns (steps: seq<NetStep>)
    ensures var n := NetRun(steps, lease, s);
      && n == QUIET.(world := n.world, requests := {KEY})
      && |n.world.configs| == 1 && InFlight(n.world.configs[0], true)
      && n.world.configs[0].node.Some? && n.world.configs[0].nodeTasks.Keys == {PROVISION}
    ensures forall k :: 0 <= k < |steps| ==> steps[k].Control?
  {
    var control := Requested(true, s);
    var s0 := ControlOnly(control, lease, s);
    var dispatch := WorkerCommits(0, FirstDispatch(true), 0);
    NetSnoc(s0, Control(dispatch), lease, s);
    var w := Run(control, s);
    hide NetRun, Run;
    FirstDispatched(SUBSCRIBER, true, SubFunded(w, SUBSCRIBER, 0), s);
    steps := s0 + [Control(dispatch)];
    assert TaskOf(w, KEY).Some? && TaskOf(w, KEY).value.status == Pending;
    hide Perform, SubFunded, FirstConfig;
  }

  /** The agent carries it out, and journals and answers its success. */
  lemma AgentSucceeds(lease: int, s: Settings) returns (steps: seq<NetStep>)
    ensures var n := NetRun(steps, lease, s);
      && CompletedAt(steps, |steps|, KEY, lease, s) && n.handlers == map[] && n.requests == {KEY}
      && Answer(KEY, PROVISIONED) in n.answers
      && |n.world.configs| == 1 && InFlight(n.world.configs[0], true)
  {
    var s0 := RequestSent(lease, s);
    hide NetRun, InFlight;
    NetSnoc(s0, RequestArrives(KEY, 0, 1), lease, s);
    var s1 := s0 + [RequestArrives(KEY, 0, 1)];
    NetSnoc(s1, OperationEnds(1, None, Some(PROVISIONED)), lease, s);
    steps := s1 + [OperationEnds(1, None, Some(PROVISIONED))];
    assert steps[..|steps|] == steps;
  }

  lemma SuccessStored(c: Config, funded: bool, s: Settings)
    requires InFlight(c, true)
    ensures var c' := Perform(c, FirstSuccess(true), 0, funded, s);
      PROVISION in c'.nodeTasks && c'.nodeTasks[PROVISION].task.status == Succeeded
  {
  }

  /** The control plane stores the answer, the row is retired, and a late copy of the request starts the operation again. */
  lemma DuplicateAfterRetirement(lease: int, s: Settings) returns (steps: seq<NetStep>, p: int, q: int)
    ensures CompletedAt(steps, p, KEY, lease, s) && p <= q && Starts(steps, q, KEY, lease, s)
    ensures var t := TaskOf(NetRun(steps[..q], lease, s).world, KEY); t.Some? && t.value.status == Succeeded
  {
    var s0 := AgentSucceeds(lease, s);
    hide NetRun, InFlight;
    p := |s0|;
    var n0 := NetRun(s0, lease, s);
    var store := WorkerCommits(0, FirstSuccess(true), 0);
    SuccessStored(n0.world.configs[0], SubFunded(n0.world, n0.world.configs[0].subscription, 0), s);
    NetSnoc(s0, Control(store), lease, s);
    var s1 := s0 + [Control(store)];
    hide Perform, SubFunded;
    NetSnoc(s1, RetirementSent(KEY), lease, s);
    var s2 := s1 + [RetirementSent(KEY)];
    NetSnoc(s2, RetirementArrives(KEY), lease, s);
    var s3 := s2 + [RetirementArrives(KEY)];
    steps := s3 + [RequestArrives(KEY, 0, 2)];
    q := |s3|;
    assert steps[..q] == s3 && steps[..p] == s0 && s0[..p] == s0;
  }

  // ---------------------------------------------------------------- a client left behind

  const REVOKE_KEY := OpKey(0, REVOKE)

  lemma SiteSnoc(steps: seq<SiteStep>, step: SiteStep, lease: int, s: Settings)
    ensures SiteRun(steps + [step], lease, s) == SiteNext(SiteRun(steps, lease, s), step, lease, s)
  {
    assert (steps + [step])[..|steps|] == steps;
  }

  lemma {:induction false} ControlOnlySite(net: seq<NetStep>, lease: int, s: Settings) returns (steps: seq<SiteStep>)
    requires forall k :: 0 <= k < |net| ==> net[k].Control?
    ensures SiteRun(steps, lease, s) == BARE.(net := NetRun(net, lease, s))
  {
    steps := [];
    if net != [] {
      var k := |net| - 1;
      var p := ControlOnlySite(net[..k], lease, s);
      SiteSnoc(p, Travels(net[k]), lease, s);
      hide SiteRun, AgentAgreement.Next;
      steps := p + [Travels(net[k])];
    }
  }

  /** The provisioning is cancelled by a forced revoke while its request is out, and the revoke request is sent too. */
  lemma BothSent(lease: int, s: Settings) returns (steps: seq<NetStep>)
    ensures var n := NetRun(steps, lease, s);
      && n == QUIET.(world := n.world, requests := {KEY, REVOKE_KEY})
      && |n.world.configs| == 1 && BothInFlight(n.world.configs[0])
    ensures forall k :: 0 <= k < |steps| ==> steps[k].Control?
  {
    var s0 := RequestSent(lease, s);
    hide NetRun, RevokePlan, Perform, InFlight, SubFunded;
    var w0 := NetRun(s0, lease, s).world;
    var force, dispatch := RequestRevoke(0, Force, 0), WorkerCommits(0, REVOKE_DISPATCH, 0);
    ForceApplies(w0, 0, s);
    NetSnoc(s0, Control(force), lease, s);
    var s1 := s0 + [Control(force)];
    var w1 := NetRun(s1, lease, s).world;
    CancelsInFlight(w0.configs[0], SubFunded(w1, w1.configs[0].subscription, 0), s);
    WorkApplies(w1, REVOKE_DISPATCH, 0, s);
    hide ControlPlane.Apply;
    NetSnoc(s1, Control(dispatch), lease, s);
    steps := s1 + [Control(dispatch)];
  }

  /** Both operations have been started by the agent, and neither has taken effect. */
  lemma BothStarted(lease: int, s: Settings) returns (steps: seq<SiteStep>)
    ensures var site := SiteRun(steps, lease, s);
      && |site.net.world.configs| == 1 && BothInFlight(site.net.world.configs[0])
      && site.calls == map[1 := Handler(KEY, false), 2 := Handler(REVOKE_KEY, false)] && site.net.handlers == site.calls
      && Journal.Owns(site.net.journal, KEY, 1) && Journal.Owns(site.net.journal, REVOKE_KEY, 2)
  {
    var net := BothSent(lease, s);
    var s0 := ControlOnlySite(net, lease, s);
    hide NetRun, SiteRun, BothInFlight;
    SiteSnoc(s0, Travels(RequestArrives(KEY, 0, 1)), lease, s);
    var s1 := s0 + [Travels(RequestArrives(KEY, 0, 1))];
    SiteSnoc(s1, Travels(RequestArrives(REVOKE_KEY, 0, 2)), lease, s);
    steps := s1 + [Travels(RequestArrives(REVOKE_KEY, 0, 2))];
  }

  /** The revoke takes effect, is answered and stored; the provisioning operation is still running. */
  lemma RevokedMeanwhile(lease: int, s: Settings) returns (steps: seq<SiteStep>)
    ensures var site := SiteRun(steps, lease, s);
      && |site.net.world.configs| == 1 && RevokedFirst(site.net.world.configs[0])
      && 1 in site.calls && site.calls[1] == Handler(KEY, false) && site.net.handlers == map[1 := Handler(KEY, false)]
      && Journal.Owns(site.net.journal, KEY, 1)
  {
    var s0 := BothStarted(lease, s);
    hide SiteRun, BothInFlight, RevokedFirst, Perform, SubFunded;
    var w := SiteRun(s0, lease, s).net.world;
    SiteSnoc(s0, Acts(2), lease, s);
    var s1 := s0 + [Acts(2)];
    var end := Travels(OperationEnds(2, None, Some(REVOKED_ANSWER)));
    SiteSnoc(s1, end, lease, s);
    var s2 := s1 + [end];
    var store := WorkerCommits(0, REVOKE_SUCCESS, 0);
    FinishesRevokeFirst(w.configs[0], SubFunded(w, w.configs[0].subscription, 0), s);
    WorkApplies(w, REVOKE_SUCCESS, 0, s);
    hide ControlPlane.Apply;
    SiteSnoc(s2, Travels(Control(store)), lease, s);
    steps := s2 + [Travels(Control(store))];
  }

  /** Then it takes effect: the configuration is REVOKED, every task is closed, and the client exists. */
  lemma ClientLeftBehind(lease: int, s: Settings) returns (steps: seq<SiteStep>)
    ensures var site := SiteRun(steps, lease, s);
      && |site.net.world.configs| == 1 && FinishedRevoked(site.net.world.configs[0]) && site.net.handlers == map[]
      && 0 in site.clients
  {
    var s0 := RevokedMeanwhile(lease, s);
    hide SiteRun, RevokedFirst, FinishedRevoked, Perform, SubFunded;
    var w := SiteRun(s0, lease, s).net.world;
    SiteSnoc(s0, Acts(1), lease, s);
    var s1 := s0 + [Acts(1)];
    var end := Travels(OperationEnds(1, None, Some(PROVISIONED)));
    SiteSnoc(s1, end, lease, s);
    var s2 := s1 + [end];
    var store := WorkerCommits(0, FirstSuccess(true), 0);
    FinishesLate(w.configs[0], SubFunded(w, w.configs[0].subscription, 0), s);
    WorkApplies(w, FirstSuccess(true), 0, s);
    hide ControlPlane.Apply;
    SiteSnoc(s2, Travels(Control(store)), lease, s);
    steps := s2 + [Travels(Control(store))];
  }
}
