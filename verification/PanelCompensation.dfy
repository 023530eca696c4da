/**
 One panel-backed configuration together with the remote panel and its workers. A worker
 commits a transaction, makes a remote call, and commits again; between any two of its
 steps it may stop for good, lose its lease, or be overtaken by anyone else.

 Two facts about the remote panel are assumed: the effect of a provision call lands before
 the lease of its attempt expires, and a provision call that raises had no effect. Revoke
 calls may land at any time, and may have removed the client even when they raise.
 */
module PanelCompensation {
  import opened Common
  import opened VpnEntity
  import opened NodeTaskEntity
  import opened PanelTaskEntity
  import opened Transactions
  import opened Lifecycle

  /** Where a provision worker is between its two transactions. */
  datatype Phase =
    | Calling          // the provision call is out and has had no effect yet
    | Landed           // its effect is on the panel
    | Raised           // it raised
    | Compensating     // the compensating revoke call is out
    | RevokeRaised     // that call raised
    | Cleaned          // that call returned

  datatype Worker = Worker(attemptNo: int, expiresAt: int, phase: Phase)

  datatype RevokerPhase = RevokeCalling | RevokeReturned | RevokeFailedRemotely

  datatype Revoker = Revoker(generation: int, attemptNo: int, phase: RevokerPhase)

  datatype PanelWorld = PanelWorld(
    config: Config,
    present: bool,                  // the client exists on the remote panel
    workers: map<int, Worker>,      // by lease token
    revokers: map<int, Revoker>,
    clock: int)

  datatype PanelStep =
    | Prepare(token: int, now: int)
    | ProvisionLands(token: int, now: int)
    | ProvisionRaises(token: int)
    | FinalizeSuccess(token: int, now: int, funded: bool, committed: bool, raised: bool)
    | FinalizeFailure(token: int, now: int)
    | CompensationReturns(token: int)
    | CompensationRaises(token: int, removed: bool)
    | RecordCleaned(token: int, now: int)
    | RecordNotCleaned(token: int, now: int)
    | RecoverProvision(now: int)
    | RequestRevoke(now: int)
    | RevokerPrepares(generation: int, token: int, now: int)
    | RevokerReturns(token: int)
    | RevokerRaises(token: int, removed: bool)
    | RevokerSucceeds(token: int, now: int)
    | RevokerFails(token: int, now: int)
    | RecoverRevoke(generation: int, now: int)

  function StepTime(step: PanelStep): Option<int> {
    match step
    case Prepare(_, now) => Some(now)
    case ProvisionLands(_, now) => Some(now)
    case FinalizeSuccess(_, now, _, _, _) => Some(now)
    case FinalizeFailure(_, now) => Some(now)
    case RecordCleaned(_, now) => Some(now)
    case RecordNotCleaned(_, now) => Some(now)
    case RecoverProvision(now) => Some(now)
    case RequestRevoke(now) => Some(now)
    case RevokerPrepares(_, _, now) => Some(now)
    case RevokerSucceeds(_, now) => Some(now)
    case RevokerFails(_, now) => Some(now)
    case RecoverRevoke(_, now) => Some(now)
    case _ => None
  }

  predicate InPhase(p: PanelWorld, token: int, phase: Phase) {
    token in p.workers && p.workers[token].phase == phase
  }

  predicate RevokerInPhase(p: PanelWorld, token: int, phase: RevokerPhase) {
    token in p.revokers && p.revokers[token].phase == phase
  }

  /** The step can happen here; the clock never runs backwards and tokens are fresh. */
  predicate Enabled(p: PanelWorld, step: PanelStep) {
    && (StepTime(step).Some? ==> p.clock <= StepTime(step).value)
    && match step
       case Prepare(token, now) =>
         token !in p.workers && p.config.panelTask.Some? && PanelCanDispatch(p.config.panelTask.value, now)
       case ProvisionLands(token, now) => InPhase(p, token, Calling) && now < p.workers[token].expiresAt
       case ProvisionRaises(token) => InPhase(p, token, Calling)
       case FinalizeSuccess(token, _, _, committed, raised) => InPhase(p, token, Landed) && (committed || raised)
       case FinalizeFailure(token, _) => InPhase(p, token, Raised)
       case CompensationReturns(token) => InPhase(p, token, Compensating)
       case CompensationRaises(token, _) => InPhase(p, token, Compensating)
       case RecordCleaned(token, _) => InPhase(p, token, Cleaned)
       case RecordNotCleaned(token, _) => InPhase(p, token, RevokeRaised)
       case RecoverProvision(_) => true
       case RequestRevoke(_) => true
       case RevokerPrepares(g, token, now) =>
         token !in p.revokers && g in p.config.panelRevokes && PanelCanDispatch(p.config.panelRevokes[g], now)
       case RevokerReturns(token) => RevokerInPhase(p, token, RevokeCalling)
       case RevokerRaises(token, _) => RevokerInPhase(p, token, RevokeCalling)
       case RevokerSucceeds(token, _) => RevokerInPhase(p, token, RevokeReturned)
       case RevokerFails(token, _) => RevokerInPhase(p, token, RevokeFailedRemotely)
       case RecoverRevoke(_, _) => true
  }

  function Enter(p: PanelWorld, token: int, phase: Phase): PanelWorld
    requires token in p.workers
  {
    p.(workers := p.workers[token := p.workers[token].(phase := phase)])
  }

  function Leave(p: PanelWorld, token: int): PanelWorld {
    p.(workers := p.workers - {token})
  }

  function RevokerEnter(p: PanelWorld, token: int, phase: RevokerPhase): PanelWorld
    requires token in p.revokers
  {
    p.(revokers := p.revokers[token := p.revokers[token].(phase := phase)])
  }

  /** The configuration rows after the transaction of an enabled step, if it has one. */
  function Committed(p: PanelWorld, step: PanelStep, s: Settings): Config
    requires Enabled(p, step)
  {
    var c := p.config;
    match step
    case Prepare(token, now) => PanelPrepare(c, now, token, s)
    case FinalizeSuccess(token, now, funded, committed, _) =>
      if committed then PanelFinalizeSuccess(c, now, token, p.workers[token].attemptNo, funded) else c
    case FinalizeFailure(token, now) => PanelFinalizeFailure(c, now, token, p.workers[token].attemptNo, s)
    case RecordCleaned(token, now) => PanelCompensated(c, now, token, p.workers[token].attemptNo)
    case RecordNotCleaned(token, now) => PanelCompensationFailed(c, now, token, p.workers[token].attemptNo)
    case RecoverProvision(now) => PanelRecover(c, now)
    case RequestRevoke(now) => RevokePlan(c, now, s)
    case RevokerPrepares(g, token, now) => PanelRevokePrepare(c, g, now, token, s)
    case RevokerSucceeds(token, now) =>
      PanelRevokeSuccess(c, p.revokers[token].generation, now, token, p.revokers[token].attemptNo)
    case RevokerFails(token, now) =>
      PanelRevokeFailure(c, p.revokers[token].generation, now, token, p.revokers[token].attemptNo, s)
    case RecoverRevoke(g, now) => PanelRevokeRecover(c, g, now)
    case _ => c
  }

  function Next(p: PanelWorld, step: PanelStep, s: Settings): PanelWorld {
    if !Enabled(p, step) then p
    else
      var q := p.(config := Committed(p, step, s), clock := if StepTime(step).Some? then StepTime(step).value else p.clock);
      match step
      case Prepare(token, now) =>
        var t := q.config.panelTask.value;
        q.(workers := q.workers[token :=
             Worker(t.attempts, now + s.panelLease, if t.compensation then Compensating else Calling)])
      case ProvisionLands(token, _) => Enter(q, token, Landed).(present := true)
      case ProvisionRaises(token) => Enter(q, token, Raised)
      case FinalizeSuccess(token, now, funded, committed, raised) =>
        // an exception in or after the transaction, or a success that may not stand, compensates
        if raised || PanelSuccessOutcome(p.config, now, token, p.workers[token].attemptNo, funded) == CompensateOutcome
        then Enter(q, token, Compensating) else Leave(q, token)
      case FinalizeFailure(token, _) => Leave(q, token)
      case CompensationReturns(token) => Enter(q, token, Cleaned).(present := false)
      case CompensationRaises(token, removed) => Enter(q, token, RevokeRaised).(present := p.present && !removed)
      case RecordCleaned(token, _) => Leave(q, token)
      case RecordNotCleaned(token, _) => Leave(q, token)
      case RevokerPrepares(g, token, _) =>
        q.(revokers := q.revokers[token := Revoker(g, q.config.panelRevokes[g].attempts, RevokeCalling)])
      case RevokerReturns(token) => RevokerEnter(q, token, RevokeReturned).(present := false)
      case RevokerRaises(token, removed) => RevokerEnter(q, token, RevokeFailedRemotely).(present := p.present && !removed)
      case _ => q
  }

  function Start(sub: int, endpoint: int, now: int, s: Settings): PanelWorld {
    PanelWorld(FreshConfig(sub, endpoint, None, now, s), false, map[], map[], now)
  }

  function PanelRun(start: PanelWorld, steps: seq<PanelStep>, s: Settings): PanelWorld {
    if steps == [] then start else Next(PanelRun(start, steps[..|steps| - 1], s), steps[|steps| - 1], s)
  }

  // ---------------------------------------------------------------- invariant

  /** The token whose attempt holds the provision task. */
  predicate Owner(t: PanelRow, token: int) {
    t.status == InProgress && t.leaseToken == Some(token)
  }

  /** What the task and its holder know about the remote panel. */
  ghost predicate HolderOk(p: PanelWorld)
    requires p.config.panelTask.Some?
  {
    var t := p.config.panelTask.value;
    t.status == InProgress && t.leaseToken.Some? && t.leaseExpiresAt.Some? ==>
      && t.leaseToken.value in p.workers
      && (var w := p.workers[t.leaseToken.value];
          && w.attemptNo == t.attempts && w.expiresAt == t.leaseExpiresAt.value
          && (w.phase == Calling || w.phase == Raised ==> !t.compensation && !p.present)
          && (w.phase == Cleaned ==> !p.present))
  }

  /** A call that is still out either belongs to the holder or can no longer land. */
  ghost predicate CallsFenced(p: PanelWorld)
    requires p.config.panelTask.Some?
  {
    forall token :: token in p.workers && p.workers[token].phase == Calling ==>
      Owner(p.config.panelTask.value, token) || p.workers[token].expiresAt <= p.clock
  }

  ghost predicate ClientAccounted(p: PanelWorld)
    requires p.config.panelTask.Some?
  {
    var t := p.config.panelTask.value;
    && (t.status == Pending && !t.compensation ==> !p.present)
    && (t.status == TaskFailed || t.status == Cancelled ==> !p.present)
    && (t.status == Succeeded && p.config.vpn.status == Revoked ==> !p.present)
  }

  /** A revoke call is only made after generation 1, and once it returned a settled task has no client. */
  ghost predicate RevokersOk(p: PanelWorld)
    requires p.config.panelTask.Some?
  {
    forall token :: token in p.revokers ==>
      && p.config.vpn.generation >= 2
      && (p.revokers[token].phase == RevokeReturned && !IsOpen(p.config.panelTask.value.status) ==> !p.present)
  }

  ghost predicate CompensationInv(p: PanelWorld) {
    PanelInv(p.config) && HolderOk(p) && CallsFenced(p) && ClientAccounted(p) && RevokersOk(p)
  }

  lemma StartInv(sub: int, endpoint: int, now: int, s: Settings)
    ensures CompensationInv(Start(sub, endpoint, now, s))
  {
  }

  lemma CommittedKeepsPanelInv(p: PanelWorld, step: PanelStep, s: Settings)
    requires PanelInv(p.config) && Enabled(p, step)
    ensures PanelInv(Committed(p, step, s))
  {
    hide PanelInv;
    var c := p.config;
    match step
    case Prepare(token, now) => PanelProvisionKeepsInv(c, PanelPrepares(token), now, true, s);
    case FinalizeSuccess(token, now, funded, committed, _) =>
      PanelProvisionKeepsInv(c, PanelSucceeds(token, p.workers[token].attemptNo), now, funded, s);
    case FinalizeFailure(token, now) =>
      PanelProvisionKeepsInv(c, PanelFails(token, p.workers[token].attemptNo), now, true, s);
    case RecordCleaned(token, now) => PanelCompensatedKeepsInv(c, now, token, p.workers[token].attemptNo);
    case RecordNotCleaned(token, now) =>
      PanelProvisionKeepsInv(c, PanelCompensationFails(token, p.workers[token].attemptNo), now, true, s);
    case RecoverProvision(now) => PanelProvisionKeepsInv(c, PanelRecovers, now, true, s);
    case RequestRevoke(now) => PanelRevokePlanKeepsInv(c, now, s);
    case RevokerPrepares(g, token, now) =>
      PanelRevocationKeepsInv(c, PanelRevokePrepares(g, token), now, true, s);
    case RevokerSucceeds(token, now) =>
      var r := p.revokers[token];
      PanelRevocationKeepsInv(c, PanelRevokeSucceeds(r.generation, token, r.attemptNo), now, true, s);
    case RevokerFails(token, now) =>
      var r := p.revokers[token];
      PanelRevocationKeepsInv(c, PanelRevokeFails(r.generation, token, r.attemptNo), now, true, s);
    case RecoverRevoke(g, now) => PanelRevocationKeepsInv(c, PanelRevokeRecovers(g), now, true, s);
    case _ =>
  }

  /** Steps of provision workers. */
  lemma ProvisionStepKeepsInv(p: PanelWorld, step: PanelStep, s: Settings)
    requires CompensationInv(p) && Enabled(p, step)
    requires step.Prepare? || step.ProvisionLands? || step.ProvisionRaises? || step.FinalizeFailure?
          || step.CompensationReturns? || step.CompensationRaises? || step.RecordNotCleaned? || step.RecoverProvision?
    ensures CompensationInv(Next(p, step, s))
  {
    CommittedKeepsPanelInv(p, step, s);
    assert Next(p, step, s).config == Committed(p, step, s);
  }

  lemma FinalizeSuccessKeepsInv(p: PanelWorld, step: PanelStep, s: Settings)
    requires CompensationInv(p) && Enabled(p, step) && step.FinalizeSuccess?
    ensures CompensationInv(Next(p, step, s))
  {
    CommittedKeepsPanelInv(p, step, s);
    assert Next(p, step, s).config == Committed(p, step, s);
  }

  lemma RecordCleanedKeepsInv(p: PanelWorld, step: PanelStep, s: Settings)
    requires CompensationInv(p) && Enabled(p, step) && step.RecordCleaned?
    ensures CompensationInv(Next(p, step, s))
  {
    CommittedKeepsPanelInv(p, step, s);
    assert Next(p, step, s).config == Committed(p, step, s);
  }

  lemma RevokerStepKeepsInv(p: PanelWorld, step: PanelStep, s: Settings)
    requires CompensationInv(p) && Enabled(p, step)
    requires step.RevokerPrepares? || step.RevokerReturns? || step.RevokerRaises? || step.RevokerSucceeds?
          || step.RevokerFails? || step.RecoverRevoke?
    ensures CompensationInv(Next(p, step, s))
  {
    CommittedKeepsPanelInv(p, step, s);
    assert Next(p, step, s).config == Committed(p, step, s);
  }

  lemma RevokeRequestKeepsInv(p: PanelWorld, step: PanelStep, s: Settings)
    requires CompensationInv(p) && Enabled(p, step) && step.RequestRevoke?
    ensures CompensationInv(Next(p, step, s))
  {
    CommittedKeepsPanelInv(p, step, s);
    assert Next(p, step, s).config == Committed(p, step, s);
  }

  lemma {:induction false} CompensationRunInv(sub: int, endpoint: int, now: int, steps: seq<PanelStep>, s: Settings)
    ensures CompensationInv(PanelRun(Start(sub, endpoint, now, s), steps, s))
  {
    StartInv(sub, endpoint, now, s);
    hide CompensationInv, Next, Start;
    if steps != [] {
      CompensationRunInv(sub, endpoint, now, steps[..|steps| - 1], s);
      var p, step := PanelRun(Start(sub, endpoint, now, s), steps[..|steps| - 1], s), steps[|steps| - 1];
      NextKeepsInv(p, step, s);
    }
  }

  lemma NextKeepsInv(p: PanelWorld, step: PanelStep, s: Settings)
    requires CompensationInv(p)
    ensures CompensationInv(Next(p, step, s))
  {
    hide CompensationInv;
    if Enabled(p, step) {
      match step
      case FinalizeSuccess(_, _, _, _, _) => FinalizeSuccessKeepsInv(p, step, s);
      case RecordCleaned(_, _) => RecordCleanedKeepsInv(p, step, s);
      case RequestRevoke(_) => RevokeRequestKeepsInv(p, step, s);
      case RevokerPrepares(_, _, _) => RevokerStepKeepsInv(p, step, s);
      case RevokerReturns(_) => RevokerStepKeepsInv(p, step, s);
      case RevokerRaises(_, _) => RevokerStepKeepsInv(p, step, s);
      case RevokerSucceeds(_, _) => RevokerStepKeepsInv(p, step, s);
      case RevokerFails(_, _) => RevokerStepKeepsInv(p, step, s);
      case RecoverRevoke(_, _) => RevokerStepKeepsInv(p, step, s);
      case _ => ProvisionStepKeepsInv(p, step, s);
    }
  }

  /**
   Compensation leaves no orphan. Through all crashes, lease recoveries, stale answers and forced
   revokes: once the provision task is finished and the configuration is FAILED or REVOKED, the
   client is not on the panel; a task that failed or was cancelled never leaves a client; and a
   pending task that owes no compensation has none either.
   */
  lemma NoOrphanClient(sub: int, endpoint: int, now: int, steps: seq<PanelStep>, s: Settings)
    ensures var p := PanelRun(Start(sub, endpoint, now, s), steps, s);
      && p.config.panelTask.Some?
      && (var t := p.config.panelTask.value;
          && (!IsOpen(t.status) && (p.config.vpn.status == Failed || p.config.vpn.status == Revoked) ==> !p.present)
          && (t.status == TaskFailed || t.status == Cancelled ==> !p.present)
          && (t.status == Pending && !t.compensation ==> !p.present))
  {
    CompensationRunInv(sub, endpoint, now, steps, s);
  }
}
