/**
 Exactly when a step of a run creates, leases, completes, retries, fails, cancels or flags a panel
 task. The conditions are written out on the rows before the step.
 */
module PanelTaskSteps {
  import opened Common
  import opened VpnEntity
  import opened NodeTaskEntity
  import opened PanelTaskEntity
  import opened NodeSelection
  import opened Transactions
  import opened Lifecycle
  import opened ControlPlane
  import opened ControlPlaneSafety
  import opened ConfigSteps
  import opened NodeTaskSteps
  import opened PanelProgress

  predicate PanelDue(t: PanelRow, now: int) {
    t.status == Pending && (t.nextRetryAt.Some? ==> t.nextRetryAt.value <= now)
  }

  predicate PanelRanOut(t: PanelRow, now: int) {
    t.status == InProgress && t.leaseExpiresAt.Some? && t.leaseExpiresAt.value <= now
  }

  // ---------------------------------------------------------------- provision tasks

  /** What can happen to a provision task. */
  datatype ProvisionEvent =
    | Leased            // a due task is prepared
    | Stands            // a success that may stand: live lease, still wanted, paid
    | MustUndo          // a success that may not
    | CallFailed        // the call failed
    | Undone            // the client was removed again
    | OwesUndo          // removing it failed, or the lease ran out
    | NoEvent

  function ProvisionEventOf(c: Config, work: Work, now: int, paid: bool): ProvisionEvent
    requires c.panelTask.Some?
  {
    var t := c.panelTask.value;
    match work
    case PanelPrepares(_) => if PanelDue(t, now) then Leased else NoEvent
    case PanelSucceeds(token, n) =>
      if !PanelHolds(t, token, n) then NoEvent
      else if PanelHoldsLive(t, token, n, now) && c.vpn.status == Provisioning && paid then Stands
      else MustUndo
    case PanelFails(token, n) => if PanelHolds(t, token, n) then CallFailed else NoEvent
    case PanelCompensates(token, n) => if PanelHolds(t, token, n) then Undone else NoEvent
    case PanelCompensationFails(token, n) => if PanelHolds(t, token, n) then OwesUndo else NoEvent
    case PanelRecovers => if PanelRanOut(t, now) then OwesUndo else NoEvent
    case _ => NoEvent
  }

  /** The row is pending with its lease gone. */
  predicate Requeued(t: PanelRow, t': PanelRow, due: int) {
    t'.status == Pending && t'.attempts == t.attempts && t'.nextRetryAt == Some(due) && t'.leaseToken.None? && t'.leaseExpiresAt.None?
  }

  /** What becomes of the provision task, event by event. */
  ghost predicate ProvisionOutcome(c: Config, c': Config, work: Work, now: int, paid: bool, s: Settings)
    requires c.panelTask.Some? && c'.panelTask.Some?
  {
    var t, t' := c.panelTask.value, c'.panelTask.value;
    match ProvisionEventOf(c, work, now, paid)
    case NoEvent => t' == t
    case Leased =>
      && t'.status == InProgress && t'.attempts == t.attempts + 1 && t'.leaseToken == Some(work.token)
      && t'.leaseExpiresAt == Some(now + s.panelLease) && t'.compensation == t.compensation && c'.vpn == c.vpn
    case Stands => t'.status == Succeeded && !t'.compensation && t'.completedAt == Some(now) && c'.vpn.status == Active
    case MustUndo => t' == t.(compensation := true)
    case CallFailed =>
      if t.attempts < t.maxAttempts then
        Requeued(t, t', now + Backoff(s.panelRetryBase, t.attempts)) && t'.compensation == t.compensation && c'.vpn == c.vpn
      else t'.status == TaskFailed && t'.completedAt == Some(now) && t'.compensation == t.compensation
    case Undone =>
      && !t'.compensation
      && (if c.vpn.desired == WantRevoked then t'.status == Cancelled && t'.completedAt == Some(now)
          else if t.attempts < t.maxAttempts then Requeued(t, t', now) && c'.vpn == c.vpn
          else t'.status == TaskFailed && t'.completedAt == Some(now))
    case OwesUndo => Requeued(t, t', now) && t'.compensation && c'.vpn == c.vpn
  }

  /** What the invariant says about a provision task in progress. */
  ghost predicate TaskSpeaks(c: Config) {
    && c.panelTask.Some? && Shape(c.vpn) && c.panelTask.value.generation == 1
    && (c.vpn.generation == 1 && c.panelTask.value.status == InProgress ==> c.vpn.status == Provisioning)
  }

  lemma UndoneOutcome(c: Config, token: int, n: int, now: int, paid: bool, s: Settings)
    requires TaskSpeaks(c)
    ensures var c' := PanelCompensated(c, now, token, n);
      c'.panelTask.Some? && ProvisionOutcome(c, c', PanelCompensates(token, n), now, paid, s)
  {
    hide Backoff;
  }

  lemma PanelWorkOutcome(c: Config, work: Work, now: int, paid: bool, s: Settings)
    requires TaskSpeaks(c) && !work.NodePrepares? && !work.NodeFinalizes? && !work.NodeRecovers? && !work.PanelCompensates?
    ensures var c' := Perform(c, work, now, paid, s); c'.panelTask.Some? && ProvisionOutcome(c, c', work, now, paid, s)
  {
    hide Backoff;
  }

  lemma ProvisionWorkOutcome(c: Config, work: Work, now: int, paid: bool, s: Settings)
    requires ConfigInv(c) && c.panelTask.Some?
    ensures var c' := Perform(c, work, now, paid, s); c'.panelTask.Some? && ProvisionOutcome(c, c', work, now, paid, s)
  {
    assert TaskSpeaks(c);
    hide ConfigInv, Backoff, PanelCompensated, TaskSpeaks;
    if work.NodePrepares? || work.NodeFinalizes? || work.NodeRecovers? {
      hide Perform;
      NodeWorkKeepsPanelTasks(c, work, now, paid, s);
    } else {
      hide ProvisionOutcome;
      if work.PanelCompensates? { UndoneOutcome(c, work.token, work.attemptNo, now, paid, s); }
      else { PanelWorkOutcome(c, work, now, paid, s); }
    }
  }

  // ---------------------------------------------------------------- revoke tasks

  /** What becomes of the revoke task of generation `g`. */
  ghost predicate RevokeOutcome(c: Config, c': Config, work: Work, now: int, g: int, s: Settings)
    requires g in c.panelRevokes && g in c'.panelRevokes
  {
    var t, t' := c.panelRevokes[g], c'.panelRevokes[g];
    if work.PanelRevokePrepares? && work.generation == g && PanelDue(t, now) then
      && t'.status == InProgress && t'.attempts == t.attempts + 1 && t'.leaseToken == Some(work.token)
      && t'.leaseExpiresAt == Some(now + s.panelLease) && c'.vpn == c.vpn
    else if work.PanelRevokeSucceeds? && work.generation == g && PanelHoldsLive(t, work.token, work.attemptNo, now) then
      t'.status == Succeeded && t'.completedAt == Some(now)
    else if work.PanelRevokeFails? && work.generation == g && PanelHolds(t, work.token, work.attemptNo) then
      if t.attempts < t.maxAttempts then Requeued(t, t', now + Backoff(s.panelRetryBase, t.attempts)) && c'.vpn == c.vpn
      else t'.status == TaskFailed && t'.completedAt == Some(now)
    else if work == PanelRevokeRecovers(g) && PanelRanOut(t, now) then Requeued(t, t', now) && c'.vpn == c.vpn
    else t' == t
  }

  lemma RevokeWorkOutcome(c: Config, work: Work, now: int, paid: bool, s: Settings, g: int)
    requires g in c.panelRevokes
    ensures var c' := Perform(c, work, now, paid, s); g in c'.panelRevokes && RevokeOutcome(c, c', work, now, g, s)
  {
    hide Backoff;
    if work.NodePrepares? || work.NodeFinalizes? || work.NodeRecovers? {
      NodeWorkKeepsPanelTasks(c, work, now, paid, s);
      hide Perform;
    }
  }

  // ---------------------------------------------------------------- every step of every run

  ghost predicate OnPanel(w: World, i: int) {
    0 <= i < |w.configs| && w.configs[i].panelTask.Some?
  }

  /** What a step means for the provision task of configuration `i`. */
  function StepEvent(w: World, step: Step, i: int): ProvisionEvent
    requires 0 <= i < |w.configs| && w.configs[i].panelTask.Some?
  {
    if OnConfig(step, i) then ProvisionEventOf(w.configs[i], step.work, step.now, PaidAt(w, w.configs[i].subscription, step.now))
    else NoEvent
  }

  lemma StepProvisionOutcome(w: World, step: Step, s: Settings, i: int)
    requires Inv(w) && OnPanel(w, i)
    ensures var w', c := Apply(w, step, s), w.configs[i];
      && OnPanel(w', i)
      && (if OnConfig(step, i) then
            ProvisionOutcome(c, w'.configs[i], step.work, step.now, PaidAt(w, c.subscription, step.now), s)
          else w'.configs[i].panelTask == c.panelTask)
  {
    hide ConfigInv, ControlPlane.Apply, Perform, RevokePlan, ProvisionOutcome, PaidAt, HasAccess;
    var c := w.configs[i];
    assert ConfigInv(c);
    StepOnConfig(w, step, s, i);
    hide Inv;
    if OnConfig(step, i) { ProvisionWorkOutcome(c, step.work, step.now, PaidAt(w, c.subscription, step.now), s); }
    else if step.RequestRevoke? { RevokePlanKeepsPanelTask(c, step.now, s); }
  }

  /** The attempt of the event is the task's last allowed one, and the task is still wanted or its call failed. */
  predicate GivesUp(w: World, step: Step, i: int)
    requires 0 <= i < |w.configs| && w.configs[i].panelTask.Some?
  {
    var t, e := w.configs[i].panelTask.value, StepEvent(w, step, i);
    t.maxAttempts <= t.attempts && (e == CallFailed || (e == Undone && w.configs[i].vpn.desired == WantActive))
  }

  /** With an attempt left the same ends make it pending again; so does whatever leaves a client to be removed. */
  predicate GoesOn(w: World, step: Step, i: int)
    requires 0 <= i < |w.configs| && w.configs[i].panelTask.Some?
  {
    var t, e := w.configs[i].panelTask.value, StepEvent(w, step, i);
    || (t.attempts < t.maxAttempts && (e == CallFailed || (e == Undone && w.configs[i].vpn.desired == WantActive)))
    || e == OwesUndo
  }

  /** In every run, the status and the flag of a provision task change exactly by its events. */
  lemma ProvisionTaskExactlyWhen(steps: seq<Step>, step: Step, s: Settings, i: int)
    requires OnPanel(Run(steps, s), i)
    ensures OnPanel(Run(steps + [step], s), i)
    ensures var w := Run(steps, s);
      var t, t' := w.configs[i].panelTask.value, Run(steps + [step], s).configs[i].panelTask.value;
      && (t'.status == InProgress && t.status != InProgress <==> StepEvent(w, step, i) == Leased)
      && (t'.status == Succeeded && t.status != Succeeded <==> StepEvent(w, step, i) == Stands)
      && (t'.status == Cancelled && t.status != Cancelled <==>
            StepEvent(w, step, i) == Undone && w.configs[i].vpn.desired == WantRevoked)
      && (t'.status == TaskFailed && t.status != TaskFailed <==> GivesUp(w, step, i))
      && (t'.status == Pending && t.status != Pending <==> GoesOn(w, step, i))
      && (t'.compensation && !t.compensation <==>
            !t.compensation && (StepEvent(w, step, i) == MustUndo || StepEvent(w, step, i) == OwesUndo))
      && (!t'.compensation && t.compensation <==>
            t.compensation && (StepEvent(w, step, i) == Undone || StepEvent(w, step, i) == Stands))
      && (StepEvent(w, step, i) == NoEvent ==> t' == t)
  {
    hide Inv, ControlPlane.Apply, Backoff, PaidAt;
    RunInv(steps, s);
    assert (steps + [step])[..|steps|] == steps;
    StepProvisionOutcome(Run(steps, s), step, s, i);
    hide Run;
  }

  /** A lease runs for the lease time; a retry after a failed call is due after the backoff, any other at once. */
  lemma ProvisionTaskTimes(steps: seq<Step>, step: Step, s: Settings, i: int)
    requires OnPanel(Run(steps, s), i)
    ensures OnPanel(Run(steps + [step], s), i)
    ensures var w := Run(steps, s);
      var t, t' := w.configs[i].panelTask.value, Run(steps + [step], s).configs[i].panelTask.value;
      && (StepEvent(w, step, i) == Leased ==>
            && t'.attempts == t.attempts + 1 && t'.leaseToken == Some(step.work.token)
            && t'.leaseExpiresAt == Some(step.now + s.panelLease))
      && (GoesOn(w, step, i) ==>
            && t'.attempts == t.attempts && Run(steps + [step], s).configs[i].vpn == w.configs[i].vpn
            && t'.nextRetryAt == Some(step.now + if StepEvent(w, step, i) == CallFailed then Backoff(s.panelRetryBase, t.attempts) else 0))
  {
    hide Inv, ControlPlane.Apply, Backoff, PaidAt;
    RunInv(steps, s);
    assert (steps + [step])[..|steps|] == steps;
    StepProvisionOutcome(Run(steps, s), step, s, i);
    hide Run;
  }

  // ---------------------------------------------------------------- revoke tasks, in every run

  ghost predicate HasRevoke(w: World, i: int, g: int) {
    0 <= i < |w.configs| && g in w.configs[i].panelRevokes
  }

  lemma StepRevokeOutcome(w: World, step: Step, s: Settings, i: int, g: int)
    requires Inv(w) && HasRevoke(w, i, g)
    ensures var w', c := Apply(w, step, s), w.configs[i];
      && HasRevoke(w', i, g)
      && (if OnConfig(step, i) then RevokeOutcome(c, w'.configs[i], step.work, step.now, g, s)
          else w'.configs[i].panelRevokes[g] == c.panelRevokes[g])
  {
    hide Inv, ControlPlane.Apply, Perform, RevokePlan, RevokeOutcome, PaidAt, HasAccess;
    var c := w.configs[i];
    StepOnConfig(w, step, s, i);
    if OnConfig(step, i) { RevokeWorkOutcome(c, step.work, step.now, PaidAt(w, c.subscription, step.now), s, g); }
    else if step.RequestRevoke? { RevokePlanKeepsRevokes(c, step.now, s, g); }
  }

  /** The holder of the task reports that its call failed. */
  predicate RevokeCallFails(step: Step, i: int, g: int, t: PanelRow) {
    && OnConfig(step, i) && step.work.PanelRevokeFails? && step.work.generation == g
    && PanelHolds(t, step.work.token, step.work.attemptNo)
  }

  predicate RevokeLeaseEnds(step: Step, i: int, g: int, t: PanelRow) {
    OnConfig(step, i) && step.work == PanelRevokeRecovers(g) && PanelRanOut(t, step.now)
  }

  predicate RevokeLeaseStarts(step: Step, i: int, g: int, t: PanelRow) {
    OnConfig(step, i) && step.work.PanelRevokePrepares? && step.work.generation == g && PanelDue(t, step.now)
  }

  predicate RevokeReported(step: Step, i: int, g: int, t: PanelRow) {
    && OnConfig(step, i) && step.work.PanelRevokeSucceeds? && step.work.generation == g
    && PanelHoldsLive(t, step.work.token, step.work.attemptNo, step.now)
  }

  /** In every run, a revoke task changes exactly so: leased when due, done by its live holder, retried or failed, requeued. */
  lemma RevokeTaskExactlyWhen(steps: seq<Step>, step: Step, s: Settings, i: int, g: int)
    requires HasRevoke(Run(steps, s), i, g)
    ensures HasRevoke(Run(steps + [step], s), i, g)
    ensures var t, t' := Run(steps, s).configs[i].panelRevokes[g], Run(steps + [step], s).configs[i].panelRevokes[g];
      && (t'.status == InProgress && t.status != InProgress <==> RevokeLeaseStarts(step, i, g, t))
      && (t'.status == Succeeded && t.status != Succeeded <==> RevokeReported(step, i, g, t))
      && (t'.status == TaskFailed && t.status != TaskFailed <==> RevokeCallFails(step, i, g, t) && t.maxAttempts <= t.attempts)
      && (t'.status == Pending && t.status != Pending <==>
            (RevokeCallFails(step, i, g, t) && t.attempts < t.maxAttempts) || RevokeLeaseEnds(step, i, g, t))
      && (t'.status == Pending && t.status != Pending ==>
            t'.nextRetryAt == Some(step.now + if RevokeCallFails(step, i, g, t) then Backoff(s.panelRetryBase, t.attempts) else 0))
      && (RevokeLeaseStarts(step, i, g, t) ==>
            t'.attempts == t.attempts + 1 && t'.leaseToken == Some(step.work.token)
            && t'.leaseExpiresAt == Some(step.now + s.panelLease))
      && (t'.status == t.status ==> t' == t)
  {
    hide Inv, ControlPlane.Apply, Backoff;
    RunInv(steps, s);
    assert (steps + [step])[..|steps|] == steps;
    StepRevokeOutcome(Run(steps, s), step, s, i, g);
    hide Run;
  }

  /** A panel revoke task appears exactly when a revoke request is granted that opens its generation, or finds none in it. */
  predicate AsksPanelRevoke(w: World, step: Step, i: int, g: int)
    requires 0 <= i < |w.configs|
  {
    var c := w.configs[i];
    && c.node.None? && RevokeAsked(w, step, i) && g !in c.panelRevokes
    && (if c.vpn.status == Revoking then g == c.vpn.generation
        else g == c.vpn.generation + 1 && !IsTerminal(c.vpn.status))
  }

  lemma PlanAddsRevoke(c: Config, now: int, s: Settings, g: int)
    requires ConfigInv(c) && g !in c.panelRevokes
    ensures var c' := RevokePlan(c, now, s);
      g in c'.panelRevokes <==>
        c.node.None? && (if c.vpn.status == Revoking then g == c.vpn.generation
                         else g == c.vpn.generation + 1 && !IsTerminal(c.vpn.status))
  {
    if c.node.None? && c.vpn.generation in c.panelRevokes {
      assert PanelRevokeOk(c, c.vpn.generation, c.panelRevokes[c.vpn.generation]);
    }
  }

  lemma WorkAddsNoRevoke(c: Config, work: Work, now: int, paid: bool, s: Settings, g: int)
    requires g !in c.panelRevokes
    ensures g !in Perform(c, work, now, paid, s).panelRevokes
  {
    if work.NodePrepares? || work.NodeFinalizes? || work.NodeRecovers? {
      hide Perform;
      NodeWorkKeepsPanelTasks(c, work, now, paid, s);
    }
  }

  lemma PanelRevokeCreatedExactlyWhen(steps: seq<Step>, step: Step, s: Settings, i: int, g: int)
    requires 0 <= i < |Run(steps, s).configs| && g !in Run(steps, s).configs[i].panelRevokes
    ensures i < |Run(steps + [step], s).configs|
    ensures g in Run(steps + [step], s).configs[i].panelRevokes <==> AsksPanelRevoke(Run(steps, s), step, i, g)
  {
    hide ConfigInv, ControlPlane.Apply, Perform, RevokePlan, PaidAt, HasAccess;
    RunInv(steps, s);
    assert (steps + [step])[..|steps|] == steps;
    var w := Run(steps, s);
    var c := w.configs[i];
    assert ConfigInv(c);
    StepOnConfig(w, step, s, i);
    hide Inv, Run;
    if OnConfig(step, i) { WorkAddsNoRevoke(c, step.work, step.now, PaidAt(w, c.subscription, step.now), s, g); }
    else if step.RequestRevoke? { PlanAddsRevoke(c, step.now, s, g); }
  }
}
