/**
 Exactly when a step of a run leases, defers, completes, retries or fails a node task. The conditions
 are written out on the row before the step.
 */
module NodeTaskSteps {
  import opened Common
  import opened VpnEntity
  import opened NodeTaskEntity
  import opened NodeSelection
  import opened Transactions
  import opened Lifecycle
  import opened ControlPlane
  import opened ControlPlaneSafety
  import opened ConfigSteps
  import opened TaskProgress

  /** The worker prepares task `k`, which is pending and whose time has come. */
  predicate PreparesDue(c: Config, work: Work, now: int, k: TaskKey) {
    && work.NodePrepares? && work.key == k && k in c.nodeTasks && c.nodeTasks[k].task.status == Pending
    && (c.nodeTasks[k].task.nextRetryAt.Some? ==> c.nodeTasks[k].task.nextRetryAt.value <= now)
  }

  /** The node is up and was checked recently; a provisioning also needs it enabled. */
  predicate NodeFit(op: Operation, node: Option<NodeState>, now: int, s: Settings) {
    && node.Some? && (node.value.health == Online || node.value.health == Degraded)
    && node.value.lastChecked.Some? && now <= node.value.lastChecked.value + s.staleAfter
    && (op == ProvisionClient ==> node.value.enabled)
  }

  /** The worker recovers task `k`, whose lease has run out. */
  predicate RecoversExpired(c: Config, work: Work, now: int, k: TaskKey) {
    && work == NodeRecovers(k) && k in c.nodeTasks && c.nodeTasks[k].task.status == InProgress
    && c.nodeTasks[k].task.leaseExpiresAt.Some? && c.nodeTasks[k].task.leaseExpiresAt.value <= now
  }

  /** An attempt at task `k` starts. */
  predicate Starts(c: Config, work: Work, now: int, k: TaskKey, s: Settings) {
    PreparesDue(c, work, now, k) && NodeFit(k.op, work.node, now, s)
  }

  /** It ends with an accepted answer. */
  predicate EndsWell(c: Config, work: Work, now: int, k: TaskKey) {
    HolderReports(c, work, now, k) && IsSuccess(k.op, work.answer)
  }

  /** It ends without one: no credential to send it with, another answer or none, or a lease that ran out. */
  predicate EndsBadly(c: Config, work: Work, now: int, k: TaskKey, s: Settings) {
    || (Starts(c, work, now, k, s) && !work.credential)
    || (HolderReports(c, work, now, k) && !IsSuccess(k.op, work.answer))
    || RecoversExpired(c, work, now, k)
  }

  /** Its number. */
  function AttemptOf(t: NodeTaskRow, work: Work): int {
    t.attempts + if work.NodePrepares? then 1 else 0
  }

  /** What becomes of the row of task `k`, case by case. */
  ghost predicate TaskOutcome(c: Config, c': Config, work: Work, now: int, k: TaskKey, s: Settings)
    requires k in c.nodeTasks && k in c'.nodeTasks
  {
    var t, t' := c.nodeTasks[k].task, c'.nodeTasks[k].task;
    var n := AttemptOf(t, work);
    var rows' := c'.nodeTasks[k].attempts;
    if EndsWell(c, work, now, k) then
      && t'.status == Succeeded && t'.attempts == n && t'.response == work.answer.response
      && t'.remoteRef == work.answer.response.value.remoteRef && t'.completedAt == Some(now)
      && n in rows' && rows'[n] == Finished(true)
    else if EndsBadly(c, work, now, k, s) then
      && t'.attempts == n && n in rows' && rows'[n] == Finished(false)
      && (if n < t.maxAttempts then
            && t'.status == Pending && c' == c.(nodeTasks := c'.nodeTasks)
            && t'.nextRetryAt == Some(now + Backoff(s.nodeRetryBase, n))
          else t'.status == TaskFailed && t'.completedAt == Some(now))
    else if Starts(c, work, now, k, s) then
      && t'.status == InProgress && t'.attempts == n && t'.leaseToken == Some(work.token)
      && t'.leaseExpiresAt == Some(now + s.nodeLease) && n in rows' && rows'[n] == Started && c' == c.(nodeTasks := c'.nodeTasks)
    else if PreparesDue(c, work, now, k) then
      c' == c.(nodeTasks := c.nodeTasks[k := c.nodeTasks[k].(task := t.(nextRetryAt := Some(now + s.nodeDefer)))])
    else c'.nodeTasks[k] == c.nodeTasks[k]
  }

  lemma FailOrRetryOutcome(c: Config, k: TaskKey, n: int, response: Option<Response>, now: int, s: Settings)
    requires k in c.nodeTasks && c.nodeTasks[k].task.attempts == n && n in c.nodeTasks[k].attempts
    ensures var c', t := FailOrRetry(c, k, n, response, now, s.nodeRetryBase), c.nodeTasks[k].task;
      && k in c'.nodeTasks && c'.nodeTasks == c.nodeTasks[k := c'.nodeTasks[k]]
      && (var t', rows' := c'.nodeTasks[k].task, c'.nodeTasks[k].attempts;
          && t'.attempts == n && n in rows' && rows'[n] == Finished(false)
          && (if n < t.maxAttempts then
                && t'.status == Pending && c' == c.(nodeTasks := c'.nodeTasks)
                && t'.nextRetryAt == Some(now + Backoff(s.nodeRetryBase, n))
              else t'.status == TaskFailed && t'.completedAt == Some(now)))
  {
    hide Backoff;
  }

  /** What the ledger of a task says about its next and its current attempt. */
  ghost predicate Sound(l: Ledger) {
    && (l.task.status == Pending ==>
          && l.task.attempts + 1 !in l.attempts
          && l.task.claimedAt.None? && l.task.leaseExpiresAt.None? && l.task.leaseToken.None?)
    && (l.task.status == InProgress ==> l.task.attempts in l.attempts && l.attempts[l.task.attempts] == Started)
  }

  lemma LedgersAreSound(c: Config)
    requires ConfigInv(c)
    ensures forall k :: k in c.nodeTasks ==> Sound(c.nodeTasks[k])
  {
    forall k | k in c.nodeTasks ensures Sound(c.nodeTasks[k]) { assert LedgerOk(k.op, c.nodeTasks[k]); }
  }

  lemma FitIsAllowed(k: TaskKey, node: Option<NodeState>, now: int, s: Settings)
    ensures NodeFit(k.op, node, now, s) <==> NodeAllows(k, node, now, s)
  {
  }

  lemma PrepareOutcome(
    c: Config, k: TaskKey, now: int, token: int, node: Option<NodeState>, credential: bool, s: Settings)
    requires k in c.nodeTasks && Sound(c.nodeTasks[k])
    ensures var c' := NodePrepare(c, k, now, token, node, credential, s);
      && k in c'.nodeTasks && TaskOutcome(c, c', NodePrepares(k, token, node, credential), now, k, s)
      && c'.nodeTasks == c.nodeTasks[k := c'.nodeTasks[k]]
  {
    hide NodePrepare, FailOrRetry, Backoff, NodeFit, NodeAllows;
    FitIsAllowed(k, node, now, s);
    if CanDispatch(c.nodeTasks[k].task, now) {
      NodePrepareCases(c, k, now, token, node, credential, s);
      var l' := StartLedger(c.nodeTasks[k], now, now + s.nodeLease, token);
      FailOrRetryOutcome(PutLedger(c, k, l'), k, l'.task.attempts, None, now, s);
    } else {
      IdlePrepare(c, k, now, token, node, credential, s);
      assert c.nodeTasks[k := c.nodeTasks[k]] == c.nodeTasks;
    }
  }

  lemma SucceededOutcome(c: Config, k: TaskKey, now: int, n: int, r: Response, paid: bool)
    requires k in c.nodeTasks && n in c.nodeTasks[k].attempts
    ensures var c', t := NodeSucceeded(c, k, now, n, r, paid), c.nodeTasks[k].task;
      && k in c'.nodeTasks && n in c'.nodeTasks[k].attempts && c'.nodeTasks[k].attempts[n] == Finished(true)
      && c'.nodeTasks[k].task.status == Succeeded && c'.nodeTasks[k].task.attempts == t.attempts
      && c'.nodeTasks[k].task.response == Some(r) && c'.nodeTasks[k].task.remoteRef == r.remoteRef
      && c'.nodeTasks[k].task.completedAt == Some(now)
      && (forall j :: j in c.nodeTasks && j != k ==> j in c'.nodeTasks && c'.nodeTasks[j] == c.nodeTasks[j])
  {
  }

  lemma SuccessIsAccepted(op: Operation, answer: NodeAnswer)
    ensures IsSuccess(op, answer) <==> answer.Answered? && answer.response.Some? && Accepts(op, answer.response.value.status)
  {
  }

  lemma FinalizeOutcome(c: Config, k: TaskKey, now: int, token: int, n: int, answer: NodeAnswer, paid: bool, s: Settings)
    requires k in c.nodeTasks && Sound(c.nodeTasks[k])
    ensures var c' := NodeFinalize(c, k, now, token, n, answer, paid, s);
      && k in c'.nodeTasks && TaskOutcome(c, c', NodeFinalizes(k, token, n, answer), now, k, s)
      && (forall j :: j in c.nodeTasks && j != k ==> j in c'.nodeTasks && c'.nodeTasks[j] == c.nodeTasks[j])
  {
    hide FailOrRetry, Backoff, NodeFit, NodeFinalize, NodeSucceeded, IsSuccess, Accepts;
    SuccessIsAccepted(k.op, answer);
    if OwnsActiveLease(c.nodeTasks[k].task, token, now, n) {
      NodeFinalizeCases(c, k, now, token, n, answer, paid, s);
      if IsSuccess(k.op, answer) { SucceededOutcome(c, k, now, n, answer.response.value, paid); }
      else { FailOrRetryOutcome(c, k, n, if answer.TransportError? then None else answer.response, now, s); }
    } else {
      IdleFinalize(c, k, now, token, n, answer, paid, s);
    }
  }

  lemma RecoverOutcome(c: Config, k: TaskKey, now: int, s: Settings)
    requires k in c.nodeTasks && Sound(c.nodeTasks[k])
    ensures var c' := NodeRecover(c, k, now, s);
      && k in c'.nodeTasks && TaskOutcome(c, c', NodeRecovers(k), now, k, s) && c'.nodeTasks == c.nodeTasks[k := c'.nodeTasks[k]]
  {
    hide Backoff, NodeFit;
  }

  /** The task a transaction works on. */
  function TaskTouched(work: Work): Option<TaskKey> {
    match work
    case NodePrepares(k, _, _, _) => Some(k)
    case NodeFinalizes(k, _, _, _) => Some(k)
    case NodeRecovers(k) => Some(k)
    case _ => None
  }

  lemma OtherTasksStay(c: Config, work: Work, now: int, paid: bool, s: Settings, k: TaskKey)
    requires k in c.nodeTasks && TaskTouched(work) != Some(k)
    requires TaskTouched(work).Some? && TaskTouched(work).value in c.nodeTasks ==> Sound(c.nodeTasks[TaskTouched(work).value])
    ensures var c' := Perform(c, work, now, paid, s); k in c'.nodeTasks && c'.nodeTasks[k] == c.nodeTasks[k]
  {
    hide NodePrepare, NodeFinalize, NodeRecover, Sound, TaskOutcome;
    match work
    case NodePrepares(j, token, node, credential) =>
      if j in c.nodeTasks { PrepareOutcome(c, j, now, token, node, credential, s); }
      else { UnknownIsNoOp(c, work, now, paid, s); }
    case NodeFinalizes(j, token, n, answer) =>
      if j in c.nodeTasks { FinalizeOutcome(c, j, now, token, n, answer, paid, s); }
      else { UnknownIsNoOp(c, work, now, paid, s); }
    case NodeRecovers(j) =>
      if j in c.nodeTasks { RecoverOutcome(c, j, now, s); } else { UnknownIsNoOp(c, work, now, paid, s); }
    case _ => PanelWorkKeepsNodeTasks(c, work, now, paid, s);
  }

  lemma UnknownIsNoOp(c: Config, work: Work, now: int, paid: bool, s: Settings)
    requires TaskTouched(work).Some? && TaskTouched(work).value !in c.nodeTasks
    ensures Perform(c, work, now, paid, s) == c
  {
  }

  lemma UntouchedOutcome(c: Config, c': Config, work: Work, now: int, k: TaskKey, s: Settings)
    requires k in c.nodeTasks && k in c'.nodeTasks && c'.nodeTasks[k] == c.nodeTasks[k] && TaskTouched(work) != Some(k)
    ensures TaskOutcome(c, c', work, now, k, s)
  {
    hide Backoff, NodeFit;
  }

  lemma WorkOutcome(c: Config, work: Work, now: int, paid: bool, s: Settings, k: TaskKey)
    requires ConfigInv(c) && k in c.nodeTasks
    ensures var c' := Perform(c, work, now, paid, s); k in c'.nodeTasks && TaskOutcome(c, c', work, now, k, s)
  {
    hide ConfigInv, NodePrepare, NodeFinalize, NodeRecover, Sound, TaskOutcome;
    LedgersAreSound(c);
    if TaskTouched(work) == Some(k) {
      match work
      case NodePrepares(j, token, node, credential) => PrepareOutcome(c, k, now, token, node, credential, s);
      case NodeFinalizes(j, token, n, answer) => FinalizeOutcome(c, k, now, token, n, answer, paid, s);
      case NodeRecovers(j) => RecoverOutcome(c, k, now, s);
    } else {
      OtherTasksStay(c, work, now, paid, s, k);
      UntouchedOutcome(c, Perform(c, work, now, paid, s), work, now, k, s);
    }
  }

  // ---------------------------------------------------------------- every step of every run

  predicate OnConfig(step: Step, i: int) {
    step.WorkerCommits? && step.config == i
  }

  lemma StepOutcome(w: World, step: Step, s: Settings, i: int, k: TaskKey)
    requires Inv(w) && TaskExists(w, i, k)
    ensures var w' := Apply(w, step, s);
      && TaskExists(w', i, k)
      && (if OnConfig(step, i) then TaskOutcome(w.configs[i], w'.configs[i], step.work, step.now, k, s)
          else w'.configs[i].nodeTasks[k] == w.configs[i].nodeTasks[k])
  {
    hide ConfigInv, ControlPlane.Apply, Perform, RevokePlan, TaskOutcome, PaidAt, HasAccess;
    var c := w.configs[i];
    assert ConfigInv(c);
    StepOnConfig(w, step, s, i);
    hide Inv;
    if OnConfig(step, i) { WorkOutcome(c, step.work, step.now, PaidAt(w, c.subscription, step.now), s, k); }
    else if step.RequestRevoke? { RevokePlanKeepsTasks(c, step.now, s, k); }
  }

  lemma RunOutcome(steps: seq<Step>, step: Step, s: Settings, i: int, k: TaskKey)
    requires TaskExists(Run(steps, s), i, k)
    ensures var w, w' := Run(steps, s), Run(steps + [step], s);
      && TaskExists(w', i, k)
      && (if OnConfig(step, i) then TaskOutcome(w.configs[i], w'.configs[i], step.work, step.now, k, s)
          else w'.configs[i].nodeTasks[k] == w.configs[i].nodeTasks[k])
  {
    hide Inv, ControlPlane.Apply, TaskOutcome;
    RunInv(steps, s);
    assert (steps + [step])[..|steps|] == steps;
    StepOutcome(Run(steps, s), step, s, i, k);
  }

  function Task(w: World, i: int, k: TaskKey): NodeTaskRow
    requires TaskExists(w, i, k)
  {
    w.configs[i].nodeTasks[k].task
  }

  /** A task succeeds exactly when the holder of its live lease reports an accepted answer, which it then stores. */
  lemma SucceedsExactlyWhen(steps: seq<Step>, step: Step, s: Settings, i: int, k: TaskKey)
    requires TaskExists(Run(steps, s), i, k) && Task(Run(steps, s), i, k).status != Succeeded
    ensures TaskExists(Run(steps + [step], s), i, k)
    ensures var c, t' := Run(steps, s).configs[i], Task(Run(steps + [step], s), i, k);
      && (t'.status == Succeeded <==> OnConfig(step, i) && EndsWell(c, step.work, step.now, k))
      && (t'.status == Succeeded ==>
            && t'.response == step.work.answer.response && t'.remoteRef == step.work.answer.response.value.remoteRef
            && t'.completedAt == Some(step.now))
  {
    hide Run, Backoff, NodeFit, IsSuccess;
    RunOutcome(steps, step, s, i, k);
  }

  /**
   A task fails exactly when its last allowed attempt ends without an accepted answer: for want of a
   credential, by a transport error or another answer under a live lease, or by a lease that ran out.
   */
  lemma FailsExactlyWhen(steps: seq<Step>, step: Step, s: Settings, i: int, k: TaskKey)
    requires TaskExists(Run(steps, s), i, k) && Task(Run(steps, s), i, k).status != TaskFailed
    ensures TaskExists(Run(steps + [step], s), i, k)
    ensures var c, t, t' := Run(steps, s).configs[i], Task(Run(steps, s), i, k), Task(Run(steps + [step], s), i, k);
      t'.status == TaskFailed <==>
        OnConfig(step, i) && EndsBadly(c, step.work, step.now, k, s) && t.maxAttempts <= AttemptOf(t, step.work)
  {
    hide Run, Backoff, NodeFit, IsSuccess;
    RunOutcome(steps, step, s, i, k);
  }

  lemma AttemptsCounted(steps: seq<Step>, s: Settings, i: int, k: TaskKey)
    requires TaskExists(Run(steps, s), i, k)
    ensures var t := Task(Run(steps, s), i, k); 0 <= t.attempts && (t.status == InProgress ==> 0 < t.attempts)
  {
    RunInv(steps, s);
    var c := Run(steps, s).configs[i];
    hide Run;
    assert ConfigInv(c) && LedgerOk(k.op, c.nodeTasks[k]);
  }

  /**
   With an attempt left, the same end makes it pending again: due after the backoff, later than now and
   within five minutes, and nothing but the task has changed.
   */
  lemma RetriesExactlyWhen(steps: seq<Step>, step: Step, s: Settings, i: int, k: TaskKey)
    requires TaskExists(Run(steps, s), i, k)
    ensures TaskExists(Run(steps + [step], s), i, k)
    ensures var c, c' := Run(steps, s).configs[i], Run(steps + [step], s).configs[i];
      var t, t' := c.nodeTasks[k].task, c'.nodeTasks[k].task;
      var retries := OnConfig(step, i) && EndsBadly(c, step.work, step.now, k, s) && AttemptOf(t, step.work) < t.maxAttempts;
      && (t'.status == Pending && (t.status == InProgress || t'.attempts != t.attempts) <==> retries)
      && (retries ==>
            && c' == c.(nodeTasks := c'.nodeTasks) && t'.attempts == AttemptOf(t, step.work)
            && t'.nextRetryAt == Some(step.now + Backoff(s.nodeRetryBase, t'.attempts))
            && t'.nextRetryAt.Some? && step.now < t'.nextRetryAt.value <= step.now + 300)
  {
    hide Run, NodeFit, Backoff;
    AttemptsCounted(steps, s, i, k);
    RunOutcome(steps, step, s, i, k);
    var c := Run(steps, s).configs[i];
    if OnConfig(step, i) && EndsBadly(c, step.work, step.now, k, s) {
      BackoffDoublesToCap(s.nodeRetryBase, AttemptOf(c.nodeTasks[k].task, step.work));
    }
  }

  /** A lease is granted exactly by a prepare of a due task on a fit node with a credential; it is one more attempt. */
  lemma LeasedExactlyWhen(steps: seq<Step>, step: Step, s: Settings, i: int, k: TaskKey)
    requires TaskExists(Run(steps, s), i, k)
    ensures TaskExists(Run(steps + [step], s), i, k)
    ensures var c, c' := Run(steps, s).configs[i], Run(steps + [step], s).configs[i];
      var t, t' := c.nodeTasks[k].task, c'.nodeTasks[k].task;
      var leased := OnConfig(step, i) && Starts(c, step.work, step.now, k, s) && step.work.credential;
      && (t'.status == InProgress && t' != t <==> leased)
      && (leased ==>
            && c' == c.(nodeTasks := c'.nodeTasks) && t'.attempts == t.attempts + 1
            && t'.leaseToken == Some(step.work.token) && t'.leaseExpiresAt == Some(step.now + s.nodeLease))
  {
    hide Run, Backoff, NodeFit, IsSuccess;
    RunOutcome(steps, step, s, i, k);
  }

  /** An unfit node defers a due task exactly by the deferral time and costs no attempt. */
  lemma DeferredExactlyWhen(steps: seq<Step>, step: Step, s: Settings, i: int, k: TaskKey)
    requires TaskExists(Run(steps, s), i, k)
    ensures TaskExists(Run(steps + [step], s), i, k)
    ensures var c, c' := Run(steps, s).configs[i], Run(steps + [step], s).configs[i];
      var t, t' := c.nodeTasks[k].task, c'.nodeTasks[k].task;
      var deferred := OnConfig(step, i) && PreparesDue(c, step.work, step.now, k) && !NodeFit(k.op, step.work.node, step.now, s);
      && (t.status == Pending && t'.status == Pending && t'.attempts == t.attempts && t' != t <==> deferred)
      && (deferred ==> t' == t.(nextRetryAt := Some(step.now + s.nodeDefer)) && c' == c.(nodeTasks := c'.nodeTasks))
  {
    hide Run, Backoff, NodeFit, IsSuccess;
    RunOutcome(steps, step, s, i, k);
  }
}
