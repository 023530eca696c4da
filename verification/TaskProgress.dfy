/**
 The life of a node task over whole runs: who gets a lease, that attempts are closed once and
 work is bounded, and what a late provision success leaves behind.
 */
module TaskProgress {
  import opened Common
  import opened VpnEntity
  import opened NodeTaskEntity
  import opened NodeSelection
  import opened Transactions
  import opened Lifecycle
  import opened ControlPlane
  import opened ControlPlaneSafety

  // ---------------------------------------------------------------- bounded work

  /** How many more task transitions are possible: two per remaining attempt. */
  function Fuel(t: NodeTaskRow): int {
    if t.status == Pending then 2 * (t.maxAttempts - t.attempts)
    else if t.status == InProgress then 2 * (t.maxAttempts - t.attempts) + 1
    else 0
  }

  /** A deferral or no change at all, or a transition that uses up fuel. */
  ghost predicate Burns(t: NodeTaskRow, t': NodeTaskRow) {
    && t'.maxAttempts == t.maxAttempts
    && ((t'.status == t.status && t'.attempts == t.attempts) || Fuel(t') < Fuel(t))
  }

  lemma RetriedBurns(t: NodeTaskRow, response: Option<Response>, now: int, base: int)
    requires t.status == InProgress && t.attempts <= t.maxAttempts
    ensures Burns(t, Retried(t, response, now, base))
  {
  }

  ghost predicate Bounded(t: NodeTaskRow) {
    t.attempts <= t.maxAttempts && (t.status == Pending ==> t.attempts < t.maxAttempts)
  }

  /** A transaction keeps task `k` and burns its fuel. */
  ghost predicate KeepsBurning(c: Config, c': Config, k: TaskKey)
    requires k in c.nodeTasks
  {
    k in c'.nodeTasks && Burns(c.nodeTasks[k].task, c'.nodeTasks[k].task)
  }

  lemma FailOrRetryBurns(c: Config, j: TaskKey, n: int, response: Option<Response>, now: int, base: int, k: TaskKey)
    requires j in c.nodeTasks && c.nodeTasks[j].task.status == InProgress && Bounded(c.nodeTasks[j].task)
    requires k in c.nodeTasks
    ensures KeepsBurning(c, FailOrRetry(c, j, n, response, now, base), k)
  {
    RetriedBurns(c.nodeTasks[j].task, response, now, base);
  }

  lemma NodePrepareBurns(
    c: Config, j: TaskKey, now: int, token: int, node: Option<NodeState>, credential: bool, s: Settings, k: TaskKey)
    requires j in c.nodeTasks ==> Bounded(c.nodeTasks[j].task)
    requires k in c.nodeTasks
    ensures KeepsBurning(c, NodePrepare(c, j, now, token, node, credential, s), k)
  {
    if j in c.nodeTasks && CanDispatch(c.nodeTasks[j].task, now) {
      NodePrepareCases(c, j, now, token, node, credential, s);
      var l' := StartLedger(c.nodeTasks[j], now, now + s.nodeLease, token);
      FailOrRetryBurns(PutLedger(c, j, l'), j, l'.task.attempts, None, now, s.nodeRetryBase, k);
      hide FailOrRetry, NodePrepare;
    }
  }

  lemma NodeSucceededBurns(c: Config, j: TaskKey, now: int, n: int, response: Response, funded: bool, k: TaskKey)
    requires j in c.nodeTasks && c.nodeTasks[j].task.status == InProgress && Bounded(c.nodeTasks[j].task) && k in c.nodeTasks
    ensures KeepsBurning(c, NodeSucceeded(c, j, now, n, response, funded), k)
  {
  }

  lemma NodeFinalizeBurns(
    c: Config, j: TaskKey, now: int, token: int, n: int, answer: NodeAnswer, funded: bool, s: Settings, k: TaskKey)
    requires j in c.nodeTasks ==> Bounded(c.nodeTasks[j].task)
    requires k in c.nodeTasks
    ensures KeepsBurning(c, NodeFinalize(c, j, now, token, n, answer, funded, s), k)
  {
    if j in c.nodeTasks && OwnsActiveLease(c.nodeTasks[j].task, token, now, n) {
      NodeFinalizeCases(c, j, now, token, n, answer, funded, s);
      hide NodeFinalize, FailOrRetry, NodeSucceeded, KeepsBurning;
      if answer.Answered? && answer.response.Some? { NodeSucceededBurns(c, j, now, n, answer.response.value, funded, k); }
      FailOrRetryBurns(c, j, n, if answer.TransportError? then None else answer.response, now, s.nodeRetryBase, k);
    }
  }

  lemma NodeRecoverBurns(c: Config, j: TaskKey, now: int, s: Settings, k: TaskKey)
    requires j in c.nodeTasks ==> Bounded(c.nodeTasks[j].task)
    requires k in c.nodeTasks
    ensures KeepsBurning(c, NodeRecover(c, j, now, s), k)
  {
    if j in c.nodeTasks && LeaseExpired(c.nodeTasks[j].task, now) {
      RetriedBurns(c.nodeTasks[j].task, None, now, s.nodeRetryBase);
    }
  }

  lemma PanelWorkKeepsNodeTasks(c: Config, work: Work, now: int, funded: bool, s: Settings)
    requires !work.NodePrepares? && !work.NodeFinalizes? && !work.NodeRecovers?
    ensures Perform(c, work, now, funded, s).nodeTasks == c.nodeTasks
  {
  }

  lemma WorkBurns(c: Config, work: Work, now: int, funded: bool, s: Settings, k: TaskKey)
    requires ConfigInv(c) && k in c.nodeTasks
    ensures KeepsBurning(c, Perform(c, work, now, funded, s), k)
  {
    assert forall j :: j in c.nodeTasks ==> LedgerOk(j.op, c.nodeTasks[j]) && Bounded(c.nodeTasks[j].task);
    hide ConfigInv, LedgerOk;
    match work
    case NodePrepares(j, token, node, credential) => NodePrepareBurns(c, j, now, token, node, credential, s, k);
    case NodeFinalizes(j, token, n, answer) => NodeFinalizeBurns(c, j, now, token, n, answer, funded, s, k);
    case NodeRecovers(j) => NodeRecoverBurns(c, j, now, s, k);
    case _ => PanelWorkKeepsNodeTasks(c, work, now, funded, s);
  }

  lemma StepBurns(w: World, step: Step, s: Settings, i: int, k: TaskKey)
    requires Inv(w) && 0 <= i < |w.configs| && k in w.configs[i].nodeTasks
    ensures var w' := Apply(w, step, s);
      i < |w'.configs| && KeepsBurning(w.configs[i], w'.configs[i], k)
  {
    var c := w.configs[i];
    match step
    case WorkerCommits(j, work, now) =>
      WorkBurns(c, work, now, SubFunded(w, c.subscription, now), s, k);
      hide Perform, ConfigInv;
    case RequestProvision(sub, now, snapshot, ticket, panelEndpoint) =>
      if TicketDrawn(snapshot, ticket, now, s.staleAfter) {
        ProvisionKeepsConfigs(w, sub, now, snapshot, ticket, panelEndpoint, s, i);
      }
      hide Provision, ConfigInv;
    case RequestRevoke(j, reason, now) =>
      RevokePlanKeepsTasks(c, now, s, k);
      hide RevokePlan, ConfigInv;
    case EntitlementsChange(subs) =>
    case FleetChange(fleet) =>
  }

  ghost predicate TaskExists(w: World, i: int, k: TaskKey) {
    0 <= i < |w.configs| && k in w.configs[i].nodeTasks
  }

  /** The step moves task `k` of configuration `i` to another status or attempt; deferrals do not. */
  ghost predicate Moves(w: World, w': World, i: int, k: TaskKey) {
    && TaskExists(w, i, k) && TaskExists(w', i, k)
    && (w'.configs[i].nodeTasks[k].task.status != w.configs[i].nodeTasks[k].task.status
        || w'.configs[i].nodeTasks[k].task.attempts != w.configs[i].nodeTasks[k].task.attempts)
  }

  ghost function MoveCount(steps: seq<Step>, s: Settings, i: int, k: TaskKey): int {
    if steps == [] then 0
    else
      var p := steps[..|steps| - 1];
      MoveCount(p, s, i, k) + (if Moves(Run(p, s), Run(steps, s), i, k) then 1 else 0)
  }

  lemma {:induction false} NoTaskNoMoves(steps: seq<Step>, s: Settings, i: int, k: TaskKey)
    requires !TaskExists(Run(steps, s), i, k)
    ensures MoveCount(steps, s, i, k) == 0
  {
    if steps != [] {
      var p := steps[..|steps| - 1];
      if TaskExists(Run(p, s), i, k) {
        RunInv(p, s);
        StepBurns(Run(p, s), steps[|steps| - 1], s, i, k);
      }
      NoTaskNoMoves(p, s, i, k);
    }
  }

  ghost predicate FullIfNew(c: Config, c': Config, k: TaskKey) {
    k !in c.nodeTasks && k in c'.nodeTasks ==> Fuel(c'.nodeTasks[k].task) == 2 * c'.nodeTasks[k].task.maxAttempts
  }

  lemma FailOrRetryKeys(c: Config, j: TaskKey, n: int, response: Option<Response>, now: int, base: int)
    requires j in c.nodeTasks
    ensures FailOrRetry(c, j, n, response, now, base).nodeTasks.Keys == c.nodeTasks.Keys
  {
  }

  lemma WorkFullIfNew(c: Config, work: Work, now: int, funded: bool, s: Settings, k: TaskKey)
    ensures FullIfNew(c, Perform(c, work, now, funded, s), k)
  {
    match work
    case NodePrepares(j, token, node, credential) =>
      if j in c.nodeTasks {
        var l' := StartLedger(c.nodeTasks[j], now, now + s.nodeLease, token);
        FailOrRetryKeys(PutLedger(c, j, l'), j, l'.task.attempts, None, now, s.nodeRetryBase);
        hide FailOrRetry;
      }
    case NodeFinalizes(j, token, n, answer) =>
      if j in c.nodeTasks {
        FailOrRetryKeys(c, j, n, if answer.TransportError? then None else answer.response, now, s.nodeRetryBase);
        hide FailOrRetry;
      }
    case NodeRecovers(j) =>
    case _ => PanelWorkKeepsNodeTasks(c, work, now, funded, s);
  }

  lemma RevokePlanFullIfNew(c: Config, now: int, s: Settings, k: TaskKey)
    ensures FullIfNew(c, RevokePlan(c, now, s), k)
  {
  }

  /** A task that a step brings into being starts with all its fuel. */
  lemma NewTaskIsFull(w: World, step: Step, s: Settings, i: int, k: TaskKey)
    requires Inv(w) && !TaskExists(w, i, k) && TaskExists(Apply(w, step, s), i, k)
    ensures var t := Apply(w, step, s).configs[i].nodeTasks[k].task; Fuel(t) == 2 * t.maxAttempts
  {
    match step
    case WorkerCommits(j, work, now) =>
      if 0 <= i < |w.configs| {
        WorkFullIfNew(w.configs[i], work, now, SubFunded(w, w.configs[i].subscription, now), s, k);
      }
      hide Perform, ConfigInv;
    case RequestRevoke(j, reason, now) =>
      if 0 <= i < |w.configs| { RevokePlanFullIfNew(w.configs[i], now, s, k); }
      hide RevokePlan, ConfigInv;
    case RequestProvision(sub, now, snapshot, ticket, panelEndpoint) =>
      var plan := PlanProvision(w, sub, now);
      if plan.Reuse? { ReuseIsNoOp(w.configs[plan.config], now, s); }
      hide ReuseProvisioning, ConfigInv, Select;
    case EntitlementsChange(subs) =>
    case FleetChange(fleet) =>
  }

  /**
   Node work terminates: over a whole run, a task moves at most twice per allowed attempt,
   and what it has left is its fuel.
   */
  lemma {:induction false} MovesAreBounded(steps: seq<Step>, s: Settings, i: int, k: TaskKey)
    requires TaskExists(Run(steps, s), i, k)
    ensures var t := Run(steps, s).configs[i].nodeTasks[k].task;
      0 <= MoveCount(steps, s, i, k) && MoveCount(steps, s, i, k) + Fuel(t) <= 2 * t.maxAttempts && 0 <= Fuel(t)
  {
    if steps != [] {
      var p, step := steps[..|steps| - 1], steps[|steps| - 1];
      RunInv(p, s);
      RunInv(steps, s);
      assert ConfigInv(Run(steps, s).configs[i]);
      var t := Run(steps, s).configs[i].nodeTasks[k].task;
      assert LedgerOk(k.op, Run(steps, s).configs[i].nodeTasks[k]);
      hide ConfigInv, Apply, Inv;
      if TaskExists(Run(p, s), i, k) {
        MovesAreBounded(p, s, i, k);
        StepBurns(Run(p, s), step, s, i, k);
      } else {
        NoTaskNoMoves(p, s, i, k);
        NewTaskIsFull(Run(p, s), step, s, i, k);
      }
    }
  }

  // ---------------------------------------------------------------- who gets a lease

  /** Task `k` goes from pending to in progress. */
  ghost predicate GetsLease(c: Config, c': Config, k: TaskKey) {
    && k in c.nodeTasks && k in c'.nodeTasks
    && c.nodeTasks[k].task.status != InProgress && c'.nodeTasks[k].task.status == InProgress
  }

  /** The transaction dispatches a due task to an available node with a credential, for one more attempt. */
  ghost predicate Dispatches(c: Config, c': Config, work: Work, now: int, s: Settings, k: TaskKey)
    requires k in c.nodeTasks && k in c'.nodeTasks
  {
    && work.NodePrepares? && work.key == k && work.credential && NodeAllows(k, work.node, now, s)
    && CanDispatch(c.nodeTasks[k].task, now)
    && OwnsActiveLease(c'.nodeTasks[k].task, work.token, now, c.nodeTasks[k].task.attempts + 1)
    && c'.nodeTasks[k].task.leaseExpiresAt == Some(now + s.nodeLease)
  }

  lemma FailOrRetryLeases(c: Config, j: TaskKey, n: int, response: Option<Response>, now: int, base: int, k: TaskKey)
    requires j in c.nodeTasks && k in c.nodeTasks
    ensures var c' := FailOrRetry(c, j, n, response, now, base);
      k in c'.nodeTasks && (k == j ==> c'.nodeTasks[k].task.status != InProgress) && (k != j ==> c'.nodeTasks[k] == c.nodeTasks[k])
  {
  }

  lemma NodePrepareLeases(
    c: Config, j: TaskKey, now: int, token: int, node: Option<NodeState>, credential: bool, s: Settings, k: TaskKey)
    requires GetsLease(c, NodePrepare(c, j, now, token, node, credential, s), k)
    ensures Dispatches(c, NodePrepare(c, j, now, token, node, credential, s), NodePrepares(j, token, node, credential), now, s, k)
  {
    if j in c.nodeTasks && CanDispatch(c.nodeTasks[j].task, now) {
      NodePrepareCases(c, j, now, token, node, credential, s);
      var l' := StartLedger(c.nodeTasks[j], now, now + s.nodeLease, token);
      FailOrRetryLeases(PutLedger(c, j, l'), j, l'.task.attempts, None, now, s.nodeRetryBase, k);
      hide FailOrRetry, NodePrepare, NodeAllows;
    }
  }

  lemma NodeFinalizeLeases(
    c: Config, j: TaskKey, now: int, token: int, n: int, answer: NodeAnswer, funded: bool, s: Settings, k: TaskKey)
    ensures !GetsLease(c, NodeFinalize(c, j, now, token, n, answer, funded, s), k)
  {
    if j in c.nodeTasks && k in c.nodeTasks && OwnsActiveLease(c.nodeTasks[j].task, token, now, n) {
      NodeFinalizeCases(c, j, now, token, n, answer, funded, s);
      FailOrRetryLeases(c, j, n, if answer.TransportError? then None else answer.response, now, s.nodeRetryBase, k);
      hide NodeFinalize, FailOrRetry;
    }
  }

  lemma WorkLeases(c: Config, work: Work, now: int, funded: bool, s: Settings, k: TaskKey)
    requires GetsLease(c, Perform(c, work, now, funded, s), k)
    ensures Dispatches(c, Perform(c, work, now, funded, s), work, now, s, k)
  {
    hide NodePrepare, NodeFinalize, NodeAllows;
    match work
    case NodePrepares(j, token, node, credential) => NodePrepareLeases(c, j, now, token, node, credential, s, k);
    case NodeFinalizes(j, token, n, answer) => NodeFinalizeLeases(c, j, now, token, n, answer, funded, s, k);
    case NodeRecovers(j) =>
    case _ => PanelWorkKeepsNodeTasks(c, work, now, funded, s);
  }

  /**
   A request goes out only from a prepare step on a due task, with an active credential, to a node
   whose health was checked recently and allows the operation; it is exactly one more attempt.
   */
  lemma LeasesAreGuarded(steps: seq<Step>, step: Step, s: Settings, i: int, k: TaskKey)
    requires TaskExists(Run(steps, s), i, k) && i < |Run(steps + [step], s).configs|
    requires GetsLease(Run(steps, s).configs[i], Run(steps + [step], s).configs[i], k)
    ensures step.WorkerCommits? && step.config == i
    ensures Dispatches(Run(steps, s).configs[i], Run(steps + [step], s).configs[i], step.work, step.now, s, k)
  {
    var w := Run(steps, s);
    var c := w.configs[i];
    RunInv(steps, s);
    assert (steps + [step])[..|steps|] == steps;
    match step
    case WorkerCommits(j, work, now) =>
      if j == i && GetsLease(c, Perform(c, work, now, SubFunded(w, c.subscription, now), s), k) {
        WorkLeases(c, work, now, SubFunded(w, c.subscription, now), s, k);
      }
      hide Perform, Inv, Dispatches;
    case RequestProvision(sub, now, snapshot, ticket, panelEndpoint) =>
      if TicketDrawn(snapshot, ticket, now, s.staleAfter) {
        ProvisionKeepsConfigs(w, sub, now, snapshot, ticket, panelEndpoint, s, i);
      }
      hide Provision, Inv;
    case RequestRevoke(j, reason, now) =>
      RevokePlanKeepsTasks(c, now, s, k);
      hide RevokePlan, Inv;
    case EntitlementsChange(subs) =>
    case FleetChange(fleet) =>
  }

  // ---------------------------------------------------------------- closed attempts

  /** Every attempt row that was closed stays as it was closed. */
  ghost predicate RowsKept(l: Ledger, l': Ledger) {
    forall n :: n in l.attempts && l.attempts[n].Finished? ==> n in l'.attempts && l'.attempts[n] == l.attempts[n]
  }

  ghost predicate KeepsRows(c: Config, c': Config, k: TaskKey)
    requires k in c.nodeTasks
  {
    k in c'.nodeTasks && RowsKept(c.nodeTasks[k], c'.nodeTasks[k])
  }

  /** The current attempt of a task in progress is open, and no other attempt is. */
  ghost predicate CurrentOpen(l: Ledger) {
    l.task.status == InProgress ==> l.task.attempts in l.attempts && l.attempts[l.task.attempts] == Started
  }

  lemma FailOrRetryKeepsRows(c: Config, j: TaskKey, n: int, response: Option<Response>, now: int, base: int, k: TaskKey)
    requires j in c.nodeTasks && k in c.nodeTasks && n in c.nodeTasks[j].attempts && c.nodeTasks[j].attempts[n] == Started
    ensures KeepsRows(c, FailOrRetry(c, j, n, response, now, base), k)
  {
  }

  lemma NodePrepareKeepsRows(
    c: Config, j: TaskKey, now: int, token: int, node: Option<NodeState>, credential: bool, s: Settings, k: TaskKey)
    requires k in c.nodeTasks
    ensures KeepsRows(c, NodePrepare(c, j, now, token, node, credential, s), k)
  {
    if j in c.nodeTasks && CanDispatch(c.nodeTasks[j].task, now) {
      NodePrepareCases(c, j, now, token, node, credential, s);
      var l' := StartLedger(c.nodeTasks[j], now, now + s.nodeLease, token);
      FailOrRetryKeepsRows(PutLedger(c, j, l'), j, l'.task.attempts, None, now, s.nodeRetryBase, k);
      hide FailOrRetry, NodePrepare;
    }
  }

  lemma NodeSucceededKeepsRows(c: Config, j: TaskKey, now: int, n: int, response: Response, funded: bool, k: TaskKey)
    requires j in c.nodeTasks && k in c.nodeTasks && n in c.nodeTasks[j].attempts && c.nodeTasks[j].attempts[n] == Started
    ensures KeepsRows(c, NodeSucceeded(c, j, now, n, response, funded), k)
  {
  }

  lemma NodeFinalizeKeepsRows(
    c: Config, j: TaskKey, now: int, token: int, n: int, answer: NodeAnswer, funded: bool, s: Settings, k: TaskKey)
    requires j in c.nodeTasks ==> CurrentOpen(c.nodeTasks[j])
    requires k in c.nodeTasks
    ensures KeepsRows(c, NodeFinalize(c, j, now, token, n, answer, funded, s), k)
  {
    if j in c.nodeTasks && OwnsActiveLease(c.nodeTasks[j].task, token, now, n) {
      NodeFinalizeCases(c, j, now, token, n, answer, funded, s);
      hide NodeFinalize, FailOrRetry, NodeSucceeded, KeepsRows;
      if answer.Answered? && answer.response.Some? { NodeSucceededKeepsRows(c, j, now, n, answer.response.value, funded, k); }
      FailOrRetryKeepsRows(c, j, n, if answer.TransportError? then None else answer.response, now, s.nodeRetryBase, k);
    }
  }

  lemma NodeRecoverKeepsRows(c: Config, j: TaskKey, now: int, s: Settings, k: TaskKey)
    requires k in c.nodeTasks
    ensures KeepsRows(c, NodeRecover(c, j, now, s), k)
  {
    hide Retried;
  }

  lemma LedgersAreOpen(c: Config, j: TaskKey)
    requires ConfigInv(c)
    ensures j in c.nodeTasks ==> CurrentOpen(c.nodeTasks[j])
  {
    assert j in c.nodeTasks ==> LedgerOk(j.op, c.nodeTasks[j]);
  }

  lemma WorkKeepsRows(c: Config, work: Work, now: int, funded: bool, s: Settings, k: TaskKey)
    requires ConfigInv(c) && k in c.nodeTasks
    ensures KeepsRows(c, Perform(c, work, now, funded, s), k)
  {
    hide ConfigInv, CurrentOpen, NodePrepare, NodeFinalize, NodeRecover;
    match work
    case NodePrepares(j, token, node, credential) => NodePrepareKeepsRows(c, j, now, token, node, credential, s, k);
    case NodeFinalizes(j, token, n, answer) =>
      LedgersAreOpen(c, j);
      NodeFinalizeKeepsRows(c, j, now, token, n, answer, funded, s, k);
    case NodeRecovers(j) => NodeRecoverKeepsRows(c, j, now, s, k);
    case _ => PanelWorkKeepsNodeTasks(c, work, now, funded, s);
  }

  lemma StepKeepsRows(w: World, step: Step, s: Settings, i: int, k: TaskKey)
    requires Inv(w) && TaskExists(w, i, k)
    ensures var w' := Apply(w, step, s); i < |w'.configs| && KeepsRows(w.configs[i], w'.configs[i], k)
  {
    var c := w.configs[i];
    match step
    case WorkerCommits(j, work, now) =>
      WorkKeepsRows(c, work, now, SubFunded(w, c.subscription, now), s, k);
      hide Perform, ConfigInv;
    case RequestProvision(sub, now, snapshot, ticket, panelEndpoint) =>
      if TicketDrawn(snapshot, ticket, now, s.staleAfter) {
        ProvisionKeepsConfigs(w, sub, now, snapshot, ticket, panelEndpoint, s, i);
      }
      hide Provision, ConfigInv;
    case RequestRevoke(j, reason, now) =>
      RevokePlanKeepsTasks(c, now, s, k);
      hide RevokePlan, ConfigInv;
    case EntitlementsChange(subs) =>
    case FleetChange(fleet) =>
  }

  ghost predicate AttemptClosed(w: World, i: int, k: TaskKey, n: int) {
    && TaskExists(w, i, k) && n in w.configs[i].nodeTasks[k].attempts
    && w.configs[i].nodeTasks[k].attempts[n].Finished?
  }

  /** A closed attempt stays closed with the same result, and its worker's late answer changes nothing, whatever its token. */
  lemma AttemptsCloseOnce(
    steps: seq<Step>, step: Step, s: Settings, i: int, k: TaskKey, n: int, token: int, answer: NodeAnswer, now: int)
    requires AttemptClosed(Run(steps, s), i, k, n)
    ensures AttemptClosed(Run(steps + [step], s), i, k, n)
    ensures Run(steps + [step], s).configs[i].nodeTasks[k].attempts[n] == Run(steps, s).configs[i].nodeTasks[k].attempts[n]
    ensures CommitWork(Run(steps, s), i, NodeFinalizes(k, token, n, answer), now, s) == Run(steps, s)
  {
    var w := Run(steps, s);
    RunInv(steps, s);
    assert (steps + [step])[..|steps|] == steps;
    StepKeepsRows(w, step, s, i, k);
    assert ConfigInv(w.configs[i]);
    assert LedgerOk(k.op, w.configs[i].nodeTasks[k]);
    hide ConfigInv, Apply;
    assert w.configs[i := w.configs[i]] == w.configs;
  }

  // ---------------------------------------------------------------- stale provision answers

  /** A worker reports a remote provision success under a lease it still holds. */
  ghost predicate ProvisionReported(c: Config, now: int, token: int, n: int, r: Response) {
    var k := TaskKey(ProvisionClient, 1);
    k in c.nodeTasks && OwnsActiveLease(c.nodeTasks[k].task, token, now, n) && Accepts(ProvisionClient, r.status)
  }

  /** One finalization, on the rows of one configuration. */
  lemma CleanupAfterFinalize(c: Config, now: int, token: int, n: int, r: Response, funded: bool, s: Settings)
    requires NodeInv(c) && ProvisionReported(c, now, token, n, r)
    requires !(c.vpn.status == Provisioning && funded)
    ensures var c' := NodeFinalize(c, TaskKey(ProvisionClient, 1), now, token, n, Answered(Some(r)), funded, s);
      var k := TaskKey(RevokeClient, c'.vpn.generation);
      && k in c'.nodeTasks
      && (IsOpen(c'.nodeTasks[k].task.status) <==> c.vpn.status == Provisioning || c.vpn.status == Revoking)
  {
    var p := TaskKey(ProvisionClient, 1);
    NodeFinalizeKeepsInv(c, p, now, token, n, Answered(Some(r)), funded, s);
    var c' := NodeFinalize(c, p, now, token, n, Answered(Some(r)), funded, s);
    assert KnownKey(c, CurrentKey(c.vpn.generation)) && KnownKey(c', CurrentKey(c'.vpn.generation));
    assert c'.vpn.status == (if c.vpn.status == Provisioning then Revoking else c.vpn.status);
  }

  /** The step that records a provision answer. */
  function ReportStep(i: int, token: int, n: int, r: Response, now: int): Step {
    WorkerCommits(i, NodeFinalizes(TaskKey(ProvisionClient, 1), token, n, Answered(Some(r))), now)
  }

  /**
   In every run, when a provision success does not activate, a revoke task of the current generation
   exists after the step, but it is still open, so that the client will be removed, if and only if
   the configuration was PROVISIONING or REVOKING before it.
   */
  lemma CleanupPendingExactlyWhen(steps: seq<Step>, s: Settings, i: int, now: int, token: int, n: int, r: Response)
    requires 0 <= i < |Run(steps, s).configs| && Run(steps, s).configs[i].node.Some?
    requires ProvisionReported(Run(steps, s).configs[i], now, token, n, r)
    requires var w := Run(steps, s);
      !(w.configs[i].vpn.status == Provisioning && SubFunded(w, w.configs[i].subscription, now))
    ensures var c, w' := Run(steps, s).configs[i], Run(steps + [ReportStep(i, token, n, r, now)], s);
      && i < |w'.configs|
      && (var c' := w'.configs[i];
          var k := TaskKey(RevokeClient, c'.vpn.generation);
          && k in c'.nodeTasks
          && (IsOpen(c'.nodeTasks[k].task.status) <==> c.vpn.status == Provisioning || c.vpn.status == Revoking))
  {
    var w := Run(steps, s);
    RunInv(steps, s);
    assert ConfigInv(w.configs[i]);
    assert (steps + [ReportStep(i, token, n, r, now)])[..|steps|] == steps;
    CleanupAfterFinalize(w.configs[i], now, token, n, r, SubFunded(w, w.configs[i].subscription, now), s);
    hide Run, Inv, ConfigInv, NodeFinalize, ProvisionReported;
  }
}
