/**
 The control plane composed with the journals of its node agents. Requests and answers travel
 over a network that may lose, delay, reorder and duplicate them: a message once sent may be
 acted on at any later time, any number of times, or never. An operation may stop half-way for
 good, and its key may then be reclaimed.

 A task row has one idempotency key and a payload that never changes, so the row is used as key
 and as request identity. One table stands for the journals of all agents: a key belongs to one node.
 */
module AgentAgreement {
  import opened Common
  import opened VpnEntity
  import opened NodeTaskEntity
  import opened NodeSelection
  import opened Transactions
  import opened Lifecycle
  import opened ControlPlane
  import opened ControlPlaneSafety
  import opened TaskProgress
  import Journal

  datatype OpKey = OpKey(config: int, task: TaskKey)

  type JournalTable = map<OpKey, Journal.Row<OpKey>>

  /** An operation that claimed its key and has not ended yet. */
  datatype Handler = Handler(key: OpKey, reclaimed: bool)

  datatype Answer = Answer(key: OpKey, response: Response)

  datatype Net = Net(
    world: World,
    journal: JournalTable,
    handlers: map<int, Handler>,    // by owner token
    requests: set<OpKey>,
    answers: set<Answer>,
    retirements: set<OpKey>)

  datatype NetStep =
    | Control(step: Step)
    | RequestArrives(key: OpKey, now: int, token: int)
    | OperationEnds(token: int, cleanup: Option<RemoteStatus>, result: Option<Response>)
    | RetirementSent(key: OpKey)
    | RetirementArrives(key: OpKey)

  // ---------------------------------------------------------------- the agent

  /** What the runtime delivered; a reclaimed provision first removes what an earlier attempt may have left. */
  function RuntimeOutcome(h: Handler, cleanup: Option<RemoteStatus>, result: Option<Response>): Option<Response> {
    if h.key.task.op == ProvisionClient && h.reclaimed && !(cleanup.Some? && Accepts(RevokeClient, cleanup.value)) then None
    else result
  }

  predicate Accepted(h: Handler, outcome: Option<Response>) {
    outcome.Some? && Accepts(h.key.task.op, outcome.value.status)
  }

  function JournalAfter(rows: JournalTable, h: Handler, token: int, outcome: Option<Response>): JournalTable {
    Journal.AfterUpdate(rows, h.key, token, if Accepted(h, outcome) then Journal.Done(outcome.value) else Journal.Retryable)
  }

  /** A success is answered only by the owner that completed the row. */
  function AnswerOf(rows: JournalTable, h: Handler, token: int, outcome: Option<Response>): Option<Response> {
    if Accepted(h, outcome) && !Journal.Owns(rows, h.key, token) then None else outcome
  }

  /** `_execute_operation`, split where the runtime is called: others may run in between. */
  class NodeAgent {
    const journal: Journal.NodeOperationJournal<OpKey, OpKey>

    constructor (journal: Journal.NodeOperationJournal<OpKey, OpKey>)
      ensures this.journal == journal
    {
      this.journal := journal;
    }

    method Receive(key: OpKey, now: int, token: int) returns (handler: Option<Handler>, answer: Option<Response>)
      modifies journal
      ensures journal.rows == Journal.AfterClaim(old(journal.rows), key, key, now, token, journal.leaseSeconds)
      ensures var claim := Journal.ClaimOutcome(old(journal.rows), key, key, now);
        && handler == (if claim.Owner? then Some(Handler(key, claim.reclaimed)) else None)
        && answer == (if claim.Replay? then Some(claim.response) else None)
    {
      handler, answer := None, None;
      var claim := journal.TryClaim(key, key, now, token);
      match claim
      case Conflict =>
      case Busy =>
      case Replay(response) => answer := Some(response);
      case Owner(reclaimed) => handler := Some(Handler(key, reclaimed));
    }

    method Finish(h: Handler, token: int, cleanup: Option<RemoteStatus>, result: Option<Response>)
      returns (answer: Option<Response>)
      modifies journal
      ensures var outcome := RuntimeOutcome(h, cleanup, result);
        && journal.rows == JournalAfter(old(journal.rows), h, token, outcome)
        && answer == AnswerOf(old(journal.rows), h, token, outcome)
    {
      if h.key.task.op == ProvisionClient && h.reclaimed {
        if cleanup.None? || !Accepts(RevokeClient, cleanup.value) {
          var _ := journal.MarkRetryable(h.key, token);
          return None;
        }
      }
      if result.None? {
        var _ := journal.MarkRetryable(h.key, token);
        return None;
      }
      if !Accepts(h.key.task.op, result.value.status) {
        var _ := journal.MarkRetryable(h.key, token);
        return result;
      }
      var finalized := journal.Complete(h.key, token, result.value);
      answer := if finalized then result else None;
    }
  }

  // ---------------------------------------------------------------- the composed system

  function TaskOf(w: World, key: OpKey): Option<NodeTaskRow> {
    if 0 <= key.config < |w.configs| && key.task in w.configs[key.config].nodeTasks
    then Some(w.configs[key.config].nodeTasks[key.task].task) else None
  }

  /** The answer a control-plane step finalizes task `key` with, if it does. */
  function Reported(step: Step, key: OpKey): Option<Response> {
    if step.WorkerCommits? && step.config == key.config && step.work.NodeFinalizes? && step.work.key == key.task
       && step.work.answer.Answered? then step.work.answer.response else None
  }

  /** The task a control-plane step has just leased to a worker, which sends it. */
  function Leased(w: World, step: Step, w': World): set<OpKey> {
    if step.WorkerCommits? && step.work.NodePrepares? then
      var key := OpKey(step.config, step.work.key);
      if TaskOf(w', key).Some? && TaskOf(w', key) != TaskOf(w, key) && TaskOf(w', key).value.status == InProgress
      then {key} else {}
    else {}
  }

  /** A finalizing worker only has an answer that its task's agent sent. */
  predicate AnswerArrived(n: Net, step: Step) {
    step.WorkerCommits? && step.work.NodeFinalizes? && step.work.answer.Answered? && step.work.answer.response.Some? ==>
      Answer(OpKey(step.config, step.work.key), step.work.answer.response.value) in n.answers
  }

  predicate Retirable(w: World, key: OpKey) {
    TaskOf(w, key).Some? && !IsOpen(TaskOf(w, key).value.status)
  }

  function Next(n: Net, step: NetStep, lease: int, s: Settings): Net {
    match step
    case Control(st) =>
      if AnswerArrived(n, st) then
        var w' := Apply(n.world, st, s);
        n.(world := w', requests := n.requests + Leased(n.world, st, w'))
      else n
    case RequestArrives(key, now, token) =>
      if key in n.requests && token !in n.handlers then
        var claim := Journal.ClaimOutcome(n.journal, key, key, now);
        n.(journal := Journal.AfterClaim(n.journal, key, key, now, token, lease),
           handlers := if claim.Owner? then n.handlers[token := Handler(key, claim.reclaimed)] else n.handlers,
           answers := if claim.Replay? then n.answers + {Answer(key, claim.response)} else n.answers)
      else n
    case OperationEnds(token, cleanup, result) =>
      if token in n.handlers then
        var h := n.handlers[token];
        var outcome := RuntimeOutcome(h, cleanup, result);
        var answer := AnswerOf(n.journal, h, token, outcome);
        n.(journal := JournalAfter(n.journal, h, token, outcome),
           handlers := n.handlers - {token},
           answers := if answer.Some? then n.answers + {Answer(h.key, answer.value)} else n.answers)
      else n
    case RetirementSent(key) =>
      if Retirable(n.world, key) then n.(retirements := n.retirements + {key}) else n
    case RetirementArrives(key) =>
      if key in n.retirements then n.(journal := Journal.AfterRetire(n.journal, key)) else n
  }

  const QUIET := Net(EMPTY, map[], map[], {}, {}, {})

  function NetRun(steps: seq<NetStep>, lease: int, s: Settings): Net {
    if steps == [] then QUIET
    else Next(NetRun(steps[..|steps| - 1], lease, s), steps[|steps| - 1], lease, s)
  }

  // ---------------------------------------------------------------- how a task row may change

  /** A finished task is frozen; an open one succeeds only with an accepted answer that it then stores. */
  ghost predicate Evolves(op: Operation, t: NodeTaskRow, t': NodeTaskRow, answer: Option<Response>) {
    || t' == t
    || (IsOpen(t.status) && t'.status != Succeeded)
    || (IsOpen(t.status) && t'.status == Succeeded && t'.response == answer
        && answer.Some? && Accepts(op, answer.value.status))
  }

  ghost predicate KeepsEvolving(c: Config, c': Config, k: TaskKey, answer: Option<Response>)
    requires k in c.nodeTasks
  {
    k in c'.nodeTasks && Evolves(k.op, c.nodeTasks[k].task, c'.nodeTasks[k].task, answer)
  }

  lemma FailOrRetryEvolves(
    c: Config, j: TaskKey, n: int, response: Option<Response>, now: int, base: int, k: TaskKey, answer: Option<Response>)
    requires j in c.nodeTasks && IsOpen(c.nodeTasks[j].task.status) && k in c.nodeTasks
    ensures KeepsEvolving(c, FailOrRetry(c, j, n, response, now, base), k, answer)
  {
  }

  lemma NodePrepareEvolves(
    c: Config, j: TaskKey, now: int, token: int, node: Option<NodeState>, credential: bool, s: Settings, k: TaskKey)
    requires k in c.nodeTasks
    ensures KeepsEvolving(c, NodePrepare(c, j, now, token, node, credential, s), k, None)
  {
    if j in c.nodeTasks && CanDispatch(c.nodeTasks[j].task, now) {
      var l' := StartLedger(c.nodeTasks[j], now, now + s.nodeLease, token);
      FailOrRetryEvolves(PutLedger(c, j, l'), j, l'.task.attempts, None, now, s.nodeRetryBase, k, None);
      hide FailOrRetry;
    }
  }

  lemma NodeSucceededEvolves(c: Config, j: TaskKey, now: int, n: int, response: Response, funded: bool, k: TaskKey)
    requires j in c.nodeTasks && IsOpen(c.nodeTasks[j].task.status) && Accepts(j.op, response.status) && k in c.nodeTasks
    ensures KeepsEvolving(c, NodeSucceeded(c, j, now, n, response, funded), k, if j == k then Some(response) else None)
  {
  }

  lemma NodeFinalizeEvolves(
    c: Config, j: TaskKey, now: int, token: int, n: int, answer: NodeAnswer, funded: bool, s: Settings, k: TaskKey)
    requires k in c.nodeTasks
    ensures KeepsEvolving(c, NodeFinalize(c, j, now, token, n, answer, funded, s), k,
                          if j == k && answer.Answered? then answer.response else None)
  {
    if j in c.nodeTasks && OwnsActiveLease(c.nodeTasks[j].task, token, now, n) {
      NodeFinalizeCases(c, j, now, token, n, answer, funded, s);
      hide NodeFinalize, FailOrRetry, NodeSucceeded, KeepsEvolving;
      if answer.Answered? && answer.response.Some? && Accepts(j.op, answer.response.value.status) {
        NodeSucceededEvolves(c, j, now, n, answer.response.value, funded, k);
      }
      FailOrRetryEvolves(c, j, n, if answer.TransportError? then None else answer.response, now, s.nodeRetryBase, k,
                         if j == k && answer.Answered? then answer.response else None);
    }
  }

  lemma WorkEvolves(c: Config, work: Work, now: int, funded: bool, s: Settings, k: TaskKey)
    requires k in c.nodeTasks
    ensures KeepsEvolving(c, Perform(c, work, now, funded, s), k,
      if work.NodeFinalizes? && work.key == k && work.answer.Answered? then work.answer.response else None)
  {
    match work
    case NodePrepares(j, token, node, credential) => NodePrepareEvolves(c, j, now, token, node, credential, s, k);
    case NodeFinalizes(j, token, n, answer) => NodeFinalizeEvolves(c, j, now, token, n, answer, funded, s, k);
    case NodeRecovers(j) =>
    case _ => PanelWorkKeepsNodeTasks(c, work, now, funded, s);
  }

  lemma StepEvolves(w: World, step: Step, s: Settings, key: OpKey)
    requires Inv(w) && TaskOf(w, key).Some?
    ensures var t' := TaskOf(Apply(w, step, s), key);
      t'.Some? && Evolves(key.task.op, TaskOf(w, key).value, t'.value, Reported(step, key))
  {
    var c := w.configs[key.config];
    match step
    case WorkerCommits(j, work, now) =>
      WorkEvolves(c, work, now, SubFunded(w, c.subscription, now), s, key.task);
      hide Perform, ConfigInv;
    case RequestProvision(sub, now, snapshot, ticket, panelEndpoint) =>
      if TicketDrawn(snapshot, ticket, now, s.staleAfter) {
        ProvisionKeepsConfigs(w, sub, now, snapshot, ticket, panelEndpoint, s, key.config);
      }
      hide Provision, ConfigInv;
    case RequestRevoke(j, reason, now) =>
      RevokePlanKeepsTasks(c, now, s, key.task);
      hide RevokePlan, ConfigInv;
    case EntitlementsChange(subs) =>
    case FleetChange(fleet) =>
  }

  /** A task row that a step creates has not succeeded. */
  lemma NewTaskIsOpen(w: World, step: Step, s: Settings, key: OpKey)
    requires Inv(w) && TaskOf(w, key).None?
    ensures var t' := TaskOf(Apply(w, step, s), key); t'.Some? ==> t'.value.status != Succeeded
  {
    StepKeepsInv(w, step, s);
    var w' := Apply(w, step, s);
    if TaskOf(w', key).Some? {
      NewTaskIsFull(w, step, s, key.config, key.task);
      assert ConfigInv(w'.configs[key.config]);
      assert LedgerOk(key.task.op, w'.configs[key.config].nodeTasks[key.task]);
    }
  }

  // ---------------------------------------------------------------- agreement

  /** The agents' journals record `r` as the outcome of `key`. */
  ghost predicate Journaled(n: Net, key: OpKey, r: Response) {
    key in n.journal && n.journal[key].state == Journal.Done(r)
  }

  ghost predicate AnswersJournaled(n: Net) {
    forall a :: a in n.answers && a.key !in n.retirements && Accepts(a.key.task.op, a.response.status) ==>
      Journaled(n, a.key, a.response)
  }

  ghost predicate TasksJournaled(n: Net) {
    forall key :: TaskOf(n.world, key).Some? && key !in n.retirements && TaskOf(n.world, key).value.status == Succeeded ==>
      TaskOf(n.world, key).value.response.Some? && Journaled(n, key, TaskOf(n.world, key).value.response.value)
  }

  ghost predicate AgreementInv(n: Net) {
    && Inv(n.world)
    && (forall key :: key in n.retirements ==> Retirable(n.world, key))
    && (forall key :: key in n.journal ==> n.journal[key].identity == key)
    && AnswersJournaled(n) && TasksJournaled(n)
  }

  lemma ControlKeepsAgreement(n: Net, st: Step, lease: int, s: Settings)
    requires AgreementInv(n)
    ensures AgreementInv(Next(n, Control(st), lease, s))
  {
    var n' := Next(n, Control(st), lease, s);
    StepKeepsInv(n.world, st, s);
    hide Inv, Apply;
    forall key | TaskOf(n'.world, key).Some?
      ensures TaskOf(n'.world, key).value.status == Succeeded && key !in n'.retirements ==>
        TaskOf(n'.world, key).value.response.Some? && Journaled(n', key, TaskOf(n'.world, key).value.response.value)
    {
      if TaskOf(n.world, key).Some? { StepEvolves(n.world, st, s, key); } else { NewTaskIsOpen(n.world, st, s, key); }
    }
    forall key | key in n'.retirements ensures Retirable(n'.world, key) {
      StepEvolves(n.world, st, s, key);
    }
  }

  lemma AgentKeepsAgreement(n: Net, step: NetStep, lease: int, s: Settings)
    requires AgreementInv(n) && !step.Control?
    ensures AgreementInv(Next(n, step, lease, s))
  {
    hide Inv;
  }

  lemma {:induction false} AgreementRunInv(steps: seq<NetStep>, lease: int, s: Settings)
    ensures AgreementInv(NetRun(steps, lease, s))
  {
    if steps != [] {
      var p, step := steps[..|steps| - 1], steps[|steps| - 1];
      AgreementRunInv(p, lease, s);
      hide AgreementInv, Next;
      if step.Control? { ControlKeepsAgreement(NetRun(p, lease, s), step.step, lease, s); }
      else { AgentKeepsAgreement(NetRun(p, lease, s), step, lease, s); }
    }
  }

  /**
   Agreement: in every run, a task that has succeeded and whose retirement has not been requested
   stores exactly the response that its agent's journal holds for its key.
   */
  lemma TasksAgreeWithJournal(steps: seq<NetStep>, lease: int, s: Settings, key: OpKey)
    requires var n := NetRun(steps, lease, s);
      TaskOf(n.world, key).Some? && TaskOf(n.world, key).value.status == Succeeded && key !in n.retirements
    ensures var n := NetRun(steps, lease, s);
      var t := TaskOf(n.world, key).value;
      t.response.Some? && Journaled(n, key, t.response.value)
  {
    AgreementRunInv(steps, lease, s);
  }

  /** At the very step that makes a task SUCCEEDED, the journal holds the stored response, whatever happened before. */
  lemma SuccessIsJournaled(steps: seq<NetStep>, step: NetStep, lease: int, s: Settings, key: OpKey)
    requires var n, n' := NetRun(steps, lease, s), NetRun(steps + [step], lease, s);
      && TaskOf(n'.world, key).Some? && TaskOf(n'.world, key).value.status == Succeeded
      && (TaskOf(n.world, key).Some? ==> TaskOf(n.world, key).value.status != Succeeded)
    ensures var n' := NetRun(steps + [step], lease, s);
      var t := TaskOf(n'.world, key).value;
      t.response.Some? && Accepts(key.task.op, t.response.value.status) && Journaled(n', key, t.response.value)
  {
    var n := NetRun(steps, lease, s);
    assert (steps + [step])[..|steps|] == steps;
    AgreementRunInv(steps, lease, s);
    AgreementRunInv(steps + [step], lease, s);
    hide Inv, Apply;
    assert step.Control?;
    if TaskOf(n.world, key).Some? {
      StepEvolves(n.world, step.step, s, key);
    } else {
      NewTaskIsOpen(n.world, step.step, s, key);
    }
  }

  /** Until retirement, a repeated request for a task that succeeded is answered with the stored response. */
  lemma RepeatedRequestsReplay(steps: seq<NetStep>, lease: int, s: Settings, key: OpKey, now: int)
    requires var n := NetRun(steps, lease, s);
      TaskOf(n.world, key).Some? && TaskOf(n.world, key).value.status == Succeeded && key !in n.retirements
    ensures var n := NetRun(steps, lease, s);
      var t := TaskOf(n.world, key).value;
      t.response.Some? && Journal.ClaimOutcome(n.journal, key, key, now) == Journal.Replay(t.response.value)
  {
    AgreementRunInv(steps, lease, s);
  }

  // ---------------------------------------------------------------- what an operation leaves

  /** The words that count as success of an operation. */
  predicate SuccessWord(op: Operation, word: RemoteStatus) {
    if op == ProvisionClient then word == Provisioned || word == AlreadyExists
    else word == ClientRevoked || word == NotFoundTreatedAsSuccess
  }

  /** The operation of `key` ends; where a reclaimed provisioning had to clean up first, that went well. */
  predicate EndsCleanly(n: Net, step: NetStep, key: OpKey) {
    && step.OperationEnds? && step.token in n.handlers && n.handlers[step.token].key == key
    && (key.task.op == ProvisionClient && n.handlers[step.token].reclaimed ==>
          step.cleanup.Some? && SuccessWord(RevokeClient, step.cleanup.value))
  }

  /** It delivered `r`, a success. */
  predicate EndsInSuccess(n: Net, step: NetStep, key: OpKey, r: Response) {
    EndsCleanly(n, step, key) && step.result == Some(r) && SuccessWord(key.task.op, r.status)
  }

  /** Its owner still has the row of the key. */
  predicate OwnerEnds(n: Net, step: NetStep, key: OpKey) {
    && step.OperationEnds? && step.token in n.handlers && n.handlers[step.token].key == key
    && key in n.journal && n.journal[key].state.Working? && n.journal[key].state.owner == step.token
  }

  lemma StepLeaves(n: Net, step: NetStep, lease: int, s: Settings, key: OpKey, r: Response)
    requires forall k :: k in n.journal ==> n.journal[k].identity == k
    ensures var n' := Next(n, step, lease, s);
      && (key in n'.journal && n'.journal[key].state == Journal.Done(r) && !(key in n.journal && n.journal[key].state == Journal.Done(r))
          <==> OwnerEnds(n, step, key) && EndsInSuccess(n, step, key, r))
      && (key in n'.journal && n'.journal[key].state == Journal.Retryable
          && !(key in n.journal && n.journal[key].state == Journal.Retryable)
          <==> OwnerEnds(n, step, key) && !(EndsCleanly(n, step, key) && step.result.Some?
                                            && SuccessWord(key.task.op, step.result.value.status)))
      && (Answer(key, r) in n'.answers && Answer(key, r) !in n.answers
          <==> Answer(key, r) !in n.answers
               && (|| (EndsCleanly(n, step, key) && step.result == Some(r)
                       && (SuccessWord(key.task.op, r.status) ==> OwnerEnds(n, step, key)))
                   || (step.RequestArrives? && step.key == key && key in n.requests && step.token !in n.handlers
                       && key in n.journal && n.journal[key].state == Journal.Done(r))))
  {
    hide ControlPlane.Apply, Retirable;
  }

  /**
   In every run, the row of a key becomes completed with `r` exactly when its owner ends the operation
   with the success `r`, and retryable exactly when its owner ends it in any other way; the
   agent answers `r` exactly when an operation that cleaned up delivers it, a success only as
   owner, or when a request finds it completed.
   */
  lemma OperationLeavesExactly(steps: seq<NetStep>, step: NetStep, lease: int, s: Settings, key: OpKey, r: Response)
    ensures var n, n' := NetRun(steps, lease, s), NetRun(steps + [step], lease, s);
      && (Journaled(n', key, r) && !Journaled(n, key, r) <==> OwnerEnds(n, step, key) && EndsInSuccess(n, step, key, r))
      && (key in n'.journal && n'.journal[key].state == Journal.Retryable
          && !(key in n.journal && n.journal[key].state == Journal.Retryable)
          <==> OwnerEnds(n, step, key) && !(EndsCleanly(n, step, key) && step.result.Some?
                                            && SuccessWord(key.task.op, step.result.value.status)))
      && (Answer(key, r) in n'.answers && Answer(key, r) !in n.answers
          <==> Answer(key, r) !in n.answers
               && (|| (EndsCleanly(n, step, key) && step.result == Some(r)
                       && (SuccessWord(key.task.op, r.status) ==> OwnerEnds(n, step, key)))
                   || (step.RequestArrives? && step.key == key && key in n.requests && step.token !in n.handlers
                       && Journaled(n, key, r))))
  {
    AgreementRunInv(steps, lease, s);
    assert (steps + [step])[..|steps|] == steps;
    var n := NetRun(steps, lease, s);
    assert NetRun(steps + [step], lease, s) == Next(n, step, lease, s);
    hide NetRun, Inv, Next, EndsCleanly, OwnerEnds, EndsInSuccess, AnswersJournaled, TasksJournaled;
    StepLeaves(n, step, lease, s, key, r);
  }

  // ---------------------------------------------------------------- how often an operation runs

  /** Step `q` delivers a request for `key` to its agent, as first or as a later copy. */
  ghost predicate Delivers(steps: seq<NetStep>, q: int, key: OpKey, lease: int, s: Settings) {
    && 0 <= q < |steps| && steps[q].RequestArrives? && steps[q].key == key
    && (var n := NetRun(steps[..q], lease, s); key in n.requests && steps[q].token !in n.handlers)
  }

  /** Step `q` starts the operation of `key`. */
  ghost predicate Starts(steps: seq<NetStep>, q: int, key: OpKey, lease: int, s: Settings) {
    && Delivers(steps, q, key, lease, s)
    && Journal.ClaimOutcome(NetRun(steps[..q], lease, s).journal, key, key, steps[q].now).Owner?
  }

  /** Step `m` delivers the retirement of `key`. */
  ghost predicate Retires(steps: seq<NetStep>, m: int, key: OpKey, lease: int, s: Settings) {
    0 <= m < |steps| && steps[m] == RetirementArrives(key) && key in NetRun(steps[..m], lease, s).retirements
  }

  /** The journal holds a completed operation for `key` after `p` steps. */
  ghost predicate CompletedAt(steps: seq<NetStep>, p: int, key: OpKey, lease: int, s: Settings) {
    && 0 <= p <= |steps|
    && (var n := NetRun(steps[..p], lease, s); key in n.journal && n.journal[key].state.Done?)
  }

  ghost predicate RunsAgain(steps: seq<NetStep>, p: int, key: OpKey, lease: int, s: Settings) {
    exists q :: p <= q && Starts(steps, q, key, lease, s)
  }

  ghost predicate RetiredBetween(steps: seq<NetStep>, p: int, q: int, key: OpKey, lease: int, s: Settings) {
    exists m :: p <= m < q && Retires(steps, m, key, lease, s)
  }

  lemma NetPrefix(steps: seq<NetStep>, q: int, lease: int, s: Settings)
    requires 0 <= q < |steps|
    ensures NetRun(steps[..q + 1], lease, s) == Next(NetRun(steps[..q], lease, s), steps[q], lease, s)
  {
    assert steps[..q + 1][..q] == steps[..q];
  }

  /** What one step does to the row of `key`, if it does not start the operation. */
  lemma RowStep(n: Net, step: NetStep, key: OpKey, lease: int, s: Settings)
    requires !(step.RequestArrives? && step.key == key && key in n.requests && step.token !in n.handlers
               && Journal.ClaimOutcome(n.journal, key, key, step.now).Owner?)
    ensures var rows := Next(n, step, lease, s).journal;
      && (key !in n.journal ==> key !in rows)
      && (key in n.journal && n.journal[key].state.Done? ==>
            if step == RetirementArrives(key) && key in n.retirements then key !in rows
            else key in rows && rows[key].state.Done?)
  {
    hide ControlPlane.Apply, RuntimeOutcome, Retirable;
  }

  /** A row stays completed until its retirement, and then absent until the operation starts. */
  lemma {:induction false} RowSince(steps: seq<NetStep>, p: int, q: int, key: OpKey, lease: int, s: Settings)
    requires CompletedAt(steps, p, key, lease, s) && p <= q <= |steps|
    requires forall r :: p <= r < q ==> !Starts(steps, r, key, lease, s)
    ensures var rows := NetRun(steps[..q], lease, s).journal;
      if RetiredBetween(steps, p, q, key, lease, s) then key !in rows else key in rows && rows[key].state.Done?
    decreases q
  {
    hide NetRun, Next, Journal.ClaimOutcome;
    if q > p {
      RowSince(steps, p, q - 1, key, lease, s);
      NetPrefix(steps, q - 1, lease, s);
      assert !Starts(steps, q - 1, key, lease, s);
      RowStep(NetRun(steps[..q - 1], lease, s), steps[q - 1], key, lease, s);
      if RetiredBetween(steps, p, q - 1, key, lease, s) {
        var m :| p <= m < q - 1 && Retires(steps, m, key, lease, s);
        assert RetiredBetween(steps, p, q, key, lease, s);
      } else if Retires(steps, q - 1, key, lease, s) {
        assert RetiredBetween(steps, p, q, key, lease, s);
      }
    }
  }

  /** Retirement is requested for good. */
  lemma {:induction false} RetirementsStay(steps: seq<NetStep>, m: int, q: int, key: OpKey, lease: int, s: Settings)
    requires 0 <= m <= q <= |steps| && key in NetRun(steps[..m], lease, s).retirements
    ensures key in NetRun(steps[..q], lease, s).retirements
    decreases q
  {
    hide NetRun, ControlPlane.Apply, RuntimeOutcome, Retirable, Journal.ClaimOutcome;
    if m < q {
      RetirementsStay(steps, m, q - 1, key, lease, s);
      NetPrefix(steps, q - 1, lease, s);
    }
  }

  /**
   A completed operation runs again if and only if its retirement is delivered and a copy of its
   request after that. Its task is finished by then.
   */
  lemma RunsAgainExactlyWhen(steps: seq<NetStep>, p: int, key: OpKey, lease: int, s: Settings)
    requires CompletedAt(steps, p, key, lease, s)
    ensures RunsAgain(steps, p, key, lease, s) <==>
      exists q :: Delivers(steps, q, key, lease, s) && RetiredBetween(steps, p, q, key, lease, s)
    ensures forall q :: p <= q && Starts(steps, q, key, lease, s) ==> Retirable(NetRun(steps[..q], lease, s).world, key)
  {
    forall q | p <= q && Starts(steps, q, key, lease, s)
      ensures RetiredBetween(steps, p, q, key, lease, s) && Retirable(NetRun(steps[..q], lease, s).world, key)
    {
      var r := FirstStart(steps, p, q, key, lease, s);
      RowSince(steps, p, r, key, lease, s);
      var m :| p <= m < r && Retires(steps, m, key, lease, s);
      RetirementsStay(steps, m, q, key, lease, s);
      AgreementRunInv(steps[..q], lease, s);
      hide NetRun, Inv;
    }
    forall q | Delivers(steps, q, key, lease, s) && RetiredBetween(steps, p, q, key, lease, s)
      ensures RunsAgain(steps, p, key, lease, s)
    {
      if forall r :: p <= r < q ==> !Starts(steps, r, key, lease, s) {
        RowSince(steps, p, q, key, lease, s);
        assert Starts(steps, q, key, lease, s);
      }
    }
  }

  lemma {:induction false} FirstStart(steps: seq<NetStep>, p: int, q: int, key: OpKey, lease: int, s: Settings) returns (r: int)
    requires p <= q && Starts(steps, q, key, lease, s)
    ensures p <= r <= q && Starts(steps, r, key, lease, s)
    ensures forall j :: p <= j < r ==> !Starts(steps, j, key, lease, s)
    decreases q - p
  {
    hide Starts;
    r := q;
    if j :| p <= j < q && Starts(steps, j, key, lease, s) {
      r := FirstStart(steps, p, j, key, lease, s);
    }
  }
}
