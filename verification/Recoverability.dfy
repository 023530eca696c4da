/**
 No reachable store is a dead end. From each one, and from every instant on, the code's own
 transactions can bring it to a quiescent store without anomalies: first every outstanding lease is
 recovered, then, once every retry is due, workers and the reconciler's jobs do the rest.

 The continuation takes only steps the code could take. Its clock never runs backwards, every lease
 draws a token that was never drawn before, a prepare reads the node's own health row, a finalization
 comes from the holder of the lease, jobs are those of anomalies listed at that moment, and a
 provisioning job chooses among the store's own candidates. The environment contributes two things:
 remote calls succeed, and operators keep the nodes up, with their credentials, and add one node with
 room.
 */
module Recoverability {
  import opened Common
  import opened VpnEntity
  import opened NodeTaskEntity
  import opened PanelTaskEntity
  import opened NodeSelection
  import opened Transactions
  import opened Lifecycle
  import opened ControlPlane
  import opened ControlPlaneSafety
  import opened Convergence

  // ---------------------------------------------------------------- steps the code could take

  /** The lease token a step draws. */
  function TokenOf(step: Step): Option<int> {
    if !step.WorkerCommits? then None
    else
      match step.work
      case NodePrepares(_, token, _, _) => Some(token)
      case PanelPrepares(token) => Some(token)
      case PanelRevokePrepares(_, token) => Some(token)
      case _ => None
  }

  /** The health row of a configuration's node, as the store holds it. */
  function OwnNode(w: World, i: int): Option<NodeState>
    requires 0 <= i < |w.configs|
  {
    var m := w.configs[i].node;
    if m.Some? && m.value in w.fleet.nodes then
      var row := w.fleet.nodes[m.value];
      Some(NodeState(row.health, row.enabled, row.lastChecked))
    else None
  }

  predicate IsCandidate(w: World, c: Candidate) {
    CandidateRow(w, c.node, c.endpoint) == Some(c)
  }

  /** The snapshot is the store's own candidate list. */
  ghost predicate OwnSnapshot(w: World, snapshot: seq<Candidate>) {
    forall c :: c in snapshot <==> IsCandidate(w, c)
  }

  /** The reconciler's expiry of all subscriptions without a current funded period. */
  function Expired(subs: map<int, Entitlement>, at: int): map<int, Entitlement> {
    map sub | sub in subs :: subs[sub].(active := subs[sub].active && Funded(subs[sub], at))
  }

  /** Nodes and endpoints stay, endpoints as they are. */
  ghost predicate FleetGrows(f: Fleet, g: Fleet) {
    && f.nodes.Keys <= g.nodes.Keys && f.endpoints.Keys <= g.endpoints.Keys
    && (forall e :: e in f.endpoints ==> g.endpoints[e] == f.endpoints[e])
  }

  ghost predicate HonestWork(w: World, i: int, work: Work, at: int)
    requires 0 <= i < |w.configs|
  {
    var c := w.configs[i];
    match work
    case NodePrepares(_, _, node, _) => node == OwnNode(w, i)
    case NodeFinalizes(k, token, n, _) => k in c.nodeTasks && OwnsActiveLease(c.nodeTasks[k].task, token, at, n)
    case PanelSucceeds(token, n) =>
      c.panelTask.Some? && PanelOwnsLease(c.panelTask.value, token, n) && !c.panelTask.value.compensation
    case PanelCompensates(token, n) =>
      c.panelTask.Some? && PanelOwnsLease(c.panelTask.value, token, n) && c.panelTask.value.compensation
    case PanelRevokeSucceeds(g, token, n) => g in c.panelRevokes && PanelOwnsLease(c.panelRevokes[g], token, n)
    case _ => true
  }

  /** The step is one the code could take in this store at this clock reading. */
  ghost predicate HonestAt(w: World, step: Step, at: int) {
    match step
    case RequestProvision(sub, now, snapshot, _, _) =>
      now == at && OwnSnapshot(w, snapshot) && ProvisionSubscription(w, sub, at)
    case RequestRevoke(i, reason, now) =>
      && now == at && 0 <= i < |w.configs|
      && (match reason
          case Expiration => RevokeVpn(w, i, at)
          case ReplacementCleanup => CleanupVpn(w, i, at)
          case Force => RepairRevoke(w, i))
    case WorkerCommits(i, work, now) => now == at && 0 <= i < |w.configs| && HonestWork(w, i, work, at)
    case EntitlementsChange(subs) => subs == Expired(w.subs, at)
    case FleetChange(fleet) => FleetGrows(w.fleet, fleet)
  }

  /** No earlier step drew token `token`. */
  ghost predicate Undrawn(steps: seq<Step>, token: int) {
    forall m :: 0 <= m < |steps| ==> TokenOf(steps[m]) != Some(token)
  }

  ghost predicate FreshToken(steps: seq<Step>, step: Step) {
    TokenOf(step).Some? ==> Undrawn(steps, TokenOf(step).value)
  }

  /** `b` continues the run `a` by honest steps, all at clock reading `at`. */
  ghost predicate HonestTail(a: seq<Step>, b: seq<Step>, at: int, s: Settings) {
    && a <= b
    && (forall n :: |a| <= n < |b| ==> HonestAt(Run(b[..n], s), b[n], at) && FreshToken(b[..n], b[n]))
  }

  lemma HonestRefl(a: seq<Step>, at: int, s: Settings)
    ensures HonestTail(a, a, at, s)
  {
  }

  lemma HonestSnoc(a: seq<Step>, step: Step, at: int, s: Settings)
    requires HonestAt(Run(a, s), step, at) && FreshToken(a, step)
    ensures HonestTail(a, a + [step], at, s) && Run(a + [step], s) == Apply(Run(a, s), step, s)
  {
    hide HonestAt, FreshToken, Apply;
    var b := a + [step];
    assert b[..|a|] == a;
    assert Run(b, s) == Apply(Run(a, s), step, s);
    hide Run;
    forall n | |a| <= n < |b| ensures HonestAt(Run(b[..n], s), b[n], at) && FreshToken(b[..n], b[n]) {
      assert n == |a|;
    }
  }

  lemma HonestTrans(a: seq<Step>, b: seq<Step>, c: seq<Step>, at: int, s: Settings)
    requires HonestTail(a, b, at, s) && HonestTail(b, c, at, s)
    ensures HonestTail(a, c, at, s)
  {
    hide Run, HonestAt, FreshToken;
    forall n | |a| <= n < |c| ensures HonestAt(Run(c[..n], s), c[n], at) && FreshToken(c[..n], c[n]) {
      if n < |b| { assert b[..n] == c[..n] && b[n] == c[n]; }
    }
  }

  lemma {:induction false} Above(values: set<int>) returns (e: int)
    ensures forall k :: k in values ==> k < e
  {
    e := 0;
    if k :| k in values {
      var rest := Above(values - {k});
      e := Max(rest, k + 1);
      forall j | j in values ensures j < e { assert j == k || j in values - {k}; }
    }
  }

  lemma NewToken(steps: seq<Step>) returns (token: int)
    ensures Undrawn(steps, token)
  {
    var drawn := set m | 0 <= m < |steps| && TokenOf(steps[m]).Some? :: TokenOf(steps[m]).value;
    token := Above(drawn);
    forall m | 0 <= m < |steps| ensures TokenOf(steps[m]) != Some(token) {
      if TokenOf(steps[m]).Some? { assert TokenOf(steps[m]).value in drawn; }
    }
  }

  // ---------------------------------------------------------------- steps on one configuration

  /** Only configuration `i` differs. */
  ghost predicate Touches(w: World, w': World, i: int) {
    && w'.subs == w.subs && w'.fleet == w.fleet && |w'.configs| == |w.configs| && 0 <= i < |w.configs|
    && (forall j :: 0 <= j < |w.configs| && j != i ==> w'.configs[j] == w.configs[j])
    && w'.configs[i].subscription == w.configs[i].subscription && w'.configs[i].node == w.configs[i].node
  }

  /** `b` continues `a` by honest steps at `at` that touch configuration `i` only. */
  ghost predicate Leads(a: seq<Step>, b: seq<Step>, i: int, at: int, s: Settings) {
    HonestTail(a, b, at, s) && Touches(Run(a, s), Run(b, s), i)
  }

  lemma LeadsRefl(a: seq<Step>, i: int, at: int, s: Settings)
    requires 0 <= i < |Run(a, s).configs|
    ensures Leads(a, a, i, at, s)
  {
    HonestRefl(a, at, s);
    hide Run;
  }

  lemma LeadsTrans(a: seq<Step>, b: seq<Step>, c: seq<Step>, i: int, at: int, s: Settings)
    requires Leads(a, b, i, at, s) && Leads(b, c, i, at, s)
    ensures Leads(a, c, i, at, s)
  {
    hide Run, HonestTail;
    HonestTrans(a, b, c, at, s);
  }

  /** One more transaction of a worker on configuration `i`. */
  lemma Commit(a: seq<Step>, i: int, work: Work, at: int, s: Settings) returns (b: seq<Step>)
    requires 0 <= i < |Run(a, s).configs| && HonestWork(Run(a, s), i, work, at)
    requires FreshToken(a, WorkerCommits(i, work, at))
    ensures Leads(a, b, i, at, s)
    ensures var w := Run(a, s);
      Run(b, s).configs[i] == Perform(w.configs[i], work, at, SubFunded(w, w.configs[i].subscription, at), s)
  {
    hide Run, HonestTail, FreshToken;
    var step := WorkerCommits(i, work, at);
    b := a + [step];
    var w := Run(a, s);
    assert HonestAt(w, step, at);
    HonestSnoc(a, step, at, s);
    WorkKeepsIdentity(w.configs[i], work, at, SubFunded(w, w.configs[i].subscription, at), s);
    hide Perform, SubFunded, HonestWork;
  }

  /** One more revoke job on configuration `i`. */
  lemma Request(a: seq<Step>, i: int, reason: RevokeReason, at: int, s: Settings) returns (b: seq<Step>)
    requires 0 <= i < |Run(a, s).configs| && HonestAt(Run(a, s), RequestRevoke(i, reason, at), at)
    ensures Leads(a, b, i, at, s) && Run(b, s).configs[i] == RevokePlan(Run(a, s).configs[i], at, s)
  {
    hide Run, HonestTail;
    InvOf(a, s, i);
    var step := RequestRevoke(i, reason, at);
    b := a + [step];
    var w := Run(a, s);
    HonestSnoc(a, step, at, s);
    RequestGranted(w, i, reason, at, s);
    RevokePlanKeepsIdentity(w.configs[i], at, s);
    hide RevokePlan, RevokeVpn, CleanupVpn, RepairRevoke, ConfigInv;
  }

  lemma InvOf(a: seq<Step>, s: Settings, i: int)
    requires 0 <= i < |Run(a, s).configs|
    ensures var c := Run(a, s).configs[i];
      ConfigInv(c) && c.subscription in Run(a, s).subs && (if c.node.Some? then NodeInv(c) else PanelInv(c))
  {
    RunInv(a, s);
  }

  // ---------------------------------------------------------------- time

  /** Lease and retry times of every task are no later than `t`. */
  ghost predicate Within(c: Config, t: int) {
    && (forall k :: k in c.nodeTasks ==> TaskWithin(c.nodeTasks[k].task, t))
    && (c.panelTask.Some? ==> PanelWithin(c.panelTask.value, t))
    && (forall g :: g in c.panelRevokes ==> PanelWithin(c.panelRevokes[g], t))
  }

  predicate TaskWithin(r: NodeTaskRow, t: int) {
    (r.leaseExpiresAt.Some? ==> r.leaseExpiresAt.value <= t) && (r.nextRetryAt.Some? ==> r.nextRetryAt.value <= t)
  }

  predicate PanelWithin(r: PanelRow, t: int) {
    (r.leaseExpiresAt.Some? ==> r.leaseExpiresAt.value <= t) && (r.nextRetryAt.Some? ==> r.nextRetryAt.value <= t)
  }

  function TimeOf(lease: Option<int>, retry: Option<int>): int {
    Max(if lease.Some? then lease.value else 0, if retry.Some? then retry.value else 0)
  }

  lemma ConfigBound(c: Config) returns (t: int)
    ensures Within(c, t)
  {
    var nodes := set k | k in c.nodeTasks :: TimeOf(c.nodeTasks[k].task.leaseExpiresAt, c.nodeTasks[k].task.nextRetryAt);
    var revokes := set g | g in c.panelRevokes :: TimeOf(c.panelRevokes[g].leaseExpiresAt, c.panelRevokes[g].nextRetryAt);
    var a := Above(nodes);
    var b := Above(revokes);
    t := Max(a, b);
    if c.panelTask.Some? { t := Max(t, TimeOf(c.panelTask.value.leaseExpiresAt, c.panelTask.value.nextRetryAt)); }
    forall k | k in c.nodeTasks ensures TaskWithin(c.nodeTasks[k].task, t) {
      assert TimeOf(c.nodeTasks[k].task.leaseExpiresAt, c.nodeTasks[k].task.nextRetryAt) in nodes;
    }
    forall g | g in c.panelRevokes ensures PanelWithin(c.panelRevokes[g], t) {
      assert TimeOf(c.panelRevokes[g].leaseExpiresAt, c.panelRevokes[g].nextRetryAt) in revokes;
    }
  }

  lemma WithinLater(c: Config, t: int, u: int)
    requires Within(c, t) && t <= u
    ensures Within(c, u)
  {
  }

  /** Some instant from `t` on is later than every time in the store. */
  lemma {:induction false} StoreBound(configs: seq<Config>, t: int) returns (u: int)
    ensures t <= u && forall i :: 0 <= i < |configs| ==> Within(configs[i], u)
  {
    hide Within;
    u := t;
    if configs != [] {
      var n := |configs| - 1;
      var v := StoreBound(configs[..n], t);
      var last := ConfigBound(configs[n]);
      u := Max(v, last);
      forall i | 0 <= i < |configs| ensures Within(configs[i], u) {
        if i < n { assert configs[..n][i] == configs[i]; WithinLater(configs[i], v, u); } else { WithinLater(configs[i], last, u); }
      }
    }
  }

  // ---------------------------------------------------------------- every lease is recovered

  /** No task is in progress. */
  ghost predicate Idle(c: Config) {
    && (forall k :: k in c.nodeTasks ==> c.nodeTasks[k].task.status != InProgress)
    && (c.panelTask.Some? ==> c.panelTask.value.status != InProgress)
    && (forall g :: g in c.panelRevokes ==> c.panelRevokes[g].status != InProgress)
  }

  /** Only the provision task and the current revoke task of a node-backed configuration can be open. */
  lemma OpenNodeTasks(c: Config, k: TaskKey)
    requires NodeInv(c) && k in c.nodeTasks && IsOpen(c.nodeTasks[k].task.status)
    ensures k == TaskKey(ProvisionClient, 1) || k == TaskKey(RevokeClient, c.vpn.generation)
  {
    assert KnownKey(c, k);
  }

  lemma RecoverySettles(c: Config, k: TaskKey, t: int, s: Settings)
    requires k in c.nodeTasks && LeaseExpired(c.nodeTasks[k].task, t)
    ensures var c' := NodeRecover(c, k, t, s);
      && c'.nodeTasks.Keys == c.nodeTasks.Keys && c'.nodeTasks[k].task.status != InProgress
      && (forall j :: j in c.nodeTasks && j != k ==> c'.nodeTasks[j] == c.nodeTasks[j])
      && c'.vpn.generation == c.vpn.generation
  {
  }

  /** After task `k` was looked at, it is not in progress, and the other tasks are as they were. */
  ghost predicate NodeRecovered(c: Config, c': Config, k: TaskKey) {
    && c'.nodeTasks.Keys == c.nodeTasks.Keys && c'.vpn.generation == c.vpn.generation
    && (k in c.nodeTasks ==> c'.nodeTasks[k].task.status != InProgress)
    && (forall j :: j in c.nodeTasks && j != k ==> c'.nodeTasks[j] == c.nodeTasks[j])
  }

  lemma RecoverNodeTask(a: seq<Step>, i: int, k: TaskKey, at: int, s: Settings) returns (b: seq<Step>)
    requires 0 <= i < |Run(a, s).configs| && Run(a, s).configs[i].node.Some?
    requires k in Run(a, s).configs[i].nodeTasks ==> TaskWithin(Run(a, s).configs[i].nodeTasks[k].task, at)
    ensures Leads(a, b, i, at, s) && NodeRecovered(Run(a, s).configs[i], Run(b, s).configs[i], k)
  {
    hide Run, Leads;
    var c := Run(a, s).configs[i];
    InvOf(a, s, i);
    LeadsRefl(a, i, at, s);
    b := a;
    if k in c.nodeTasks && c.nodeTasks[k].task.status == InProgress {
      assert LedgerOk(k.op, c.nodeTasks[k]);
      RecoverySettles(c, k, at, s);
      hide ConfigInv, NodeInv, NodeRecover, SubFunded;
      b := Commit(a, i, NodeRecovers(k), at, s);
    }
  }

  lemma RecoverNodeConfig(a: seq<Step>, i: int, at: int, s: Settings) returns (b: seq<Step>)
    requires 0 <= i < |Run(a, s).configs| && Run(a, s).configs[i].node.Some? && Within(Run(a, s).configs[i], at)
    ensures Leads(a, b, i, at, s) && Idle(Run(b, s).configs[i])
  {
    hide Run, HonestTail;
    var c := Run(a, s).configs[i];
    var p, r := TaskKey(ProvisionClient, 1), TaskKey(RevokeClient, c.vpn.generation);
    var a1 := RecoverNodeTask(a, i, p, at, s);
    b := RecoverNodeTask(a1, i, r, at, s);
    LeadsTrans(a, a1, b, i, at, s);
    InvOf(b, s, i);
    var c' := Run(b, s).configs[i];
    forall k | k in c'.nodeTasks ensures c'.nodeTasks[k].task.status != InProgress {
      if c'.nodeTasks[k].task.status == InProgress { OpenNodeTasks(c', k); }
    }
  }

  lemma RecoverPanelConfig(a: seq<Step>, i: int, at: int, s: Settings) returns (b: seq<Step>)
    requires 0 <= i < |Run(a, s).configs| && Run(a, s).configs[i].node.None? && Within(Run(a, s).configs[i], at)
    ensures Leads(a, b, i, at, s) && Idle(Run(b, s).configs[i])
  {
    hide Run, HonestTail;
    var c := Run(a, s).configs[i];
    InvOf(a, s, i);
    LeadsRefl(a, i, at, s);
    var a1 := a;
    if c.panelTask.value.status == InProgress {
      a1 := Commit(a, i, PanelRecovers, at, s);
    }
    var c1 := Run(a1, s).configs[i];
    assert c1.panelTask.Some? && c1.panelTask.value.status != InProgress && c1.panelRevokes == c.panelRevokes;
    assert c1.vpn == c.vpn;
    b := RecoverPanelRevokes(a1, i, at, s);
    LeadsTrans(a, a1, b, i, at, s);
  }

  lemma RecoverPanelRevokes(a: seq<Step>, i: int, at: int, s: Settings) returns (b: seq<Step>)
    requires 0 <= i < |Run(a, s).configs| && Run(a, s).configs[i].node.None?
    requires var c := Run(a, s).configs[i];
      && (c.panelTask.Some? ==> c.panelTask.value.status != InProgress)
      && (forall g :: g in c.panelRevokes ==> PanelWithin(c.panelRevokes[g], at))
    ensures Leads(a, b, i, at, s) && Idle(Run(b, s).configs[i])
  {
    hide Run, HonestTail;
    var c := Run(a, s).configs[i];
    InvOf(a, s, i);
    LeadsRefl(a, i, at, s);
    b := a;
    var g := c.vpn.generation;
    if g in c.panelRevokes && c.panelRevokes[g].status == InProgress {
      assert PanelRevokeOk(c, g, c.panelRevokes[g]);
      b := Commit(a, i, PanelRevokeRecovers(g), at, s);
    }
    var c' := Run(b, s).configs[i];
    forall h | h in c'.panelRevokes ensures c'.panelRevokes[h].status != InProgress {
      assert PanelRevokeOk(c, h, c.panelRevokes[h]);
    }
  }

  /** Every lease of the first `n` configurations can be recovered. */
  lemma {:induction false} RecoverFirst(a: seq<Step>, n: nat, at: int, s: Settings) returns (b: seq<Step>)
    requires n <= |Run(a, s).configs| && forall i :: 0 <= i < |Run(a, s).configs| ==> Within(Run(a, s).configs[i], at)
    ensures HonestTail(a, b, at, s)
    ensures var w, w' := Run(a, s), Run(b, s);
      && w'.subs == w.subs && w'.fleet == w.fleet && |w'.configs| == |w.configs|
      && (forall i :: 0 <= i < n ==> Idle(w'.configs[i]))
      && (forall i :: n <= i < |w.configs| ==> w'.configs[i] == w.configs[i])
    decreases n
  {
    hide Run, Idle, Within, HonestTail;
    if n == 0 {
      b := a;
      HonestRefl(a, at, s);
    } else {
      var a1 := RecoverFirst(a, n - 1, at, s);
      var i := n - 1;
      if Run(a1, s).configs[i].node.Some? { b := RecoverNodeConfig(a1, i, at, s); } else { b := RecoverPanelConfig(a1, i, at, s); }
      HonestTrans(a, a1, b, at, s);
    }
  }

  // ---------------------------------------------------------------- every task is finished

  /** Every open task is pending and due. */
  ghost predicate Ready(c: Config, now: int) {
    && (forall k :: k in c.nodeTasks && IsOpen(c.nodeTasks[k].task.status) ==> CanDispatch(c.nodeTasks[k].task, now))
    && (c.panelTask.Some? && IsOpen(c.panelTask.value.status) ==> PanelCanDispatch(c.panelTask.value, now))
    && (forall g :: g in c.panelRevokes && IsOpen(c.panelRevokes[g].status) ==> PanelCanDispatch(c.panelRevokes[g], now))
  }

  lemma IdleIsReady(c: Config, now: int)
    requires Idle(c) && Within(c, now)
    ensures Ready(c, now)
  {
  }

  /** The configuration's node, if it has one, is up and was checked at this instant. */
  ghost predicate NodeUp(w: World, i: int, now: int)
    requires 0 <= i < |w.configs|
  {
    w.configs[i].node.Some? ==> OwnNode(w, i) == Some(NodeState(Online, true, Some(now)))
  }

  function SuccessOf(op: Operation): Response {
    Response(if op == ProvisionClient then Provisioned else ClientRevoked, None, "")
  }

  /** The task rows other than `k` are as before, or new and due. */
  ghost predicate OthersDue(c: Config, c': Config, k: TaskKey, now: int) {
    forall j :: j in c'.nodeTasks && j != k ==>
      if j in c.nodeTasks then c'.nodeTasks[j] == c.nodeTasks[j] else CanDispatch(c'.nodeTasks[j].task, now)
  }

  lemma DispatchDue(c: Config, k: TaskKey, token: int, now: int, s: Settings)
    requires NodeInv(c) && k in c.nodeTasks && CanDispatch(c.nodeTasks[k].task, now)
    ensures var c1 := NodePrepare(c, k, now, token, Some(NodeState(Online, true, Some(now))), true, s);
      && c1 == c.(nodeTasks := c1.nodeTasks) && k in c1.nodeTasks && c1.nodeTasks.Keys == c.nodeTasks.Keys
      && OwnsActiveLease(c1.nodeTasks[k].task, token, now, c.nodeTasks[k].task.attempts + 1)
      && (forall j :: j in c.nodeTasks && j != k ==> c1.nodeTasks[j] == c.nodeTasks[j])
  {
    assert LedgerOk(k.op, c.nodeTasks[k]);
    hide NodeInv;
  }

  lemma AnswerSucceeds(c: Config, k: TaskKey, token: int, n: int, now: int, funded: bool, s: Settings)
    requires k in c.nodeTasks && OwnsActiveLease(c.nodeTasks[k].task, token, now, n)
    ensures var c' := NodeFinalize(c, k, now, token, n, Answered(Some(SuccessOf(k.op))), funded, s);
      && k in c'.nodeTasks && c'.nodeTasks[k].task.status == Succeeded && OthersDue(c, c', k, now)
      && (k.op == RevokeClient ==> c'.vpn.generation == c.vpn.generation && c'.nodeTasks.Keys == c.nodeTasks.Keys)
      && (k.op == RevokeClient && CurrentRevoke(c.vpn, k.generation) ==> c'.vpn.status == Revoked)
      && (k.op == ProvisionClient && CurrentProvision(c.vpn, k.generation) && funded ==>
            c'.vpn.status == Active && c'.nodeTasks.Keys == c.nodeTasks.Keys)
  {
  }

  /** What bringing task `k` to success makes of its configuration. */
  ghost predicate NodeFinished(c: Config, c': Config, k: TaskKey, now: int, funded: bool) {
    && k in c'.nodeTasks && c'.nodeTasks[k].task.status == Succeeded && OthersDue(c, c', k, now)
    && (k.op == RevokeClient ==> c'.vpn.generation == c.vpn.generation && c'.nodeTasks.Keys == c.nodeTasks.Keys)
    && (k.op == RevokeClient && CurrentRevoke(c.vpn, k.generation) ==> c'.vpn.status == Revoked)
    && (k.op == ProvisionClient && CurrentProvision(c.vpn, k.generation) && funded ==>
          c'.vpn.status == Active && c'.nodeTasks.Keys == c.nodeTasks.Keys)
  }

  /** A due node task can be brought to success. */
  lemma SucceedNode(a: seq<Step>, i: int, k: TaskKey, now: int, s: Settings) returns (b: seq<Step>)
    requires 0 <= i < |Run(a, s).configs| && Run(a, s).configs[i].node.Some? && NodeUp(Run(a, s), i, now)
    requires k in Run(a, s).configs[i].nodeTasks && CanDispatch(Run(a, s).configs[i].nodeTasks[k].task, now)
    ensures Leads(a, b, i, now, s)
    ensures var w := Run(a, s);
      NodeFinished(w.configs[i], Run(b, s).configs[i], k, now, SubFunded(w, w.configs[i].subscription, now))
  {
    hide Run, HonestTail;
    var w := Run(a, s);
    var c := w.configs[i];
    InvOf(a, s, i);
    var token := NewToken(a);
    var node := OwnNode(w, i);
    DispatchDue(c, k, token, now, s);
    hide ConfigInv, NodeInv, NodePrepare, NodeFinalize, SubFunded, CanDispatch;
    var a1 := Commit(a, i, NodePrepares(k, token, node, true), now, s);
    var c1 := Run(a1, s).configs[i];
    var n := c.nodeTasks[k].task.attempts + 1;
    var funded := SubFunded(Run(a1, s), c1.subscription, now);
    SameFunded(w, Run(a1, s), c.subscription, now);
    AnswerSucceeds(c1, k, token, n, now, funded, s);
    b := Commit(a1, i, NodeFinalizes(k, token, n, Answered(Some(SuccessOf(k.op)))), now, s);
    LeadsTrans(a, a1, b, i, now, s);
  }

  lemma SameFunded(w: World, w': World, sub: int, now: int)
    requires w'.subs == w.subs
    ensures SubFunded(w', sub, now) == SubFunded(w, sub, now)
  {
  }

  lemma NodeDrained(c: Config)
    requires NodeInv(c)
    requires TaskKey(ProvisionClient, 1) in c.nodeTasks ==> !IsOpen(c.nodeTasks[TaskKey(ProvisionClient, 1)].task.status)
    requires var r := TaskKey(RevokeClient, c.vpn.generation); r in c.nodeTasks ==> !IsOpen(c.nodeTasks[r].task.status)
    ensures NoOpenTask(c)
  {
    forall k | k in c.nodeTasks ensures !IsOpen(c.nodeTasks[k].task.status) {
      if IsOpen(c.nodeTasks[k].task.status) { OpenNodeTasks(c, k); }
    }
  }

  lemma FinishedStaysReady(c: Config, c': Config, k: TaskKey, now: int, funded: bool)
    requires NodeInv(c) && NodeInv(c') && Ready(c, now) && NodeFinished(c, c', k, now, funded)
    ensures Ready(c', now)
  {
  }

  /** The provision task of a ready node configuration can be closed; it stays ready. */
  lemma CloseNodeProvision(a: seq<Step>, i: int, now: int, s: Settings) returns (b: seq<Step>)
    requires 0 <= i < |Run(a, s).configs| && Run(a, s).configs[i].node.Some?
    requires NodeUp(Run(a, s), i, now) && Ready(Run(a, s).configs[i], now)
    ensures Leads(a, b, i, now, s) && Ready(Run(b, s).configs[i], now)
    ensures var p, c := TaskKey(ProvisionClient, 1), Run(b, s).configs[i]; p in c.nodeTasks ==> !IsOpen(c.nodeTasks[p].task.status)
  {
    hide Run, HonestTail;
    var c := Run(a, s).configs[i];
    var p := TaskKey(ProvisionClient, 1);
    LeadsRefl(a, i, now, s);
    b := a;
    if p in c.nodeTasks && IsOpen(c.nodeTasks[p].task.status) {
      b := SucceedNode(a, i, p, now, s);
      InvOf(a, s, i);
      InvOf(b, s, i);
      hide ConfigInv, NodeInv, SubFunded, CanDispatch;
      FinishedStaysReady(c, Run(b, s).configs[i], p, now, SubFunded(Run(a, s), c.subscription, now));
    }
  }

  lemma DrainNode(a: seq<Step>, i: int, now: int, s: Settings) returns (b: seq<Step>)
    requires 0 <= i < |Run(a, s).configs| && Run(a, s).configs[i].node.Some?
    requires NodeUp(Run(a, s), i, now) && Ready(Run(a, s).configs[i], now)
    ensures Leads(a, b, i, now, s) && NoOpenTask(Run(b, s).configs[i])
  {
    hide Run, HonestTail;
    var a1 := CloseNodeProvision(a, i, now, s);
    var c := Run(a1, s).configs[i];
    var p, r := TaskKey(ProvisionClient, 1), TaskKey(RevokeClient, c.vpn.generation);
    b := a1;
    if r in c.nodeTasks && IsOpen(c.nodeTasks[r].task.status) {
      b := SucceedNode(a1, i, r, now, s);
      LeadsTrans(a, a1, b, i, now, s);
    }
    InvOf(b, s, i);
    hide ConfigInv, NodeInv, SubFunded, CanDispatch, NoOpenTask;
    NodeDrained(Run(b, s).configs[i]);
  }

  // ---------------------------------------------------------------- panel tasks

  /** A flagged provision task compensates: afterwards it is closed, or due again without the flag. */
  lemma CompensateOnce(c: Config, token: int, now: int, s: Settings)
    requires c.panelTask.Some? && PanelCanDispatch(c.panelTask.value, now)
    ensures var c1 := PanelPrepare(c, now, token, s);
      var n := c.panelTask.value.attempts + 1;
      var c2 := PanelCompensated(c1, now, token, n);
      && c1.panelTask.Some? && PanelOwnsLease(c1.panelTask.value, token, n)
      && c1.panelTask.value.compensation == c.panelTask.value.compensation
      && c2.panelTask.Some? && c2.panelTask.value.status != InProgress
      && (c2.panelTask.value.status == Pending ==> !c2.panelTask.value.compensation && PanelCanDispatch(c2.panelTask.value, now))
      && c2.panelRevokes == c.panelRevokes
  {
  }

  /** An unflagged provision task is answered: it succeeds, or the success is compensated because it may not stand. */
  lemma ProvisionOnce(c: Config, token: int, now: int, funded: bool, s: Settings)
    requires PanelInv(c) && PanelCanDispatch(c.panelTask.value, now) && !c.panelTask.value.compensation
    ensures var n := c.panelTask.value.attempts + 1;
      var c1 := PanelPrepare(c, now, token, s);
      var c2 := PanelFinalizeSuccess(c1, now, token, n, funded);
      var c3 := PanelCompensated(c2, now, token, n);
      && c1.panelTask.Some? && PanelOwnsLease(c1.panelTask.value, token, n) && !c1.panelTask.value.compensation
      && c2.panelTask.Some? && c2.panelRevokes == c.panelRevokes && c3.panelRevokes == c.panelRevokes
      && (c2.panelTask.value.status == Succeeded
          || (PanelOwnsLease(c2.panelTask.value, token, n) && c2.panelTask.value.compensation
              && c3.panelTask.Some? && c3.panelTask.value.status == Cancelled))
  {
    hide PanelRevokeOk;
  }

  /** The provision task is closed, and the revoke tasks are as they were. */
  ghost predicate ProvisionClosed(c: Config, c': Config) {
    c'.panelTask.Some? && !IsOpen(c'.panelTask.value.status) && c'.panelRevokes == c.panelRevokes
  }

  lemma CloseUnflagged(a: seq<Step>, i: int, now: int, s: Settings) returns (b: seq<Step>)
    requires 0 <= i < |Run(a, s).configs| && Run(a, s).configs[i].node.None? && Run(a, s).configs[i].panelTask.Some?
    requires var t := Run(a, s).configs[i].panelTask.value; PanelCanDispatch(t, now) && !t.compensation
    ensures Leads(a, b, i, now, s) && ProvisionClosed(Run(a, s).configs[i], Run(b, s).configs[i])
  {
    hide Run, HonestTail;
    var w := Run(a, s);
    var c := w.configs[i];
    InvOf(a, s, i);
    var token := NewToken(a);
    var n := c.panelTask.value.attempts + 1;
    var funded := SubFunded(w, c.subscription, now);
    ProvisionOnce(c, token, now, funded, s);
    hide ConfigInv, PanelInv, SubFunded, PanelPrepare, PanelFinalizeSuccess, PanelCompensated;
    var a1 := Commit(a, i, PanelPrepares(token), now, s);
    SameFunded(w, Run(a1, s), c.subscription, now);
    b := Commit(a1, i, PanelSucceeds(token, n), now, s);
    LeadsTrans(a, a1, b, i, now, s);
    if Run(b, s).configs[i].panelTask.value.status != Succeeded {
      var a2 := b;
      b := Commit(a2, i, PanelCompensates(token, n), now, s);
      LeadsTrans(a, a2, b, i, now, s);
    }
  }

  /** The provision task of a ready panel configuration can be closed. */
  lemma ClosePanelProvision(a: seq<Step>, i: int, now: int, s: Settings) returns (b: seq<Step>)
    requires 0 <= i < |Run(a, s).configs| && Run(a, s).configs[i].node.None? && Ready(Run(a, s).configs[i], now)
    ensures Leads(a, b, i, now, s) && ProvisionClosed(Run(a, s).configs[i], Run(b, s).configs[i])
  {
    hide Run, HonestTail;
    var c := Run(a, s).configs[i];
    InvOf(a, s, i);
    LeadsRefl(a, i, now, s);
    b := a;
    assert c.panelTask.Some?;
    if IsOpen(c.panelTask.value.status) && c.panelTask.value.compensation {
      var token := NewToken(a);
      CompensateOnce(c, token, now, s);
      hide PanelPrepare, PanelCompensated;
      var a1 := Commit(a, i, PanelPrepares(token), now, s);
      b := Commit(a1, i, PanelCompensates(token, c.panelTask.value.attempts + 1), now, s);
      LeadsTrans(a, a1, b, i, now, s);
    }
    hide ConfigInv, PanelInv;
    if Run(b, s).configs[i].panelTask.value.status == Pending {
      var a2 := b;
      b := CloseUnflagged(a2, i, now, s);
      LeadsTrans(a, a2, b, i, now, s);
    }
  }

  /** A due revoke task is answered; a current one then completes. */
  lemma RevokeOnce(c: Config, g: int, token: int, now: int, s: Settings)
    requires g in c.panelRevokes && PanelCanDispatch(c.panelRevokes[g], now)
    ensures var n := c.panelRevokes[g].attempts + 1;
      var c1 := PanelRevokePrepare(c, g, now, token, s);
      var c2 := PanelRevokeSuccess(c1, g, now, token, n);
      && g in c1.panelRevokes && PanelOwnsLease(c1.panelRevokes[g], token, n)
      && g in c2.panelRevokes && c2.panelRevokes[g].status == Succeeded && c2.panelTask == c.panelTask
      && c2.vpn.generation == c.vpn.generation && (CurrentRevoke(c.vpn, g) ==> c2.vpn.status == Revoked)
  {
  }

  lemma SucceedRevoke(a: seq<Step>, i: int, g: int, now: int, s: Settings) returns (b: seq<Step>)
    requires 0 <= i < |Run(a, s).configs|
    requires g in Run(a, s).configs[i].panelRevokes && PanelCanDispatch(Run(a, s).configs[i].panelRevokes[g], now)
    ensures Leads(a, b, i, now, s)
    ensures var c, c' := Run(a, s).configs[i], Run(b, s).configs[i];
      && g in c'.panelRevokes && c'.panelRevokes[g].status == Succeeded && c'.panelTask == c.panelTask
      && c'.vpn.generation == c.vpn.generation && (CurrentRevoke(c.vpn, g) ==> c'.vpn.status == Revoked)
  {
    hide Run, HonestTail;
    var c := Run(a, s).configs[i];
    var token := NewToken(a);
    RevokeOnce(c, g, token, now, s);
    hide PanelRevokePrepare, PanelRevokeSuccess, CurrentRevoke, PanelCanDispatch;
    var a1 := Commit(a, i, PanelRevokePrepares(g, token), now, s);
    b := Commit(a1, i, PanelRevokeSucceeds(g, token, c.panelRevokes[g].attempts + 1), now, s);
    LeadsTrans(a, a1, b, i, now, s);
  }

  /** On a panel configuration, only the provision task and the current revoke task can be open. */
  lemma PanelDrained(c: Config)
    requires PanelInv(c) && !IsOpen(c.panelTask.value.status)
    requires c.vpn.generation in c.panelRevokes ==> !IsOpen(c.panelRevokes[c.vpn.generation].status)
    ensures NoOpenTask(c)
  {
    forall g | g in c.panelRevokes ensures !IsOpen(c.panelRevokes[g].status) {
      assert PanelRevokeOk(c, g, c.panelRevokes[g]);
    }
  }

  lemma DrainPanel(a: seq<Step>, i: int, now: int, s: Settings) returns (b: seq<Step>)
    requires 0 <= i < |Run(a, s).configs| && Run(a, s).configs[i].node.None? && Ready(Run(a, s).configs[i], now)
    ensures Leads(a, b, i, now, s) && NoOpenTask(Run(b, s).configs[i])
  {
    hide Run, HonestTail, PanelInv, NoOpenTask, PanelCanDispatch, CurrentRevoke;
    var a1 := ClosePanelProvision(a, i, now, s);
    var c := Run(a1, s).configs[i];
    var g := c.vpn.generation;
    b := a1;
    if g in c.panelRevokes && IsOpen(c.panelRevokes[g].status) {
      b := SucceedRevoke(a1, i, g, now, s);
      LeadsTrans(a, a1, b, i, now, s);
    }
    InvOf(b, s, i);
    PanelDrained(Run(b, s).configs[i]);
  }

  lemma Drain(a: seq<Step>, i: int, now: int, s: Settings) returns (b: seq<Step>)
    requires 0 <= i < |Run(a, s).configs| && NodeUp(Run(a, s), i, now) && Ready(Run(a, s).configs[i], now)
    ensures Leads(a, b, i, now, s) && NoOpenTask(Run(b, s).configs[i])
  {
    hide Run, NoOpenTask, Ready, Leads, NodeUp;
    if Run(a, s).configs[i].node.Some? { b := DrainNode(a, i, now, s); } else { b := DrainPanel(a, i, now, s); }
  }

  // ---------------------------------------------------------------- every configuration settles

  /** A configuration that calls for a revoke job. */
  ghost predicate Revocable(c: Config) {
    RemoteLive(c.vpn.status) || (c.node.None? && c.vpn.status == Revoking && RevokeNeedsRepair(c))
  }

  /** Its job leaves it REVOKING with a due task of the current generation, and other tasks as they are. */
  lemma RevokePlanFresh(c: Config, now: int, s: Settings)
    requires ConfigInv(c) && NoOpenTask(c) && Revocable(c)
    ensures var c' := RevokePlan(c, now, s);
      var g := c'.vpn.generation;
      && CurrentRevoke(c'.vpn, g) && c'.node == c.node && c'.panelTask == c.panelTask
      && (c.node.Some? ==>
            && TaskKey(RevokeClient, g) in c'.nodeTasks && CanDispatch(c'.nodeTasks[TaskKey(RevokeClient, g)].task, now)
            && (forall j :: j in c.nodeTasks ==> j in c'.nodeTasks && c'.nodeTasks[j] == c.nodeTasks[j]))
      && (c.node.None? ==> g in c'.panelRevokes && PanelCanDispatch(c'.panelRevokes[g], now))
  {
    if c.node.Some? {
      assert !KnownKey(c, TaskKey(RevokeClient, c.vpn.generation + 1));
    } else if c.vpn.generation in c.panelRevokes {
      assert PanelRevokeOk(c, c.vpn.generation, c.panelRevokes[c.vpn.generation]);
    }
  }

  lemma ProvisionKnown(c: Config)
    requires ConfigInv(c) && c.node.Some?
    ensures TaskKey(ProvisionClient, 1) in c.nodeTasks
  {
    assert KnownKey(c, TaskKey(ProvisionClient, 1));
  }

  /** The revoke job of a drained configuration can be carried through. */
  lemma RevokeThrough(a: seq<Step>, i: int, reason: RevokeReason, now: int, s: Settings) returns (b: seq<Step>)
    requires 0 <= i < |Run(a, s).configs| && NoOpenTask(Run(a, s).configs[i]) && Revocable(Run(a, s).configs[i])
    requires HonestAt(Run(a, s), RequestRevoke(i, reason, now), now) && NodeUp(Run(a, s), i, now)
    ensures Leads(a, b, i, now, s)
    ensures NoOpenTask(Run(b, s).configs[i]) && IsTerminal(Run(b, s).configs[i].vpn.status)
  {
    hide Run, HonestTail;
    var c := Run(a, s).configs[i];
    InvOf(a, s, i);
    RevokePlanFresh(c, now, s);
    var a1 := Request(a, i, reason, now, s);
    hide RevokePlan, ConfigInv, CurrentRevoke, HonestAt, Revocable, CanDispatch, PanelCanDispatch;
    var c1 := Run(a1, s).configs[i];
    var g := c1.vpn.generation;
    InvOf(a1, s, i);
    if c.node.Some? {
      ProvisionKnown(c1);
      ProvisionKnown(c);
      hide NodeInv;
      b := SucceedNode(a1, i, TaskKey(RevokeClient, g), now, s);
      InvOf(b, s, i);
      NodeDrained(Run(b, s).configs[i]);
    } else {
      b := SucceedRevoke(a1, i, g, now, s);
      InvOf(b, s, i);
      hide PanelInv;
      PanelDrained(Run(b, s).configs[i]);
    }
    LeadsTrans(a, a1, b, i, now, s);
  }

  /** A drained configuration is neither PROVISIONING nor, on the node path, REVOKING. */
  lemma DrainedIsStill(c: Config)
    requires ConfigInv(c) && NoOpenTask(c)
    ensures c.vpn.status != Provisioning
    ensures c.vpn.status == Revoking ==> c.node.None? && RevokeNeedsRepair(c) && c.vpn.desired == WantRevoked
    ensures IsTerminal(c.vpn.status) || Blocking(c.vpn.status)
  {
    TransitionIsVisible(c);
    if c.node.Some? { assert KnownKey(c, CurrentKey(c.vpn.generation)); }
  }

  ghost predicate SettledConfig(w: World, i: int, now: int)
    requires 0 <= i < |w.configs|
  {
    && NoOpenTask(w.configs[i])
    && (IsTerminal(w.configs[i].vpn.status)
        || (Entitled(w, w.configs[i].subscription, now)
            && (w.configs[i].vpn.status == Active || w.configs[i].vpn.status == RevokeFailed)))
  }

  lemma SettleConfig(a: seq<Step>, i: int, now: int, s: Settings) returns (b: seq<Step>)
    requires 0 <= i < |Run(a, s).configs| && NodeUp(Run(a, s), i, now) && Ready(Run(a, s).configs[i], now)
    ensures Leads(a, b, i, now, s) && SettledConfig(Run(b, s), i, now)
  {
    hide Run, HonestTail, NoOpenTask, RevokeNeedsRepair, Funded, ConfigInv, Ready;
    var a1 := Drain(a, i, now, s);
    var w := Run(a1, s);
    var c := w.configs[i];
    InvOf(a1, s, i);
    DrainedIsStill(c);
    b := a1;
    var entitled := Entitled(w, c.subscription, now);
    if !IsTerminal(c.vpn.status) && !(entitled && (c.vpn.status == Active || c.vpn.status == RevokeFailed)) {
      var reason := if c.vpn.status == Revoking then Force else if entitled then ReplacementCleanup else Expiration;
      b := RevokeThrough(a1, i, reason, now, s);
      LeadsTrans(a, a1, b, i, now, s);
    }
  }

  /** Every configuration's node is up, and every open task is due. */
  ghost predicate AllReady(w: World, from: int, now: int) {
    forall i :: 0 <= from <= i < |w.configs| ==> NodeUp(w, i, now) && Ready(w.configs[i], now)
  }

  lemma {:induction false} SettleFirst(a: seq<Step>, n: nat, now: int, s: Settings) returns (b: seq<Step>)
    requires n <= |Run(a, s).configs| && AllReady(Run(a, s), 0, now)
    ensures HonestTail(a, b, now, s)
    ensures var w, w' := Run(a, s), Run(b, s);
      && w'.subs == w.subs && w'.fleet == w.fleet && |w'.configs| == |w.configs|
      && (forall i :: 0 <= i < n ==> SettledConfig(w', i, now)) && AllReady(w', n, now)
    decreases n
  {
    hide Run, HonestTail, NoOpenTask, Funded, Ready;
    if n == 0 {
      b := a;
      HonestRefl(a, now, s);
    } else {
      var a1 := SettleFirst(a, n - 1, now, s);
      var w := Run(a1, s);
      b := SettleConfig(a1, n - 1, now, s);
      HonestTrans(a, a1, b, now, s);
      var w' := Run(b, s);
      forall i | 0 <= i < n ensures SettledConfig(w', i, now) {
        if i < n - 1 { assert SettledConfig(w, i, now); }
      }
      forall i | n <= i < |w'.configs| ensures NodeUp(w', i, now) && Ready(w'.configs[i], now) {
        assert NodeUp(w, i, now) && Ready(w.configs[i], now);
      }
    }
  }

  // ---------------------------------------------------------------- every subscription is served

  ghost predicate AllSettled(w: World, now: int) {
    forall i :: 0 <= i < |w.configs| ==> SettledConfig(w, i, now)
  }

  /** Node `m` is up, has an enabled endpoint, and would take `room` clients even if it had every configuration. */
  ghost predicate RoomAt(w: World, m: int, e: int, room: int, now: int) {
    && m in w.fleet.nodes && e in w.fleet.endpoints && w.fleet.endpoints[e] == EndpointRow(Some(m), true)
    && w.fleet.nodes[m].health == Online && w.fleet.nodes[m].enabled && w.fleet.nodes[m].lastChecked == Some(now)
    && w.fleet.nodes[m].activeClients == None
    && w.fleet.nodes[m].maxClients.Some? && |w.configs| + room <= w.fleet.nodes[m].maxClients.value
  }

  /** The store's candidates among some endpoints. */
  lemma {:induction false} ListCandidates(w: World, keys: set<int>) returns (cs: seq<Candidate>)
    ensures forall c :: c in cs <==> IsCandidate(w, c) && c.endpoint in keys
  {
    cs := [];
    if e :| e in keys {
      var rest := ListCandidates(w, keys - {e});
      var node := if e in w.fleet.endpoints then w.fleet.endpoints[e].node else None;
      var row := if node.Some? then CandidateRow(w, node.value, e) else None;
      cs := if row.Some? then rest + [row.value] else rest;
    }
  }

  lemma {:induction false} ReservedBound(configs: seq<Config>, node: int)
    ensures Reserved(configs, node) <= |configs|
  {
    if configs != [] { ReservedBound(configs[..|configs| - 1], node); }
  }

  lemma RoomIsEligible(w: World, m: int, e: int, now: int, s: Settings) returns (c: Candidate)
    requires RoomAt(w, m, e, 1, now)
    ensures IsCandidate(w, c) && c.node == m && c.health == Online && Eligible(c, now, s.staleAfter)
  {
    ReservedBound(w.configs, m);
    c := CandidateRow(w, m, e).value;
  }

  /** Some ticket chooses an eligible online node. */
  lemma DrawTicket(cs: seq<Candidate>, c: Candidate, now: int, staleAfter: int) returns (ticket: int, d: Candidate)
    requires c in cs && c.health == Online && Eligible(c, now, staleAfter)
    ensures 0 <= ticket < TicketCount(cs, now, staleAfter) && Select(cs, now, staleAfter, ticket) == Some(d)
    ensures d in cs && d.node == c.node && Eligible(d, now, staleAfter)
  {
    assert c in EligibleWith(cs, now, staleAfter, Online);
    var pool := Pool(cs, now, staleAfter);
    assert c in pool;
    RepresentativesExact(cs, now, staleAfter);
    var nodes := Representatives(pool);
    hide Pool, Representatives, EligibleWith, Eligible, Select;
    assert Offered(nodes, c.node);
    var i :| 0 <= i < |nodes| && nodes[i].node == c.node;
    d := nodes[i];
    assert Represents(pool, d);
    WeightOfNode(cs, now, staleAfter, i);
    assert TicketsFor(cs, now, staleAfter, d) != {};
    ticket :| ticket in TicketsFor(cs, now, staleAfter, d);
  }

  /** The selector can draw a node with room from the store's own candidates. */
  lemma DrawNode(w: World, m: int, e: int, now: int, s: Settings) returns (cs: seq<Candidate>, ticket: int, c: Candidate)
    requires RoomAt(w, m, e, 1, now)
    ensures OwnSnapshot(w, cs) && TicketDrawn(cs, ticket, now, s.staleAfter)
    ensures SelectEndpoint(w, cs, ticket, None, now, s) == At(c.endpoint, Some(m))
  {
    cs := ListCandidates(w, w.fleet.endpoints.Keys);
    var c0 := RoomIsEligible(w, m, e, now, s);
    hide RoomAt, Eligible, Select, TicketCount;
    ticket, c := DrawTicket(cs, c0, now, s.staleAfter);
    assert IsCandidate(w, c);
  }

  lemma FreshNode(sub: int, e: int, m: int, now: int, s: Settings)
    ensures var c, p := FreshConfig(sub, e, Some(m), now, s), TaskKey(ProvisionClient, 1);
      && c.subscription == sub && c.node == Some(m) && CurrentProvision(c.vpn, 1)
      && p in c.nodeTasks && c.nodeTasks.Keys == {p} && CanDispatch(c.nodeTasks[p].task, now)
  {
  }

  /** The job of an unserved subscription creates its configuration on the drawn node. */
  lemma CreateOn(a: seq<Step>, sub: int, m: int, e: int, now: int, s: Settings) returns (b: seq<Step>, at: int)
    requires ProvisionSubscription(Run(a, s), sub, now) && RoomAt(Run(a, s), m, e, 1, now)
    ensures HonestTail(a, b, now, s)
    ensures var w := Run(a, s); Run(b, s) == w.(configs := w.configs + [FreshConfig(sub, at, Some(m), now, s)])
  {
    hide HonestTail;
    var w := Run(a, s);
    RunInv(a, s);
    UnservedCreates(w, sub, now);
    var cs, ticket, c := DrawNode(w, m, e, now, s);
    at := c.endpoint;
    var step := RequestProvision(sub, now, cs, ticket, None);
    b := a + [step];
    hide Run, SelectEndpoint, Inv, FreshConfig, OwnSnapshot, ProvisionSubscription, RoomAt, TicketDrawn, PlanProvision;
    HonestSnoc(a, step, now, s);
  }

  /** One configuration was added, ACTIVE for `sub`, with nothing in flight. */
  ghost predicate Serves(w: World, w': World, sub: int) {
    && w'.subs == w.subs && w'.fleet == w.fleet && |w'.configs| == |w.configs| + 1
    && (forall j :: 0 <= j < |w.configs| ==> w'.configs[j] == w.configs[j])
    && w'.configs[|w.configs|].subscription == sub && w'.configs[|w.configs|].vpn.status == Active
    && NoOpenTask(w'.configs[|w.configs|])
  }

  /** An unserved subscription can be provisioned: request, dispatch, success. */
  lemma Serve(a: seq<Step>, sub: int, m: int, e: int, now: int, s: Settings) returns (b: seq<Step>)
    requires ProvisionSubscription(Run(a, s), sub, now) && RoomAt(Run(a, s), m, e, 1, now)
    ensures HonestTail(a, b, now, s) && Serves(Run(a, s), Run(b, s), sub)
  {
    hide Run, HonestTail;
    var w := Run(a, s);
    var a1, at := CreateOn(a, sub, m, e, now, s);
    var w1 := Run(a1, s);
    var i, p := |w.configs|, TaskKey(ProvisionClient, 1);
    FreshNode(sub, at, m, now, s);
    assert SubFunded(w1, sub, now);
    assert NodeUp(w1, i, now);
    hide FreshConfig, CurrentProvision, RoomAt, SubFunded, NodeUp, CanDispatch, ProvisionSubscription;
    b := SucceedNode(a1, i, p, now, s);
    HonestTrans(a, a1, b, now, s);
    InvOf(b, s, i);
    hide ConfigInv, NodeInv;
    NodeDrained(Run(b, s).configs[i]);
  }

  /** The entitled subscriptions without a blocking configuration. */
  ghost function Unserved(w: World, now: int): set<int> {
    set sub | sub in w.subs && ProvisionSubscription(w, sub, now)
  }

  /** Serving one subscription takes exactly it off the list. */
  lemma ServedLeaves(w: World, w': World, sub: int, now: int)
    requires Serves(w, w', sub) && sub in Unserved(w, now)
    ensures Unserved(w', now) == Unserved(w, now) - {sub}
  {
    var n := |w.configs|;
    hide Funded, NoOpenTask;
    forall x | x in w.subs ensures ProvisionSubscription(w', x, now) <==> ProvisionSubscription(w, x, now) && x != sub {
      if x == sub {
        assert BlockedBy(w', sub, n);
      } else if exists j :: 0 <= j < n && BlockedBy(w, x, j) {
        var j :| 0 <= j < n && BlockedBy(w, x, j);
        assert BlockedBy(w', x, j);
      } else {
        forall j | 0 <= j < |w'.configs| ensures !BlockedBy(w', x, j) { assert j < n ==> !BlockedBy(w, x, j); }
      }
    }
  }

  lemma ServedKeepsSettled(w: World, w': World, sub: int, now: int)
    requires AllSettled(w, now) && Entitled(w, sub, now) && Serves(w, w', sub)
    ensures AllSettled(w', now)
  {
    hide NoOpenTask, Funded;
    forall i | 0 <= i < |w'.configs| ensures SettledConfig(w', i, now) {
      if i < |w.configs| { assert SettledConfig(w, i, now); }
    }
  }

  lemma {:induction false} ServeAll(a: seq<Step>, m: int, e: int, now: int, s: Settings) returns (b: seq<Step>)
    requires AllSettled(Run(a, s), now) && RoomAt(Run(a, s), m, e, |Unserved(Run(a, s), now)|, now)
    ensures HonestTail(a, b, now, s)
    ensures var w, w' := Run(a, s), Run(b, s);
      w'.subs == w.subs && AllSettled(w', now) && Unserved(w', now) == {}
    decreases |Unserved(Run(a, s), now)|
  {
    hide Run, HonestTail, AllSettled, NoOpenTask, Funded;
    var w := Run(a, s);
    HonestRefl(a, now, s);
    b := a;
    if Unserved(w, now) != {} {
      var sub :| sub in Unserved(w, now);
      SubsetSize({sub}, Unserved(w, now));
      var a1 := Serve(a, sub, m, e, now, s);
      var w1 := Run(a1, s);
      ServedLeaves(w, w1, sub, now);
      ServedKeepsSettled(w, w1, sub, now);
      hide Unserved;
      b := ServeAll(a1, m, e, now, s);
      HonestTrans(a, a1, b, now, s);
    }
  }

  lemma SettledConverges(w: World, now: int)
    requires Inv(w) && AllSettled(w, now) && Unserved(w, now) == {}
    requires forall sub :: sub in w.subs && w.subs[sub].active ==> Funded(w.subs[sub], now)
    ensures Quiescent(w) && Converged(w, now)
  {
    hide ConfigInv, NoOpenTask, Funded;
    forall i | 0 <= i < |w.configs|
      ensures NoOpenTask(w.configs[i])
      ensures !Entitled(w, w.configs[i].subscription, now) ==> IsTerminal(w.configs[i].vpn.status)
    {
      assert SettledConfig(w, i, now);
    }
    forall sub | sub in w.subs && w.subs[sub].active ensures exists i :: ServedBy(w, sub, i) {
      assert sub !in Unserved(w, now);
      var i :| 0 <= i < |w.configs| && BlockedBy(w, sub, i);
      assert SettledConfig(w, i, now);
      assert ServedBy(w, sub, i);
    }
  }

  // ---------------------------------------------------------------- the whole store

  function UpRow(nodes: map<int, NodeRow>, n: int, now: int): NodeRow {
    if n in nodes then nodes[n].(health := Online, enabled := true, lastChecked := Some(now))
    else NodeRow(Online, true, Some(now), None, None, 1)
  }

  /** Every node is up at `now`, and a new one, with a new endpoint, has room for `cap` clients. */
  function Grown(w: World, m: int, e: int, cap: int, now: int): Fleet {
    var used := set i | 0 <= i < |w.configs| && w.configs[i].node.Some? :: w.configs[i].node.value;
    Fleet((map n | n in w.fleet.nodes.Keys + used :: UpRow(w.fleet.nodes, n, now))
            [m := NodeRow(Online, true, Some(now), None, Some(cap), 1)],
          w.fleet.endpoints[e := EndpointRow(Some(m), true)])
  }

  lemma GrownIsUp(w: World, m: int, e: int, cap: int, now: int)
    requires e !in w.fleet.endpoints
    ensures var w' := w.(fleet := Grown(w, m, e, cap, now));
      && FleetGrows(w.fleet, w'.fleet) && (forall i :: 0 <= i < |w.configs| ==> NodeUp(w', i, now))
      && (forall room :: |w.configs| + room <= cap ==> RoomAt(w', m, e, room, now))
  {
  }

  /** The expiry job, and operators who bring the nodes up and add one. */
  lemma Prepare(a: seq<Step>, now: int, s: Settings) returns (b: seq<Step>, m: int, e: int)
    ensures HonestTail(a, b, now, s)
    ensures var w, w' := Run(a, s), Run(b, s);
      && w'.subs == Expired(w.subs, now) && w'.configs == w.configs
      && (forall i :: 0 <= i < |w.configs| ==> NodeUp(w', i, now)) && RoomAt(w', m, e, |w'.subs.Keys|, now)
  {
    hide Run, HonestTail;
    var w := Run(a, s);
    var expiry := EntitlementsChange(Expired(w.subs, now));
    HonestSnoc(a, expiry, now, s);
    var a1 := a + [expiry];
    m := Above(w.fleet.nodes.Keys);
    e := Above(w.fleet.endpoints.Keys);
    var cap := |w.configs| + |Run(a1, s).subs.Keys|;
    GrownIsUp(Run(a1, s), m, e, cap, now);
    var grow := FleetChange(Grown(Run(a1, s), m, e, cap, now));
    hide Grown, NodeUp, FleetGrows;
    HonestSnoc(a1, grow, now, s);
    b := a1 + [grow];
    HonestTrans(a, a1, b, now, s);
  }

  /** Once no lease is out and every retry is due, the rest happens at one instant. */
  lemma Finish(a: seq<Step>, now: int, s: Settings) returns (b: seq<Step>)
    requires forall i :: 0 <= i < |Run(a, s).configs| ==> Ready(Run(a, s).configs[i], now)
    ensures HonestTail(a, b, now, s)
    ensures var w, w' := Run(a, s), Run(b, s);
      Quiescent(w') && NoAnomaly(w', now) && Converged(w', now) && w'.subs == Expired(w.subs, now)
  {
    hide Run, HonestTail, Ready, NodeUp, SettledConfig, Quiescent, NoAnomaly, Converged, Inv;
    var a1, m, e := Prepare(a, now, s);
    var w1 := Run(a1, s);
    var a2 := SettleFirst(a1, |w1.configs|, now, s);
    var w2 := Run(a2, s);
    HonestTrans(a, a1, a2, now, s);
    SubsetSize(Unserved(w2, now), w2.subs.Keys);
    b := ServeAll(a2, m, e, now, s);
    HonestTrans(a, a2, b, now, s);
    RunInv(b, s);
    hide Unserved, AllSettled;
    SettledConverges(Run(b, s), now);
    ConvergedHasNoAnomaly(Run(b, s), now);
  }

  /**
   From every reachable store and every instant `t`, steps the code could take lead to a quiescent
   store with an empty anomaly list: those up to `recovered` at some `t1 >= t`, the others at some
   `now >= t1`. They keep every period, and end no subscription that is funded then.
   */
  lemma ConvergenceIsAlwaysReachable(steps: seq<Step>, t: int, s: Settings)
    returns (recovered: seq<Step>, more: seq<Step>, t1: int, now: int)
    ensures t <= t1 <= now && HonestTail(steps, recovered, t1, s) && HonestTail(recovered, more, now, s)
    ensures var w, w' := Run(steps, s), Run(more, s);
      Quiescent(w') && NoAnomaly(w', now) && Converged(w', now) && w'.subs == Expired(w.subs, now)
  {
    hide Run, HonestTail, Within, Idle, Ready, Quiescent, NoAnomaly, Converged;
    t1 := StoreBound(Run(steps, s).configs, t);
    recovered := RecoverFirst(steps, |Run(steps, s).configs|, t1, s);
    var w := Run(recovered, s);
    now := StoreBound(w.configs, t1);
    forall i | 0 <= i < |w.configs| ensures Ready(w.configs[i], now) { IdleIsReady(w.configs[i], now); }
    more := Finish(recovered, now, s);
  }
}
