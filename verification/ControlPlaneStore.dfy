/**
 The use cases as they run: each method is one transaction that loads rows into entities, lets
 the entities change themselves, and saves them. Every method is proved to commit exactly the
 step that the safety theorems speak about.
 */
module ControlPlaneStore {
  import opened Common
  import opened VpnEntity
  import opened NodeTaskEntity
  import opened PanelTaskEntity
  import opened NodeSelection
  import opened Transactions
  import opened ControlPlane

  /** A task in the listing of expired leases. */
  datatype TaskRef = TaskRef(config: int, key: TaskKey)

  /** The store after one recovery iteration per listed task. */
  function Recovered(w: World, refs: seq<TaskRef>, now: int, s: Settings): World {
    if refs == [] then w
    else
      var last := refs[|refs| - 1];
      CommitWork(Recovered(w, refs[..|refs| - 1], now, s), last.config, NodeRecovers(last.key), now, s)
  }

  predicate StaleLease(w: World, r: TaskRef, now: int) {
    && 0 <= r.config < |w.configs| && r.key in w.configs[r.config].nodeTasks
    && LeaseExpired(w.configs[r.config].nodeTasks[r.key].task, now)
  }

  /** The listed task has used its last attempt, so that recovering it fails it. */
  predicate Exhausted(w: World, r: TaskRef) {
    && 0 <= r.config < |w.configs| && r.key in w.configs[r.config].nodeTasks
    && w.configs[r.config].nodeTasks[r.key].task.maxAttempts <= w.configs[r.config].nodeTasks[r.key].task.attempts
  }

  /** Recovering one task leaves the attempts of all as they are. */
  lemma RecoveryKeepsExhaustion(w: World, r: TaskRef, now: int, s: Settings, q: TaskRef)
    ensures Exhausted(CommitWork(w, r.config, NodeRecovers(r.key), now, s), q) <==> Exhausted(w, q)
  {
  }

  /** The listed tasks that recovery fails. */
  function Lost(w: World, refs: seq<TaskRef>, now: int): set<TaskRef> {
    set q | q in refs && StaleLease(w, q, now) && Exhausted(w, q)
  }

  lemma LostAppend(w: World, refs: seq<TaskRef>, r: TaskRef, now: int)
    ensures |Lost(w, refs + [r], now)|
      == |Lost(w, refs, now)| + if r !in refs && StaleLease(w, r, now) && Exhausted(w, r) then 1 else 0
  {
    hide StaleLease, Exhausted;
    var a, b := Lost(w, refs, now), Lost(w, refs + [r], now);
    if r !in refs && StaleLease(w, r, now) && Exhausted(w, r) {
      assert b == a + {r};
    } else {
      assert b == a;
    }
  }

  /** Recovery never makes a lease stale. */
  lemma RecoveryStaleness(w: World, r: TaskRef, now: int, s: Settings, q: TaskRef)
    ensures var w' := CommitWork(w, r.config, NodeRecovers(r.key), now, s);
      StaleLease(w', q, now) <==> StaleLease(w, q, now) && q != r
  {
  }

  /** The panel work listed for recovery: the provision task of a configuration, or its revoke task of a generation. */
  datatype PanelRef = ProvisionRef(config: int) | RevokeRef(config: int, generation: int)

  function PanelRecovery(r: PanelRef): Work {
    match r
    case ProvisionRef(_) => PanelRecovers
    case RevokeRef(_, g) => PanelRevokeRecovers(g)
  }

  function PanelsRecovered(w: World, refs: seq<PanelRef>, now: int, s: Settings): World {
    if refs == [] then w
    else
      var last := refs[|refs| - 1];
      CommitWork(PanelsRecovered(w, refs[..|refs| - 1], now, s), last.config, PanelRecovery(last), now, s)
  }

  predicate StalePanelLease(w: World, r: PanelRef, now: int) {
    && 0 <= r.config < |w.configs|
    && match r
       case ProvisionRef(i) => w.configs[i].panelTask.Some? && PanelLeaseExpired(w.configs[i].panelTask.value, now)
       case RevokeRef(i, g) => g in w.configs[i].panelRevokes && PanelLeaseExpired(w.configs[i].panelRevokes[g], now)
  }

  predicate DuePanelTask(w: World, r: PanelRef, now: int) {
    && 0 <= r.config < |w.configs|
    && match r
       case ProvisionRef(i) => w.configs[i].panelTask.Some? && PanelCanDispatch(w.configs[i].panelTask.value, now)
       case RevokeRef(i, g) => g in w.configs[i].panelRevokes && PanelCanDispatch(w.configs[i].panelRevokes[g], now)
  }

  lemma PanelRecoveryStaleness(w: World, r: PanelRef, now: int, s: Settings, q: PanelRef)
    ensures var w' := CommitWork(w, r.config, PanelRecovery(r), now, s);
      StalePanelLease(w', q, now) <==> StalePanelLease(w, q, now) && q != r
  {
  }

  class Store {
    var subs: map<int, Entitlement>
    var configs: seq<Config>
    var fleet: Fleet
    const s: Settings

    function View(): World
      reads this
    {
      World(subs, configs, fleet)
    }

    constructor (s: Settings)
      ensures View() == EMPTY && this.s == s
    {
      this.s := s;
      subs, configs, fleet := map[], [], Fleet(map[], map[]);
    }

    // -------------------------------------------------------------- node dispatch

    method MarkConfigurationFailure(i: int, k: TaskKey)
      requires 0 <= i < |configs|
      modifies this`configs
      ensures configs == old(configs)[i := Transactions.MarkConfigurationFailure(old(configs)[i], k)]
    {
      var vpn := new VpnConfiguration(configs[i].vpn);
      if k.generation != vpn.generation { return; }
      if k.op == ProvisionClient && vpn.desired == WantActive && vpn.status == Provisioning {
        var _ := vpn.FailProvisioning();
      } else if k.op == RevokeClient && vpn.desired == WantRevoked && vpn.status == Revoking {
        var _ := vpn.FailRevoke();
      } else {
        return;
      }
      configs := configs[i := configs[i].(vpn := vpn.Row())];
    }

    /** `_fail_or_retry`, after `finish_task_attempt` has closed the attempt row. */
    method FailOrRetry(i: int, k: TaskKey, attemptNo: int, response: Option<Response>, now: int)
      requires 0 <= i < |configs| && k in configs[i].nodeTasks
      modifies this`configs
      ensures configs == old(configs)[i := Transactions.FailOrRetry(old(configs)[i], k, attemptNo, response, now, s.nodeRetryBase)]
    {
      var l := configs[i].nodeTasks[k];
      var task := new NodeTask(l.task);
      var rows := l.attempts;
      if attemptNo in rows { rows := rows[attemptNo := Finished(false)]; }
      task.Retry(response, now, s.nodeRetryBase);
      configs := configs[i := PutLedger(configs[i], k, Ledger(task.Row(), rows))];
      if task.status == TaskFailed { MarkConfigurationFailure(i, k); }
    }

    /** `DispatchNodeTask._prepare`; `leased` is true when a request goes out. */
    method PrepareNode(i: int, k: TaskKey, now: int, token: int, node: Option<NodeState>, credential: bool) returns (leased: bool)
      modifies this`configs
      ensures View() == CommitWork(old(View()), i, NodePrepares(k, token, node, credential), now, s)
      ensures leased ==> 0 <= i < |configs| && k in configs[i].nodeTasks
      ensures leased ==> OwnsActiveLease(configs[i].nodeTasks[k].task, token, now, configs[i].nodeTasks[k].task.attempts)
    {
      if !(0 <= i < |configs|) || k !in configs[i].nodeTasks { return false; }
      var l := configs[i].nodeTasks[k];
      var task := new NodeTask(l.task);
      if !CanDispatch(task.Row(), now) { return false; }
      if !NodeAllows(k, node, now, s) {
        var _ := task.DeferWithoutAttempt(now, s.nodeDefer);
        configs := configs[i := PutLedger(configs[i], k, Ledger(task.Row(), l.attempts))];
        return false;
      }
      var _ := task.StartAttempt(now, now + s.nodeLease, token);
      if task.attempts in l.attempts { return false; }  // unique attempt number: rolled back
      configs := configs[i := PutLedger(configs[i], k, Ledger(task.Row(), l.attempts[task.attempts := Started]))];
      if !credential {
        FailOrRetry(i, k, task.attempts, None, now);
        return false;
      }
      leased := true;
    }

    method CompleteProvision(i: int, k: TaskKey, now: int)
      requires 0 <= i < |configs| && k in configs[i].nodeTasks
      modifies this`configs
      ensures configs == old(configs)[i := Transactions.CompleteProvision(old(configs)[i], k,
                                             SubFunded(old(View()), old(configs)[i].subscription, now), now)]
    {
      var c := configs[i];
      var task := c.nodeTasks[k].task;
      var funded := SubFunded(View(), c.subscription, now);
      var vpn := new VpnConfiguration(c.vpn);
      var current := k.generation == vpn.generation && vpn.desired == WantActive && vpn.status == Provisioning;
      if current && funded {
        var _ := vpn.Activate(task.remoteRef);
        configs := configs[i := c.(vpn := vpn.Row(), audit := c.audit + [ActivatedAudit(now)])];
        return;
      }
      if current {
        var _ := vpn.CancelProvisioningForRevoke();
        if task.remoteRef.Some? && task.remoteRef.value != "" { vpn.remoteRef := task.remoteRef; }
        c := c.(vpn := vpn.Row());
      }
      configs := configs[i := AddNodeTask(c, TaskKey(RevokeClient, vpn.generation), task.maxAttempts, now)];
    }

    method CompleteRevoke(i: int, k: TaskKey, now: int)
      requires 0 <= i < |configs|
      modifies this`configs
      ensures configs == old(configs)[i := Transactions.CompleteRevoke(old(configs)[i], k, now)]
    {
      var c := configs[i];
      var vpn := new VpnConfiguration(c.vpn);
      if k.generation == vpn.generation && vpn.desired == WantRevoked && vpn.status == Revoking {
        var _ := vpn.Revoke(now);
        configs := configs[i := c.(vpn := vpn.Row(), audit := c.audit + [RevokedAudit(now)])];
      }
    }

    /** `DispatchNodeTask._finalize`. */
    method FinalizeNode(i: int, k: TaskKey, now: int, token: int, attemptNo: int, answer: NodeAnswer)
      modifies this`configs
      ensures View() == CommitWork(old(View()), i, NodeFinalizes(k, token, attemptNo, answer), now, s)
    {
      if !(0 <= i < |configs|) || k !in configs[i].nodeTasks { return; }
      var l := configs[i].nodeTasks[k];
      var task := new NodeTask(l.task);
      if !OwnsActiveLease(task.Row(), token, now, attemptNo) { return; }
      if answer.TransportError? {
        FailOrRetry(i, k, attemptNo, None, now);
        return;
      }
      if answer.response.None? || !Accepts(k.op, answer.response.value.status) {
        FailOrRetry(i, k, attemptNo, answer.response, now);
        return;
      }
      var rows := l.attempts;
      if attemptNo in rows { rows := rows[attemptNo := Finished(true)]; }
      var _ := task.Complete(answer.response.value, now);
      configs := configs[i := PutLedger(configs[i], k, Ledger(task.Row(), rows))];
      if k.op == ProvisionClient { CompleteProvision(i, k, now); } else { CompleteRevoke(i, k, now); }
    }

    /** One iteration of `recover_stale`. */
    method RecoverNode(r: TaskRef, now: int) returns (recovered: bool, failed: bool)
      modifies this`configs
      ensures View() == CommitWork(old(View()), r.config, NodeRecovers(r.key), now, s)
      ensures recovered == StaleLease(old(View()), r, now)
      ensures failed <==> recovered && Exhausted(old(View()), r)
      ensures forall q :: StaleLease(View(), q, now) <==> StaleLease(old(View()), q, now) && q != r
      ensures forall q :: Exhausted(View(), q) <==> Exhausted(old(View()), q)
    {
      forall q
        ensures var w' := CommitWork(View(), r.config, NodeRecovers(r.key), now, s);
          && (StaleLease(w', q, now) <==> StaleLease(View(), q, now) && q != r)
          && (Exhausted(w', q) <==> Exhausted(View(), q))
      {
        RecoveryStaleness(View(), r, now, s, q);
        RecoveryKeepsExhaustion(View(), r, now, s, q);
      }
      recovered, failed := RecoverTask(r, now);
    }

    method RecoverTask(r: TaskRef, now: int) returns (recovered: bool, failed: bool)
      modifies this`configs
      ensures View() == CommitWork(old(View()), r.config, NodeRecovers(r.key), now, s)
      ensures recovered == StaleLease(old(View()), r, now)
      ensures failed <==> recovered && Exhausted(old(View()), r)
    {
      recovered, failed := false, false;
      if !(0 <= r.config < |configs|) || r.key !in configs[r.config].nodeTasks { return; }
      var l := configs[r.config].nodeTasks[r.key];
      var task := new NodeTask(l.task);
      if !LeaseExpired(task.Row(), now) { return; }
      var rows := l.attempts;
      if task.attempts in rows && rows[task.attempts] == Started { rows := rows[task.attempts := Finished(false)]; }
      recovered := task.RecoverExpiredLease(now, s.nodeRetryBase);
      configs := configs[r.config := PutLedger(configs[r.config], r.key, Ledger(task.Row(), rows))];
      failed := task.status == TaskFailed;
      if failed { MarkConfigurationFailure(r.config, r.key); }
    }

    /**
     `DispatchNodeTask.recover_stale` over a listing: afterwards no listed lease is stale; the tasks
     with no attempt left have failed, and exactly the others are requeued.
     */
    method RecoverStale(refs: seq<TaskRef>, now: int) returns (recovered: nat, failed: nat, requeue: seq<TaskRef>)
      modifies this`configs
      ensures View() == Recovered(old(View()), refs, now, s)
      ensures recovered == failed + |requeue| && failed == |Lost(old(View()), refs, now)|
      ensures forall q :: q in requeue <==> q in refs && StaleLease(old(View()), q, now) && !Exhausted(old(View()), q)
      ensures forall q :: StaleLease(View(), q, now) <==> StaleLease(old(View()), q, now) && q !in refs
    {
      hide StaleLease, CommitWork, Exhausted;
      ghost var start := View();
      recovered, failed, requeue := 0, 0, [];
      for n := 0 to |refs|
        invariant View() == Recovered(start, refs[..n], now, s)
        invariant recovered == failed + |requeue| && failed == |Lost(start, refs[..n], now)|
        invariant forall q :: q in requeue <==> q in refs[..n] && StaleLease(start, q, now) && !Exhausted(start, q)
        invariant forall q :: StaleLease(View(), q, now) <==> StaleLease(start, q, now) && q !in refs[..n]
        invariant forall q :: Exhausted(View(), q) <==> Exhausted(start, q)
      {
        assert refs[..n + 1][..n] == refs[..n] && refs[..n + 1] == refs[..n] + [refs[n]];
        LostAppend(start, refs[..n], refs[n], now);
        hide Lost;
        ghost var was := requeue;
        var done, lost := RecoverNode(refs[n], now);
        if done {
          recovered := recovered + 1;
          if lost { failed := failed + 1; } else { requeue := requeue + [refs[n]]; }
        }
        assert forall q :: q in requeue <==> q in was || (done && !lost && q == refs[n]);
      }
      assert refs[..|refs|] == refs;
    }

    // -------------------------------------------------------------- panel provisioning

    method SavePanelTask(i: int, task: PanelTask)
      requires 0 <= i < |configs|
      modifies this`configs
      ensures configs == old(configs)[i := old(configs)[i].(panelTask := Some(task.Row()))]
    {
      configs := configs[i := configs[i].(panelTask := Some(task.Row()))];
    }

    method PreparePanel(i: int, now: int, token: int) returns (leased: bool)
      modifies this`configs
      ensures View() == CommitWork(old(View()), i, PanelPrepares(token), now, s)
      ensures leased <==> DuePanelTask(old(View()), ProvisionRef(i), now)
    {
      if !(0 <= i < |configs|) || configs[i].panelTask.None? { return false; }
      var task := new PanelTask(configs[i].panelTask.value);
      leased := task.StartAttempt(now, now + s.panelLease, token);
      SavePanelTask(i, task);
    }

    /** `_finalize_provision_success`. */
    method FinalizePanelSuccess(i: int, now: int, token: int, attemptNo: int) returns (outcome: PanelOutcome)
      modifies this`configs
      ensures View() == CommitWork(old(View()), i, PanelSucceeds(token, attemptNo), now, s)
      ensures 0 <= i < |old(configs)| ==>
        outcome == PanelSuccessOutcome(old(configs)[i], now, token, attemptNo, SubFunded(old(View()), old(configs)[i].subscription, now))
    {
      outcome := LeaseLost;
      if !(0 <= i < |configs|) || configs[i].panelTask.None? { return; }
      var c := configs[i];
      var task := new PanelTask(c.panelTask.value);
      if !PanelOwnsLease(task.Row(), token, attemptNo) { return; }
      var vpn := new VpnConfiguration(c.vpn);
      var live := PanelOwnsActiveLease(task.Row(), token, attemptNo, now);
      var current := task.generation == vpn.generation && vpn.desired == WantActive && vpn.status == Provisioning;
      if live && current && SubFunded(View(), c.subscription, now) {
        var _ := vpn.Activate(None);
        var _ := task.Complete(now);
        configs := configs[i := c.(vpn := vpn.Row(), audit := c.audit + [ActivatedAudit(now)])];
        outcome := ActivatedOutcome;
      } else {
        if live && current { var _ := vpn.CancelProvisioningForRevoke(); }
        var _ := task.MarkCompensationRequired();
        configs := configs[i := c.(vpn := vpn.Row())];
        outcome := CompensateOutcome;
      }
      SavePanelTask(i, task);
    }

    /** `fail_provisioning`, when the provision task has just failed for the current generation. */
    method FailCurrentProvision(i: int, task: PanelTask)
      requires 0 <= i < |configs|
      modifies this`configs
      ensures configs == old(configs)[i := FailProvisionIfCurrent(old(configs)[i], task.Row())]
    {
      var vpn := new VpnConfiguration(configs[i].vpn);
      if task.status == TaskFailed && task.generation == vpn.generation && vpn.desired == WantActive && vpn.status == Provisioning {
        var _ := vpn.FailProvisioning();
        configs := configs[i := configs[i].(vpn := vpn.Row())];
      }
    }

    /** `_finalize_remote_failure`. */
    method FinalizePanelFailure(i: int, now: int, token: int, attemptNo: int)
      modifies this`configs
      ensures View() == CommitWork(old(View()), i, PanelFails(token, attemptNo), now, s)
    {
      if !(0 <= i < |configs|) || configs[i].panelTask.None? { return; }
      var task := new PanelTask(configs[i].panelTask.value);
      if !PanelOwnsLease(task.Row(), token, attemptNo) { return; }
      task.Retry(now, s.panelRetryBase);
      SavePanelTask(i, task);
      FailCurrentProvision(i, task);
    }

    /** `_record_compensation_success`. */
    method RecordCompensation(i: int, now: int, token: int, attemptNo: int)
      modifies this`configs
      ensures View() == CommitWork(old(View()), i, PanelCompensates(token, attemptNo), now, s)
    {
      if !(0 <= i < |configs|) || configs[i].panelTask.None? { return; }
      var c := configs[i];
      var task := new PanelTask(c.panelTask.value);
      if !PanelOwnsLease(task.Row(), token, attemptNo) { return; }
      var vpn := new VpnConfiguration(c.vpn);
      var completesCancelled := CanRevoke(vpn.Row()) && vpn.generation == task.generation + 1;
      var terminalLocally := task.generation != vpn.generation || vpn.desired == WantRevoked || IsTerminal(vpn.status);
      task.CompensationSucceeded(now, terminalLocally);
      if completesCancelled {
        var _ := vpn.Revoke(now);
        configs := configs[i := c.(vpn := vpn.Row(), audit := c.audit + [RevokedAudit(now)])];
      }
      SavePanelTask(i, task);
      FailCurrentProvision(i, task);
    }

    /** `_record_compensation_failure`. */
    method RecordCompensationFailure(i: int, now: int, token: int, attemptNo: int)
      modifies this`configs
      ensures View() == CommitWork(old(View()), i, PanelCompensationFails(token, attemptNo), now, s)
    {
      if !(0 <= i < |configs|) || configs[i].panelTask.None? { return; }
      var task := new PanelTask(configs[i].panelTask.value);
      if !PanelOwnsLease(task.Row(), token, attemptNo) { return; }
      task.RequireCompensation(now);
      SavePanelTask(i, task);
    }

    /** One iteration of the panel provision `recover_stale`. */
    method RecoverPanel(i: int, now: int) returns (recovered: bool)
      modifies this`configs
      ensures View() == CommitWork(old(View()), i, PanelRecovers, now, s)
      ensures recovered == StalePanelLease(old(View()), ProvisionRef(i), now)
    {
      if !(0 <= i < |configs|) || configs[i].panelTask.None? { return false; }
      var task := new PanelTask(configs[i].panelTask.value);
      recovered := task.RecoverProvisionLease(now);
      SavePanelTask(i, task);
    }

    // -------------------------------------------------------------- panel revocation

    method SavePanelRevoke(i: int, g: int, task: PanelTask)
      requires 0 <= i < |configs|
      modifies this`configs
      ensures configs == old(configs)[i := PutPanelRevoke(old(configs)[i], g, task.Row())]
    {
      configs := configs[i := configs[i].(panelRevokes := configs[i].panelRevokes[g := task.Row()])];
    }

    method PreparePanelRevoke(i: int, g: int, now: int, token: int) returns (leased: bool)
      modifies this`configs
      ensures View() == CommitWork(old(View()), i, PanelRevokePrepares(g, token), now, s)
      ensures leased <==> DuePanelTask(old(View()), RevokeRef(i, g), now)
    {
      if !(0 <= i < |configs|) || g !in configs[i].panelRevokes { return false; }
      var task := new PanelTask(configs[i].panelRevokes[g]);
      leased := task.StartAttempt(now, now + s.panelLease, token);
      if leased { SavePanelRevoke(i, g, task); }
    }

    method FinalizePanelRevoke(i: int, g: int, now: int, token: int, attemptNo: int)
      modifies this`configs
      ensures View() == CommitWork(old(View()), i, PanelRevokeSucceeds(g, token, attemptNo), now, s)
    {
      if !(0 <= i < |configs|) || g !in configs[i].panelRevokes { return; }
      var task := new PanelTask(configs[i].panelRevokes[g]);
      if !PanelOwnsActiveLease(task.Row(), token, attemptNo, now) { return; }
      var _ := task.Complete(now);
      SavePanelRevoke(i, g, task);
      var vpn := new VpnConfiguration(configs[i].vpn);
      if g == vpn.generation && vpn.desired == WantRevoked && vpn.status == Revoking {
        var _ := vpn.Revoke(now);
        configs := configs[i := configs[i].(vpn := vpn.Row(), audit := configs[i].audit + [RevokedAudit(now)])];
      }
    }

    method FailPanelRevoke(i: int, g: int, now: int, token: int, attemptNo: int)
      modifies this`configs
      ensures View() == CommitWork(old(View()), i, PanelRevokeFails(g, token, attemptNo), now, s)
    {
      if !(0 <= i < |configs|) || g !in configs[i].panelRevokes { return; }
      var task := new PanelTask(configs[i].panelRevokes[g]);
      if !PanelOwnsLease(task.Row(), token, attemptNo) { return; }
      task.Retry(now, s.panelRetryBase);
      SavePanelRevoke(i, g, task);
      var vpn := new VpnConfiguration(configs[i].vpn);
      if task.status == TaskFailed && g == vpn.generation && vpn.desired == WantRevoked && vpn.status == Revoking {
        var _ := vpn.FailRevoke();
        configs := configs[i := configs[i].(vpn := vpn.Row())];
      }
    }

    method RecoverPanelRevoke(i: int, g: int, now: int) returns (recovered: bool)
      modifies this`configs
      ensures View() == CommitWork(old(View()), i, PanelRevokeRecovers(g), now, s)
      ensures recovered == StalePanelLease(old(View()), RevokeRef(i, g), now)
    {
      if !(0 <= i < |configs|) || g !in configs[i].panelRevokes { return false; }
      var task := new PanelTask(configs[i].panelRevokes[g]);
      recovered := task.RecoverRevokeLease(now);
      if recovered { SavePanelRevoke(i, g, task); }
    }

    method RecoverPanelTask(r: PanelRef, now: int) returns (recovered: bool)
      modifies this`configs
      ensures View() == CommitWork(old(View()), r.config, PanelRecovery(r), now, s)
      ensures recovered == StalePanelLease(old(View()), r, now)
      ensures forall q :: StalePanelLease(View(), q, now) <==> StalePanelLease(old(View()), q, now) && q != r
    {
      ghost var before := View();
      match r
      case ProvisionRef(i) => recovered := RecoverPanel(i, now);
      case RevokeRef(i, g) => recovered := RecoverPanelRevoke(i, g, now);
      forall q ensures StalePanelLease(View(), q, now) <==> StalePanelLease(before, q, now) && q != r {
        PanelRecoveryStaleness(before, r, now, s, q);
      }
    }

    /** The `recover_stale` loop of both panel dispatchers: afterwards no listed lease is stale. */
    method RecoverStalePanels(refs: seq<PanelRef>, now: int) returns (requeue: seq<PanelRef>)
      modifies this`configs
      ensures View() == PanelsRecovered(old(View()), refs, now, s)
      ensures forall q :: StalePanelLease(View(), q, now) <==> StalePanelLease(old(View()), q, now) && q !in refs
      ensures forall q :: q in requeue <==> q in refs && StalePanelLease(old(View()), q, now)
    {
      hide StalePanelLease, CommitWork;
      requeue := [];
      for n := 0 to |refs|
        invariant View() == PanelsRecovered(old(View()), refs[..n], now, s)
        invariant forall q :: StalePanelLease(View(), q, now) <==> StalePanelLease(old(View()), q, now) && q !in refs[..n]
        invariant forall q :: q in requeue <==> q in refs[..n] && StalePanelLease(old(View()), q, now)
      {
        assert refs[..n + 1][..n] == refs[..n] && refs[..n + 1] == refs[..n] + [refs[n]];
        ghost var was := requeue;
        var recovered := RecoverPanelTask(refs[n], now);
        if recovered { requeue := requeue + [refs[n]]; }
        assert forall q :: q in requeue <==> q in was || (recovered && q == refs[n]);
      }
      assert refs[..|refs|] == refs;
    }

    // -------------------------------------------------------------- requests

    /** `RevokeVpn._prepare_plan`. */
    method RequestRevoke(i: int, reason: RevokeReason, now: int)
      modifies this`configs
      ensures View() == Revoke(old(View()), i, reason, now, s)
    {
      if !(0 <= i < |configs|) { return; }
      var c := configs[i];
      if reason == Expiration {
        if c.subscription !in subs { return; }
        if subs[c.subscription].active && Funded(subs[c.subscription], now) { return; }
      }
      var existing := ExistingRevoke(c);
      var vpn := new VpnConfiguration(c.vpn);
      if existing == Some(Succeeded) && CanRevoke(c.vpn) {
        var _ := vpn.Revoke(now);
        configs := configs[i := c.(vpn := vpn.Row(), audit := c.audit + [RevokedAudit(now)])];
        return;
      }
      if existing.Some? && (vpn.status == Revoking || (vpn.status == Failed && vpn.desired == WantRevoked)) { return; }
      if IsTerminal(vpn.status) { return; }
      if vpn.status == Active {
        var _ := vpn.BeginRevoke();
      } else if vpn.status == RevokeFailed {
        var _ := vpn.RetryRevoke();
      } else if vpn.status == Provisioning {
        var _ := vpn.CancelProvisioningForRevoke();
      } else if vpn.status == Failed {
        var _ := vpn.RequestCleanupFromFailed();
      }
      c := c.(vpn := vpn.Row());
      if c.node.Some? {
        c := AddNodeTask(c, TaskKey(RevokeClient, vpn.generation), s.nodeMaxAttempts, now);
      } else {
        c := AddPanelRevoke(c, s.panelMaxAttempts, now);
      }
      configs := configs[i := c];
    }

    /** `_select_endpoint`: choose on the snapshot, then confirm on the row read under the node lock. */
    method ChoosePlace(snapshot: seq<Candidate>, ticket: int, panelEndpoint: Option<int>, now: int) returns (place: Placement)
      requires TicketDrawn(snapshot, ticket, now, s.staleAfter)
      ensures place == SelectEndpoint(View(), snapshot, ticket, panelEndpoint, now, s)
    {
      var selected := SelectNode(snapshot, now, s.staleAfter, ticket);
      if selected.Some? {
        var row := CandidateRow(View(), selected.value.node, selected.value.endpoint);
        if row.Some? && Eligible(row.value, now, s.staleAfter) { return At(row.value.endpoint, Some(row.value.node)); }
        return Nowhere;
      }
      if snapshot == [] && panelEndpoint.Some? && panelEndpoint.value in fleet.endpoints
         && fleet.endpoints[panelEndpoint.value] == EndpointRow(None, true) {
        return At(panelEndpoint.value, None);
      }
      place := Nowhere;
    }

    /** `ProvisionVpn._prepare_plan`. */
    method RequestProvision(sub: int, now: int, snapshot: seq<Candidate>, ticket: int, panelEndpoint: Option<int>)
      requires TicketDrawn(snapshot, ticket, now, s.staleAfter)
      modifies this`configs
      ensures View() == Provision(old(View()), sub, now, snapshot, ticket, panelEndpoint, s)
    {
      if sub !in subs || !subs[sub].active || !Funded(subs[sub], now) { return; }
      if HasActive(configs, sub) { return; }
      var latest := Latest(configs, sub);
      if latest.Some? && !IsTerminal(configs[latest.value].vpn.status) {
        if configs[latest.value].vpn.status == Provisioning {
          configs := configs[latest.value := ReuseProvisioning(configs[latest.value], now, s)];
        }
        return;
      }
      var place := ChoosePlace(snapshot, ticket, panelEndpoint, now);
      if place.At? {
        configs := configs + [FreshConfig(sub, place.endpoint, place.node, now, s)];
      }
    }
  }
}
