/**
 Node-backed configurations together with the clients on their nodes. An operation that an agent
 has started may take effect at any later time, also after it was given up, any number of times, or
 never. One fact about the node's runtime is assumed: an operation that reports an accepted status
 has taken effect before.
 */
module NodeClients {
  import opened Common
  import opened VpnEntity
  import opened NodeTaskEntity
  import opened Transactions
  import opened Lifecycle
  import opened ControlPlane
  import opened ControlPlaneSafety
  import Journal
  import opened AgentAgreement

  datatype Site = Site(
    net: Net,
    calls: map<int, Handler>,    // every operation ever started, by owner token
    acted: set<int>,             // those that have taken effect
    reached: set<OpKey>,         // their keys
    clients: set<int>)           // the configurations whose client exists

  datatype SiteStep =
    | Travels(step: NetStep)
    | Acts(token: int)      // the runtime call of an operation takes effect
    | Cleans(token: int)    // so does the cleanup of a reclaimed provisioning

  const BARE := Site(QUIET, map[], {}, {}, {})

  function Key(site: Site, token: int): OpKey
    requires token in site.calls
  {
    site.calls[token].key
  }

  /** An operation ends with an accepted status only after it has taken effect; owner tokens are fresh. */
  predicate Possible(site: Site, step: NetStep) {
    match step
    case RequestArrives(_, _, token) => token !in site.calls
    case OperationEnds(token, cleanup, result) =>
      token in site.net.handlers && Accepted(site.net.handlers[token], RuntimeOutcome(site.net.handlers[token], cleanup, result))
      ==> token in site.acted
    case _ => true
  }

  /** The step lets a client exist. */
  predicate Creates(site: Site, step: SiteStep, i: int) {
    step.Acts? && step.token in site.calls && Key(site, step.token).config == i && Key(site, step.token).task.op == ProvisionClient
  }

  /** The step takes a client away: a revoke, or the cleanup of a reclaimed provisioning. */
  predicate Deletes(site: Site, step: SiteStep, i: int) {
    && !step.Travels? && step.token in site.calls && Key(site, step.token).config == i
    && (if step.Acts? then Key(site, step.token).task.op == RevokeClient
        else Key(site, step.token).task.op == ProvisionClient && site.calls[step.token].reclaimed)
  }

  function SiteNext(site: Site, step: SiteStep, lease: int, s: Settings): Site {
    match step
    case Travels(st) =>
      if Possible(site, st) then
        var net := AgentAgreement.Next(site.net, st, lease, s);
        site.(net := net,
              calls := if st.RequestArrives? && st.token in net.handlers && st.token !in site.net.handlers
                       then site.calls[st.token := net.handlers[st.token]] else site.calls)
      else site
    case Acts(token) =>
      if token in site.calls then
        var i := Key(site, token).config;
        site.(acted := site.acted + {token}, reached := site.reached + {Key(site, token)},
              clients := if Creates(site, step, i) then site.clients + {i} else site.clients - {i})
      else site
    case Cleans(token) =>
      if token in site.calls && Deletes(site, step, Key(site, token).config)
      then site.(clients := site.clients - {Key(site, token).config}) else site
  }

  function SiteRun(steps: seq<SiteStep>, lease: int, s: Settings): Site {
    if steps == [] then BARE
    else SiteNext(SiteRun(steps[..|steps| - 1], lease, s), steps[|steps| - 1], lease, s)
  }

  // ---------------------------------------------------------------- what every run keeps

  /** Operations were asked for by the control plane, and what is journaled, answered or stored has taken effect. */
  ghost predicate SiteInv(site: Site) {
    && AgreementInv(site.net)
    && (forall t :: t in site.net.handlers ==> t in site.calls && site.calls[t] == site.net.handlers[t])
    && (forall t :: t in site.calls ==> site.calls[t].key in site.net.requests)
    && (forall key :: key in site.net.requests ==> TaskOf(site.net.world, key).Some?)
    && (forall t :: t in site.acted ==> t in site.calls && site.calls[t].key in site.reached)
    && Grounded(site)
  }

  ghost predicate Grounded(site: Site) {
    && (forall key :: key in site.net.journal && site.net.journal[key].state.Done? ==> key in site.reached)
    && (forall a :: a in site.net.answers && Accepts(a.key.task.op, a.response.status) ==> a.key in site.reached)
    && (forall key :: TaskOf(site.net.world, key).Some? && TaskOf(site.net.world, key).value.status == Succeeded ==>
          key in site.reached)
  }

  lemma ControlKeepsSite(site: Site, st: Step, lease: int, s: Settings)
    requires SiteInv(site)
    ensures SiteInv(SiteNext(site, Travels(Control(st)), lease, s))
  {
    hide Inv, ControlPlane.Apply, Accepts, Journal.ClaimOutcome, Journal.AfterClaim, RuntimeOutcome, JournalAfter, AnswerOf;
    var n := site.net;
    var n' := AgentAgreement.Next(n, Control(st), lease, s);
    ControlKeepsAgreement(n, st, lease, s);
    assert Inv(n.world);
    hide AgreementInv;
    forall key | key in n'.requests ensures TaskOf(n'.world, key).Some? {
      if key in n.requests { StepEvolves(n.world, st, s, key); }
    }
    forall key | TaskOf(n'.world, key).Some? && TaskOf(n'.world, key).value.status == Succeeded ensures key in site.reached {
      if TaskOf(n.world, key).Some? { StepEvolves(n.world, st, s, key); } else { NewTaskIsOpen(n.world, st, s, key); }
    }
  }

  /** What the arrival of a request does. */
  lemma RequestEffect(n: Net, key: OpKey, now: int, token: int, lease: int, s: Settings)
    ensures var n' := AgentAgreement.Next(n, RequestArrives(key, now, token), lease, s);
      && n'.world == n.world && n'.requests == n.requests
      && (n'.handlers == n.handlers
          || (key in n.requests && token in n'.handlers && n'.handlers[token].key == key
              && n'.handlers == n.handlers[token := n'.handlers[token]]))
      && (forall k :: k in n'.journal && n'.journal[k].state.Done? ==> k in n.journal && n.journal[k].state.Done?)
      && (forall a :: a in n'.answers && a !in n.answers ==> a.key in n.journal && n.journal[a.key].state.Done?)
  {
  }

  lemma RequestKeepsSite(site: Site, key: OpKey, now: int, token: int, lease: int, s: Settings)
    requires SiteInv(site)
    ensures SiteInv(SiteNext(site, Travels(RequestArrives(key, now, token)), lease, s))
  {
    hide AgreementInv, TaskOf, AgentAgreement.Next, Accepts, RuntimeOutcome;
    AgentKeepsAgreement(site.net, RequestArrives(key, now, token), lease, s);
    RequestEffect(site.net, key, now, token, lease, s);
  }

  lemma EndKeepsSite(site: Site, step: NetStep, lease: int, s: Settings)
    requires SiteInv(site) && step.OperationEnds?
    ensures SiteInv(SiteNext(site, Travels(step), lease, s))
  {
    hide AgreementInv, TaskOf, RuntimeOutcome, ControlPlane.Apply, Journal.ClaimOutcome, Journal.AfterClaim, Leased, AnswerArrived;
    AgentKeepsAgreement(site.net, step, lease, s);
  }

  lemma RetirementKeepsSite(site: Site, step: NetStep, lease: int, s: Settings)
    requires SiteInv(site) && (step.RetirementSent? || step.RetirementArrives?)
    ensures SiteInv(SiteNext(site, Travels(step), lease, s))
  {
    hide AgreementInv, TaskOf, Retirable, ControlPlane.Apply, Journal.ClaimOutcome, Journal.AfterClaim, JournalAfter, AnswerOf,
      Accepts, RuntimeOutcome, Leased, AnswerArrived;
    AgentKeepsAgreement(site.net, step, lease, s);
  }

  lemma EffectKeepsSite(site: Site, step: SiteStep, lease: int, s: Settings)
    requires SiteInv(site) && !step.Travels?
    ensures SiteInv(SiteNext(site, step, lease, s))
  {
    hide AgreementInv;
  }

  lemma {:induction false} SiteRunInv(steps: seq<SiteStep>, lease: int, s: Settings)
    ensures SiteInv(SiteRun(steps, lease, s))
  {
    if steps == [] {
      AgreementRunInv([], lease, s);
      hide AgreementInv;
    } else {
      var p, step := steps[..|steps| - 1], steps[|steps| - 1];
      SiteRunInv(p, lease, s);
      hide SiteInv, SiteNext;
      var site := SiteRun(p, lease, s);
      if !step.Travels? { EffectKeepsSite(site, step, lease, s); }
      else if step.step.Control? { ControlKeepsSite(site, step.step.step, lease, s); }
      else if step.step.RequestArrives? {
        RequestKeepsSite(site, step.step.key, step.step.now, step.step.token, lease, s);
      } else if step.step.OperationEnds? { EndKeepsSite(site, step.step, lease, s); }
      else { RetirementKeepsSite(site, step.step, lease, s); }
    }
  }

  // ---------------------------------------------------------------- the last effect decides

  ghost predicate CreatedAt(steps: seq<SiteStep>, q: int, i: int, lease: int, s: Settings) {
    0 <= q < |steps| && Creates(SiteRun(steps[..q], lease, s), steps[q], i)
  }

  ghost predicate DeletedAt(steps: seq<SiteStep>, q: int, i: int, lease: int, s: Settings) {
    0 <= q < |steps| && Deletes(SiteRun(steps[..q], lease, s), steps[q], i)
  }

  /** A client was created at step `q` and not deleted since. */
  ghost predicate CreatedLast(steps: seq<SiteStep>, q: int, i: int, lease: int, s: Settings) {
    CreatedAt(steps, q, i, lease, s) && forall r :: DeletedAt(steps, r, i, lease, s) ==> r < q
  }

  ghost predicate DeletedLast(steps: seq<SiteStep>, q: int, i: int, lease: int, s: Settings) {
    DeletedAt(steps, q, i, lease, s) && forall r :: CreatedAt(steps, r, i, lease, s) ==> r < q
  }

  lemma EffectsOfPrefix(steps: seq<SiteStep>, q: int, i: int, lease: int, s: Settings)
    requires 0 <= q < |steps| - 1
    ensures var p := steps[..|steps| - 1];
      && (CreatedAt(p, q, i, lease, s) <==> CreatedAt(steps, q, i, lease, s))
      && (DeletedAt(p, q, i, lease, s) <==> DeletedAt(steps, q, i, lease, s))
  {
    var p := steps[..|steps| - 1];
    assert p[..q] == steps[..q] && p[q] == steps[q];
    hide SiteRun;
  }

  /** What one step does to the client of configuration `i`. */
  lemma ClientStep(site: Site, step: SiteStep, lease: int, s: Settings, i: int)
    ensures var site' := SiteNext(site, step, lease, s);
      i in site'.clients <==> Creates(site, step, i) || (i in site.clients && !Deletes(site, step, i))
  {
  }

  /** A client exists if and only if it was created and not deleted since. */
  lemma {:induction false} ClientExistsExactlyWhen(steps: seq<SiteStep>, i: int, lease: int, s: Settings)
    ensures i in SiteRun(steps, lease, s).clients <==> exists q :: CreatedLast(steps, q, i, lease, s)
    decreases |steps|
  {
    if steps != [] {
      var last := |steps| - 1;
      var p := steps[..last];
      ClientExistsExactlyWhen(p, i, lease, s);
      ClientStep(SiteRun(p, lease, s), steps[last], lease, s, i);
      assert SiteRun(steps, lease, s) == SiteNext(SiteRun(p, lease, s), steps[last], lease, s);
      forall q | 0 <= q < last
        ensures CreatedAt(p, q, i, lease, s) <==> CreatedAt(steps, q, i, lease, s)
        ensures DeletedAt(p, q, i, lease, s) <==> DeletedAt(steps, q, i, lease, s)
      {
        EffectsOfPrefix(steps, q, i, lease, s);
      }
      hide SiteRun, SiteNext, Creates, Deletes;
      if Creates(SiteRun(p, lease, s), steps[last], i) {
        assert CreatedLast(steps, last, i, lease, s);
      } else if Deletes(SiteRun(p, lease, s), steps[last], i) {
        assert DeletedAt(steps, last, i, lease, s);
      } else {
        forall q ensures CreatedLast(p, q, i, lease, s) <==> CreatedLast(steps, q, i, lease, s) {}
      }
    }
  }

  /** An operation that has taken effect did so at some step. */
  lemma {:induction false} ReachedAt(steps: seq<SiteStep>, key: OpKey, lease: int, s: Settings) returns (q: int)
    requires key in SiteRun(steps, lease, s).reached
    ensures if key.task.op == ProvisionClient then CreatedAt(steps, q, key.config, lease, s) else DeletedAt(steps, q, key.config, lease, s)
    decreases |steps|
  {
    q := |steps| - 1;
    var p := steps[..q];
    if key in SiteRun(p, lease, s).reached {
      q := ReachedAt(p, key, lease, s);
      EffectsOfPrefix(steps, q, key.config, lease, s);
    }
    hide AgentAgreement.Next;
  }

  // ---------------------------------------------------------------- finished configurations

  /** Configuration `i` is on a node and has this status. */
  ghost predicate OnNode(site: Site, i: int, status: VpnStatus) {
    var configs := site.net.world.configs;
    0 <= i < |configs| && configs[i].node.Some? && configs[i].vpn.status == status
  }

  /** The tasks of an ACTIVE or REVOKED configuration that have taken effect, and that exist. */
  lemma TasksByStatus(site: Site, i: int)
    requires SiteInv(site)
    ensures OnNode(site, i, Revoked) ==> exists g :: OpKey(i, TaskKey(RevokeClient, g)) in site.reached
    ensures OnNode(site, i, Active) ==> OpKey(i, TaskKey(ProvisionClient, 1)) in site.reached
    ensures OnNode(site, i, Active) ==> forall k :: TaskOf(site.net.world, OpKey(i, k)).Some? ==> k.op == ProvisionClient
  {
    if OnNode(site, i, Revoked) || OnNode(site, i, Active) {
      var c := site.net.world.configs[i];
      assert ConfigInv(c);
      var k := CurrentKey(c.vpn.generation);
      assert KnownKey(c, k);
      assert TaskOf(site.net.world, OpKey(i, k)) == Some(c.nodeTasks[k].task);
    }
  }

  /**
   A REVOKED node configuration had its client deleted. One is left behind if and only if a
   provisioning call took effect after the last deletion.
   */
  lemma LeftBehindExactlyWhen(steps: seq<SiteStep>, i: int, lease: int, s: Settings)
    requires OnNode(SiteRun(steps, lease, s), i, Revoked)
    ensures exists r :: DeletedAt(steps, r, i, lease, s)
    ensures i in SiteRun(steps, lease, s).clients <==> exists q :: CreatedLast(steps, q, i, lease, s)
  {
    SiteRunInv(steps, lease, s);
    hide SiteRun, SiteInv, CreatedLast;
    TasksByStatus(SiteRun(steps, lease, s), i);
    var g :| OpKey(i, TaskKey(RevokeClient, g)) in SiteRun(steps, lease, s).reached;
    var r := ReachedAt(steps, OpKey(i, TaskKey(RevokeClient, g)), lease, s);
    ClientExistsExactlyWhen(steps, i, lease, s);
  }

  /** Operations once started stay known. */
  lemma {:induction false} CallsStay(steps: seq<SiteStep>, q: int, token: int, lease: int, s: Settings)
    requires 0 <= q <= |steps| && token in SiteRun(steps[..q], lease, s).calls
    ensures token in SiteRun(steps, lease, s).calls
    ensures SiteRun(steps, lease, s).calls[token] == SiteRun(steps[..q], lease, s).calls[token]
    decreases |steps|
  {
    if q < |steps| {
      var p := steps[..|steps| - 1];
      assert p[..q] == steps[..q];
      CallsStay(p, q, token, lease, s);
      hide AgentAgreement.Next;
    } else {
      assert steps[..q] == steps;
    }
  }

  /** Only cleanups of reclaimed provisionings ever delete the client of an ACTIVE configuration. */
  lemma OnlyCleanups(steps: seq<SiteStep>, i: int, r: int, lease: int, s: Settings)
    requires OnNode(SiteRun(steps, lease, s), i, Active) && DeletedAt(steps, r, i, lease, s)
    ensures steps[r].Cleans?
  {
    var site := SiteRun(steps, lease, s);
    SiteRunInv(steps, lease, s);
    TasksByStatus(site, i);
    CallsStay(steps, r, steps[r].token, lease, s);
    var key := site.calls[steps[r].token].key;
    assert key in site.net.requests;
    hide SiteRun, AgreementInv, TaskOf;
    assert key == OpKey(i, key.task);
  }

  lemma {:induction false} LastCreation(steps: seq<SiteStep>, n: int, i: int, lease: int, s: Settings) returns (q: int)
    requires 0 <= n <= |steps| && exists q :: q < n && CreatedAt(steps, q, i, lease, s)
    ensures q < n && CreatedAt(steps, q, i, lease, s)
    ensures forall r :: q < r < n ==> !CreatedAt(steps, r, i, lease, s)
    decreases n
  {
    hide Creates;
    if CreatedAt(steps, n - 1, i, lease, s) { q := n - 1; } else { q := LastCreation(steps, n - 1, i, lease, s); }
  }

  lemma NotBoth(site: Site, step: SiteStep, i: int)
    ensures !(Creates(site, step, i) && Deletes(site, step, i))
  {
  }

  /** Where a client was ever created, it is missing if and only if it was deleted and not created since. */
  lemma MissingExactlyWhen(steps: seq<SiteStep>, i: int, c: int, lease: int, s: Settings)
    requires CreatedAt(steps, c, i, lease, s)
    ensures i !in SiteRun(steps, lease, s).clients <==> exists r :: DeletedLast(steps, r, i, lease, s)
  {
    hide SiteRun, Creates, Deletes;
    ClientExistsExactlyWhen(steps, i, lease, s);
    var q := LastCreation(steps, |steps|, i, lease, s);
    NotBoth(SiteRun(steps[..q], lease, s), steps[q], i);
    assert !DeletedAt(steps, q, i, lease, s);
    assert forall r :: CreatedAt(steps, r, i, lease, s) ==> r <= q;
    hide CreatedAt, DeletedAt;
    if !CreatedLast(steps, q, i, lease, s) {
      var r :| DeletedAt(steps, r, i, lease, s) && !(r < q);
      assert DeletedLast(steps, r, i, lease, s);
    }
  }

  /**
   An ACTIVE node configuration had its client created. It is missing if and only if the cleanup of a
   reclaimed provisioning took effect after the last creation; nothing else ever deletes it.
   */
  lemma ServedExactlyWhen(steps: seq<SiteStep>, i: int, lease: int, s: Settings)
    requires OnNode(SiteRun(steps, lease, s), i, Active)
    ensures exists q :: CreatedAt(steps, q, i, lease, s)
    ensures i !in SiteRun(steps, lease, s).clients <==> exists r :: DeletedLast(steps, r, i, lease, s)
    ensures forall r :: DeletedAt(steps, r, i, lease, s) ==> steps[r].Cleans?
  {
    SiteRunInv(steps, lease, s);
    hide SiteRun, SiteInv, DeletedLast;
    TasksByStatus(SiteRun(steps, lease, s), i);
    var q := ReachedAt(steps, OpKey(i, TaskKey(ProvisionClient, 1)), lease, s);
    MissingExactlyWhen(steps, i, q, lease, s);
    forall r | DeletedAt(steps, r, i, lease, s) ensures steps[r].Cleans? { OnlyCleanups(steps, i, r, lease, s); }
  }
}
