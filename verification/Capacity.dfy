/**
 Capacity safety: what provisioners acting on stale snapshots can do to a node's reservations.
 */
module Capacity {
  import opened Common
  import opened VpnEntity
  import opened NodeTaskEntity
  import opened NodeSelection
  import opened Transactions
  import opened Lifecycle
  import opened ControlPlane
  import opened ControlPlaneSafety

  // ---------------------------------------------------------------- reservations

  lemma {:induction false} ReservedPut(configs: seq<Config>, i: int, c: Config, node: int)
    requires 0 <= i < |configs| && (Reserves(c, node) ==> Reserves(configs[i], node))
    ensures Reserved(configs[i := c], node) <= Reserved(configs, node)
  {
    var last := |configs| - 1;
    if i == last {
      assert configs[i := c][..last] == configs[..last];
    } else {
      assert configs[i := c][..last] == configs[..last][i := c];
      ReservedPut(configs[..last], i, c, node);
    }
  }

  predicate TakesRoom(c: Config, node: int) {
    c.node == Some(node) && !(c.vpn.status == Revoked || c.vpn.status == Expired || c.vpn.status == Disabled)
  }

  /** The configurations on a node that are not terminal. */
  function Reserving(configs: seq<Config>, node: int): set<int> {
    set i: int | 0 <= i < |configs| && TakesRoom(configs[i], node)
  }

  /** A reservation is a configuration on the node that is not terminal, each counted once. */
  lemma {:induction false} ReservedCounts(configs: seq<Config>, node: int)
    ensures Reserved(configs, node) == |Reserving(configs, node)|
  {
    if configs != [] {
      var n := |configs| - 1;
      ReservedCounts(configs[..n], node);
      assert TakesRoom(configs[n], node) <==> Reserves(configs[n], node);
      hide TakesRoom, Reserves;
      var before := Reserving(configs[..n], node);
      forall i ensures i in Reserving(configs, node) <==> i in before || (i == n && TakesRoom(configs[n], node)) {}
      assert Reserving(configs, node) == if TakesRoom(configs[n], node) then before + {n} else before;
    }
  }

  /** The configured limit of a node, where it has one. */
  predicate RoomLeft(w: World, node: int) {
    && node in w.fleet.nodes
    && w.fleet.nodes[node].maxClients.Some?
    && Reserved(w.configs, node) < w.fleet.nodes[node].maxClients.value
  }

  /** Only the locked, revalidated creation raises a reservation count, by one, and only below the limit read then. */
  lemma StepReservations(w: World, step: Step, s: Settings, node: int)
    requires Inv(w)
    ensures var w' := Apply(w, step, s);
      || Reserved(w'.configs, node) <= Reserved(w.configs, node)
      || (Reserved(w'.configs, node) == Reserved(w.configs, node) + 1 && RoomLeft(w, node))
  {
    hide ConfigInv, Perform, RevokePlan;
    match step
    case RequestProvision(sub, now, snapshot, ticket, panelEndpoint) =>
      if TicketDrawn(snapshot, ticket, now, s.staleAfter) {
        var plan := PlanProvision(w, sub, now);
        if plan.Reuse? {
          ReuseIsNoOp(w.configs[plan.config], now, s);
          ReservedPut(w.configs, plan.config, w.configs[plan.config], node);
        } else if plan.Create? {
          CreateReservation(w, sub, now, snapshot, ticket, panelEndpoint, s, node);
        }
      }
    case RequestRevoke(i, reason, now) =>
      if 0 <= i < |w.configs| {
        RevokePlanKeepsIdentity(w.configs[i], now, s);
        ReservedPut(w.configs, i, RevokePlan(w.configs[i], now, s), node);
      }
    case WorkerCommits(i, work, now) =>
      if 0 <= i < |w.configs| {
        var funded := SubFunded(w, w.configs[i].subscription, now);
        WorkKeepsIdentity(w.configs[i], work, now, funded, s);
        ReservedPut(w.configs, i, Perform(w.configs[i], work, now, funded, s), node);
      }
    case EntitlementsChange(subs) =>
    case FleetChange(fleet) =>
  }

  lemma CreateReservation(
    w: World, sub: int, now: int, snapshot: seq<Candidate>, ticket: int, panelEndpoint: Option<int>, s: Settings, node: int)
    requires TicketDrawn(snapshot, ticket, now, s.staleAfter) && PlanProvision(w, sub, now) == Create
    ensures var w' := Provision(w, sub, now, snapshot, ticket, panelEndpoint, s);
      || Reserved(w'.configs, node) == Reserved(w.configs, node)
      || (Reserved(w'.configs, node) == Reserved(w.configs, node) + 1 && RoomLeft(w, node))
  {
    var place := SelectEndpoint(w, snapshot, ticket, panelEndpoint, now, s);
    if place.At? {
      var created := FreshConfig(sub, place.endpoint, place.node, now, s);
      assert (w.configs + [created])[..|w.configs|] == w.configs;
      assert created.node == place.node;
    }
  }

  /** The limits a node was ever given in a run. */
  ghost predicate LimitedTo(steps: seq<Step>, node: int, limit: int) {
    forall i :: 0 <= i < |steps| && steps[i].FleetChange? ==>
      node in steps[i].fleet.nodes && steps[i].fleet.nodes[node].maxClients.Some? ==>
        steps[i].fleet.nodes[node].maxClients.value <= limit
  }

  lemma {:induction false} FleetLimit(steps: seq<Step>, s: Settings, node: int, limit: int)
    requires LimitedTo(steps, node, limit)
    ensures var f := Run(steps, s).fleet;
      node in f.nodes && f.nodes[node].maxClients.Some? ==> f.nodes[node].maxClients.value <= limit
  {
    if steps != [] {
      var p := steps[..|steps| - 1];
      assert LimitedTo(p, node, limit);
      FleetLimit(p, s, node, limit);
      hide ConfigInv, Perform, RevokePlan, Provision;
      assert steps[|steps| - 1].FleetChange? || Run(steps, s).fleet == Run(p, s).fleet by {
        ProvisionKeepsFleet(Run(p, s), steps[|steps| - 1], s);
      }
    }
  }

  lemma ProvisionKeepsFleet(w: World, step: Step, s: Settings)
    ensures step.FleetChange? || Apply(w, step, s).fleet == w.fleet
  {
  }

  /**
   Capacity safety: however provisioners with stale snapshots interleave, the reserving
   configurations of a node never exceed the largest limit the node was ever given.
   */
  lemma {:induction false} CapacityNeverExceeded(steps: seq<Step>, s: Settings, node: int, limit: int)
    requires limit >= 0 && LimitedTo(steps, node, limit)
    ensures Reserved(Run(steps, s).configs, node) <= limit
  {
    if steps != [] {
      var p := steps[..|steps| - 1];
      assert LimitedTo(p, node, limit);
      CapacityNeverExceeded(p, s, node, limit);
      FleetLimit(p, s, node, limit);
      RunInv(p, s);
      StepReservations(Run(p, s), steps[|steps| - 1], s, node);
    }
  }
}
