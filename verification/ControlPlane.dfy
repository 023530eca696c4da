/**
 The whole control plane: entitlements, configurations and the node fleet, and every
 transaction that may commit, in any order. A run is a sequence of steps from the empty store.
 */
module ControlPlane {
  import opened Common
  import opened VpnEntity
  import opened NodeTaskEntity
  import opened PanelTaskEntity
  import opened NodeSelection
  import opened Transactions

  datatype AccessPeriod = AccessPeriod(start: int, end: int, paid: bool)

  datatype Entitlement = Entitlement(active: bool, periods: seq<AccessPeriod>)

  predicate Covers(p: AccessPeriod, now: int) {
    p.paid && p.start <= now < p.end
  }

  predicate Funded(e: Entitlement, now: int) {
    exists i :: 0 <= i < |e.periods| && Covers(e.periods[i], now)
  }

  datatype NodeRow = NodeRow(
    health: Health, enabled: bool, lastChecked: Option<int>,
    activeClients: Option<int>, maxClients: Option<int>, weight: int)

  /** An endpoint's node never changes; `enabled` covers the endpoint and its server. */
  datatype EndpointRow = EndpointRow(node: Option<int>, enabled: bool)

  datatype Fleet = Fleet(nodes: map<int, NodeRow>, endpoints: map<int, EndpointRow>)

  datatype World = World(subs: map<int, Entitlement>, configs: seq<Config>, fleet: Fleet)

  const EMPTY := World(map[], [], Fleet(map[], map[]))

  // ---------------------------------------------------------------- queries

  predicate HasActive(configs: seq<Config>, sub: int) {
    exists i :: 0 <= i < |configs| && configs[i].subscription == sub && configs[i].vpn.status == Active
  }

  /** The most recently created configuration of a subscription. */
  function Latest(configs: seq<Config>, sub: int): (r: Option<int>)
    ensures r.Some? ==> 0 <= r.value < |configs| && configs[r.value].subscription == sub
    ensures r.Some? ==> forall i :: r.value < i < |configs| ==> configs[i].subscription != sub
    ensures r.None? ==> forall i :: 0 <= i < |configs| ==> configs[i].subscription != sub
  {
    if configs == [] then None
    else if configs[|configs| - 1].subscription == sub then Some(|configs| - 1)
    else Latest(configs[..|configs| - 1], sub)
  }

  predicate Reserves(c: Config, node: int) {
    c.node == Some(node) && !IsTerminal(c.vpn.status)
  }

  /** Capacity-reserving configurations of a node. */
  function Reserved(configs: seq<Config>, node: int): (n: int)
    ensures n >= 0
  {
    if configs == [] then 0
    else Reserved(configs[..|configs| - 1], node) + (if Reserves(configs[|configs| - 1], node) then 1 else 0)
  }

  /** The candidate row of one endpoint, with reservations counted now. */
  function CandidateRow(w: World, node: int, endpoint: int): Option<Candidate> {
    if node in w.fleet.nodes && endpoint in w.fleet.endpoints
       && w.fleet.endpoints[endpoint] == EndpointRow(Some(node), true) then
      var n := w.fleet.nodes[node];
      Some(Candidate(node, endpoint, n.health, n.enabled, n.lastChecked, n.activeClients, n.maxClients, n.weight,
                     Reserved(w.configs, node)))
    else None
  }

  datatype Placement = Nowhere | At(endpoint: int, node: Option<int>)

  /**
   `_select_endpoint`: a choice made on a possibly stale snapshot, confirmed against the row
   read under the node lock. `panelEndpoint` is the first enabled endpoint without a node.
   */
  function SelectEndpoint(
    w: World, snapshot: seq<Candidate>, ticket: int, panelEndpoint: Option<int>, now: int, s: Settings): Placement
    requires TicketDrawn(snapshot, ticket, now, s.staleAfter)
  {
    var selected := Select(snapshot, now, s.staleAfter, ticket);
    if selected.Some? then
      var row := CandidateRow(w, selected.value.node, selected.value.endpoint);
      if row.Some? && Eligible(row.value, now, s.staleAfter) then At(row.value.endpoint, Some(row.value.node))
      else Nowhere
    else if snapshot == [] && panelEndpoint.Some? && panelEndpoint.value in w.fleet.endpoints
         && w.fleet.endpoints[panelEndpoint.value] == EndpointRow(None, true) then At(panelEndpoint.value, None)
    else Nowhere
  }

  // ---------------------------------------------------------------- steps

  datatype Step =
    | RequestProvision(sub: int, now: int, snapshot: seq<Candidate>, ticket: int, panelEndpoint: Option<int>)
    | RequestRevoke(config: int, reason: RevokeReason, now: int)
    | WorkerCommits(config: int, work: Work, now: int)
    | EntitlementsChange(subs: map<int, Entitlement>)
    | FleetChange(fleet: Fleet)

  function SubFunded(w: World, sub: int, now: int): bool {
    sub in w.subs && Funded(w.subs[sub], now)
  }

  function PutConfig(w: World, i: int, c: Config): World
    requires 0 <= i < |w.configs|
  {
    w.(configs := w.configs[i := c])
  }

  /** The configuration `ProvisionVpn._prepare_plan` works on: an existing one, a new one, or none. */
  datatype ProvisionPlan = NothingToDo | Reuse(config: int) | Create

  function PlanProvision(w: World, sub: int, now: int): (p: ProvisionPlan)
    ensures p.Reuse? ==> 0 <= p.config < |w.configs| && w.configs[p.config].vpn.status == Provisioning
  {
    if !(sub in w.subs && w.subs[sub].active && Funded(w.subs[sub], now)) then NothingToDo
    else if HasActive(w.configs, sub) then NothingToDo
    else
      var latest := Latest(w.configs, sub);
      if latest.None? || IsTerminal(w.configs[latest.value].vpn.status) then Create
      else if w.configs[latest.value].vpn.status == Provisioning then Reuse(latest.value)
      else NothingToDo
  }

  /** `ProvisionVpn._prepare_plan`. */
  function Provision(
    w: World, sub: int, now: int, snapshot: seq<Candidate>, ticket: int, panelEndpoint: Option<int>, s: Settings): World
    requires TicketDrawn(snapshot, ticket, now, s.staleAfter)
  {
    match PlanProvision(w, sub, now)
    case NothingToDo => w
    case Reuse(i) => PutConfig(w, i, ReuseProvisioning(w.configs[i], now, s))
    case Create =>
      var place := SelectEndpoint(w, snapshot, ticket, panelEndpoint, now, s);
      if place.Nowhere? then w
      else w.(configs := w.configs + [FreshConfig(sub, place.endpoint, place.node, now, s)])
  }

  /** `RevokeVpn._prepare_plan`: an expiry request is dropped while access is current. */
  function Revoke(w: World, i: int, reason: RevokeReason, now: int, s: Settings): World {
    if !(0 <= i < |w.configs|) then w
    else
      var sub := w.configs[i].subscription;
      if reason == Expiration && sub !in w.subs then w
      else if reason == Expiration && w.subs[sub].active && Funded(w.subs[sub], now) then w
      else PutConfig(w, i, RevokePlan(w.configs[i], now, s))
  }

  function CommitWork(w: World, i: int, work: Work, now: int, s: Settings): World {
    if !(0 <= i < |w.configs|) then w
    else PutConfig(w, i, Perform(w.configs[i], work, now, SubFunded(w, w.configs[i].subscription, now), s))
  }

  /**
   One committed transaction. Payments, refunds, renewals and the reconciler's expiry appear as
   arbitrary changes of the entitlements that keep every subscription row; health probes and
   administration appear as arbitrary changes of the fleet.
   */
  function Apply(w: World, step: Step, s: Settings): World {
    match step
    case RequestProvision(sub, now, snapshot, ticket, panelEndpoint) =>
      if TicketDrawn(snapshot, ticket, now, s.staleAfter) then Provision(w, sub, now, snapshot, ticket, panelEndpoint, s) else w
    case RequestRevoke(i, reason, now) => Revoke(w, i, reason, now, s)
    case WorkerCommits(i, work, now) => CommitWork(w, i, work, now, s)
    case EntitlementsChange(subs) => if w.subs.Keys <= subs.Keys then w.(subs := subs) else w
    case FleetChange(fleet) => w.(fleet := fleet)
  }

  /** The store after a run. */
  function Run(steps: seq<Step>, s: Settings): World {
    if steps == [] then EMPTY else Apply(Run(steps[..|steps| - 1], s), steps[|steps| - 1], s)
  }
}
