/**
 Node availability, capacity and the weighted choice of a node.
 */
module NodeSelection {
  import opened Common

  datatype Health = HealthUnknown | Online | Offline | Degraded | Unrecognised

  datatype Candidate = Candidate(
    node: int,
    endpoint: int,
    health: Health,
    enabled: bool,
    lastChecked: Option<int>,
    activeClients: Option<int>,
    maxClients: Option<int>,
    weight: int,
    reserved: int)

  function EffectiveClients(c: Candidate): int {
    Max(Max(if c.activeClients.Some? then c.activeClients.value else 0, 0), Max(c.reserved, 0))
  }

  predicate AllowsOperation(
    staleAfter: int, health: Health, enabled: bool, lastChecked: Option<int>, now: int, requireEnabled: bool)
  {
    && (requireEnabled ==> enabled)
    && lastChecked.Some?
    && now - staleAfter <= lastChecked.value
    && (health == Online || health == Degraded)
  }

  predicate Eligible(c: Candidate, now: int, staleAfter: int) {
    && c.maxClients.Some?
    && c.maxClients.value > 0
    && AllowsOperation(staleAfter, c.health, c.enabled, c.lastChecked, now, true)
    && EffectiveClients(c) < c.maxClients.value
  }

  /** Eligible candidates with one health, in input order. */
  function EligibleWith(cs: seq<Candidate>, now: int, staleAfter: int, h: Health): (r: seq<Candidate>)
    ensures forall c :: c in r <==> c in cs && Eligible(c, now, staleAfter) && c.health == h
  {
    if cs == [] then []
    else
      var rest := EligibleWith(cs[..|cs| - 1], now, staleAfter, h);
      var c := cs[|cs| - 1];
      if Eligible(c, now, staleAfter) && c.health == h then rest + [c] else rest
  }

  /** Degraded nodes are a fallback for an empty online pool. */
  function Pool(cs: seq<Candidate>, now: int, staleAfter: int): seq<Candidate> {
    var online := EligibleWith(cs, now, staleAfter, Online);
    if online != [] then online else EligibleWith(cs, now, staleAfter, Degraded)
  }

  predicate KeyLe(a: Candidate, b: Candidate) {
    a.node < b.node || (a.node == b.node && a.endpoint <= b.endpoint)
  }

  ghost predicate Ordered(s: seq<Candidate>) {
    forall i, j :: 0 <= i < j < |s| ==> KeyLe(s[i], s[j])
  }

  function InsertByKey(c: Candidate, s: seq<Candidate>): (r: seq<Candidate>)
    ensures forall x :: x in r <==> x == c || x in s
  {
    if s == [] then [c]
    else if KeyLe(c, s[0]) then [c] + s
    else [s[0]] + InsertByKey(c, s[1..])
  }

  lemma {:induction false} InsertKeepsOrder(c: Candidate, s: seq<Candidate>)
    requires Ordered(s)
    ensures Ordered(InsertByKey(c, s))
  {
    if s != [] && !KeyLe(c, s[0]) {
      InsertKeepsOrder(c, s[1..]);
      var tail := InsertByKey(c, s[1..]);
      forall j | 0 <= j < |tail| ensures KeyLe(s[0], tail[j]) {
        assert tail[j] in tail;
      }
    }
  }

  /** The stable sort by (node, endpoint). */
  function SortByKey(s: seq<Candidate>): (r: seq<Candidate>)
    ensures forall x :: x in r <==> x in s
    ensures Ordered(r)
  {
    if s == [] then []
    else
      var tail := SortByKey(s[1..]);
      InsertKeepsOrder(s[0], tail);
      InsertByKey(s[0], tail)
  }

  /** Keeps the first candidate of every node (`setdefault` over the sorted pool). */
  function FirstPerNode(s: seq<Candidate>): seq<Candidate> {
    if s == [] then []
    else
      var kept := FirstPerNode(s[..|s| - 1]);
      var c := s[|s| - 1];
      if Offered(kept, c.node) then kept else kept + [c]
  }

  function Representatives(pool: seq<Candidate>): seq<Candidate> {
    FirstPerNode(SortByKey(pool))
  }

  function Weight(c: Candidate): (w: int)
    ensures w >= 1
  {
    Max(1, c.weight)
  }

  function TotalWeight(nodes: seq<Candidate>): (t: int)
    ensures t >= |nodes|
  {
    if nodes == [] then 0 else TotalWeight(nodes[..|nodes| - 1]) + Weight(nodes[|nodes| - 1])
  }

  lemma {:induction false} TotalWeightMonotone(nodes: seq<Candidate>, i: int, j: int)
    requires 0 <= i <= j <= |nodes|
    ensures TotalWeight(nodes[..i]) + (j - i) <= TotalWeight(nodes[..j])
  {
    if i < j {
      TotalWeightMonotone(nodes, i, j - 1);
      assert nodes[..j][..j - 1] == nodes[..j - 1];
    }
  }

  /** `node` is pooled, and `c` is what the selector must offer for it. */
  ghost predicate Represents(pool: seq<Candidate>, c: Candidate) {
    c in pool && forall d :: d in pool && d.node == c.node ==> c.endpoint <= d.endpoint
  }

  /** `r` offers exactly one candidate per node of `s`, in increasing node order. */
  ghost predicate OnePerNode(s: seq<Candidate>, r: seq<Candidate>) {
    && (forall i :: 0 <= i < |r| ==> Represents(s, r[i]))
    && (forall i, j :: 0 <= i < j < |r| ==> r[i].node < r[j].node)
    && (forall c :: c in s ==> Offered(r, c.node))
  }

  predicate Offered(r: seq<Candidate>, node: int) {
    exists i :: 0 <= i < |r| && r[i].node == node
  }

  lemma OnePerNodeStep(p: seq<Candidate>, kept: seq<Candidate>, c: Candidate)
    requires OnePerNode(p, kept)
    requires forall d :: d in p ==> KeyLe(d, c)
    ensures OnePerNode(p + [c], if Offered(kept, c.node) then kept else kept + [c])
  {
    var r := if Offered(kept, c.node) then kept else kept + [c];
    forall i | 0 <= i < |r| ensures Represents(p + [c], r[i]) {
      assert i < |kept| ==> Represents(p, kept[i]);
      if i == |kept| {
        forall d | d in p ensures d.node != c.node {
          assert Offered(kept, d.node);
        }
      }
    }
    forall i | 0 <= i < |kept| ensures kept[i].node <= c.node {
      assert Represents(p, kept[i]);
    }
    forall d | d in p + [c] ensures Offered(r, d.node) {
      if d in p {
        var i :| 0 <= i < |kept| && kept[i].node == d.node;
        assert r[i].node == d.node;
      } else if !Offered(kept, c.node) {
        assert r[|kept|].node == d.node;
      }
    }
  }

  /** Of an ordered pool, exactly one candidate per node survives, the one with the smallest endpoint. */
  lemma {:induction false} FirstPerNodeExact(s: seq<Candidate>)
    requires Ordered(s)
    ensures OnePerNode(s, FirstPerNode(s))
  {
    if s != [] {
      var p, c := s[..|s| - 1], s[|s| - 1];
      assert s == p + [c];
      FirstPerNodeExact(p);
      OnePerNodeStep(p, FirstPerNode(p), c);
    }
  }

  /** Eligible, one per pooled node, smallest endpoint, and degraded nodes only without an online one. */
  lemma RepresentativesExact(cs: seq<Candidate>, now: int, staleAfter: int)
    ensures var pool := Pool(cs, now, staleAfter);
      var r := Representatives(pool);
      && OnePerNode(pool, r)
      && (r == [] <==> forall c :: c in cs ==> !Eligible(c, now, staleAfter))
      && (forall c :: c in pool ==> c in cs && Eligible(c, now, staleAfter))
      && (forall c, d :: c in pool && d in cs && c.health == Degraded && Eligible(d, now, staleAfter)
           ==> d.health == Degraded)
      && (forall c :: c in cs && Eligible(c, now, staleAfter) && c !in pool ==>
           c.health == Degraded && exists d :: d in cs && Eligible(d, now, staleAfter) && d.health == Online)
  {
    var pool := Pool(cs, now, staleAfter);
    var sorted := SortByKey(pool);
    var r := Representatives(pool);
    var online := EligibleWith(cs, now, staleAfter, Online);
    assert online != [] ==> online[0] in cs && online[0] in online;
    FirstPerNodeExact(sorted);
    forall i | 0 <= i < |r| ensures Represents(pool, r[i]) {
      assert Represents(sorted, r[i]);
    }
    forall c | c in cs && Eligible(c, now, staleAfter) ensures r != [] && (c.health == Online ==> c in pool) {
      assert c in EligibleWith(cs, now, staleAfter, c.health);
      assert pool[0] in sorted;
      assert Offered(r, pool[0].node);
    }
    if r != [] {
      assert Represents(pool, r[0]);
    }
  }

  /** Index of the node a ticket falls on: the first whose cumulative weight exceeds it. */
  function PickIndex(nodes: seq<Candidate>, ticket: int): (i: int)
    requires 0 <= ticket < TotalWeight(nodes)
    ensures 0 <= i < |nodes|
    ensures TotalWeight(nodes[..i]) <= ticket < TotalWeight(nodes[..i + 1])
  {
    var last := |nodes| - 1;
    assert nodes[..last + 1] == nodes;
    if TotalWeight(nodes[..last]) <= ticket then last
    else
      var i := PickIndex(nodes[..last], ticket);
      assert nodes[..last][..i] == nodes[..i] && nodes[..last][..i + 1] == nodes[..i + 1];
      i
  }

  lemma PickIndexUnique(nodes: seq<Candidate>, ticket: int, i: int)
    requires 0 <= ticket < TotalWeight(nodes)
    requires 0 <= i < |nodes|
    requires TotalWeight(nodes[..i]) <= ticket < TotalWeight(nodes[..i + 1])
    ensures PickIndex(nodes, ticket) == i
  {
    var k := PickIndex(nodes, ticket);
    if k < i { TotalWeightMonotone(nodes, k + 1, i); }
    if i < k { TotalWeightMonotone(nodes, i + 1, k); }
  }

  /** The bound handed to the random source. */
  function TicketCount(cs: seq<Candidate>, now: int, staleAfter: int): (t: int)
    ensures t >= 0
  {
    TotalWeight(Representatives(Pool(cs, now, staleAfter)))
  }

  /** The random source keeps to its bound; without a pooled node it is not asked. */
  predicate TicketDrawn(cs: seq<Candidate>, ticket: int, now: int, staleAfter: int) {
    0 <= ticket < TicketCount(cs, now, staleAfter) || TicketCount(cs, now, staleAfter) == 0
  }

  function Select(cs: seq<Candidate>, now: int, staleAfter: int, ticket: int): (r: Option<Candidate>)
    requires TicketDrawn(cs, ticket, now, staleAfter)
  {
    var nodes := Representatives(Pool(cs, now, staleAfter));
    if TotalWeight(nodes) == 0 then None else Some(nodes[PickIndex(nodes, ticket)])
  }

  lemma IndexInterval(nodes: seq<Candidate>, i: int)
    requires 0 <= i < |nodes|
    ensures 0 <= TotalWeight(nodes[..i])
    ensures TotalWeight(nodes[..i + 1]) == TotalWeight(nodes[..i]) + Weight(nodes[i]) <= TotalWeight(nodes)
    ensures forall t :: 0 <= t < TotalWeight(nodes) ==>
      (PickIndex(nodes, t) == i <==> TotalWeight(nodes[..i]) <= t < TotalWeight(nodes[..i + 1]))
  {
    assert nodes[..i + 1][..i] == nodes[..i];
    TotalWeightMonotone(nodes, i + 1, |nodes|);
    assert nodes[..|nodes|] == nodes;
    forall t | 0 <= t < TotalWeight(nodes) && TotalWeight(nodes[..i]) <= t < TotalWeight(nodes[..i + 1])
      ensures PickIndex(nodes, t) == i
    {
      PickIndexUnique(nodes, t, i);
    }
  }

  /** Distinct nodes share out the tickets by weight. */
  lemma ShareOfTickets(nodes: seq<Candidate>, i: int, chosen: set<int>)
    requires 0 <= i < |nodes|
    requires forall j, k :: 0 <= j < k < |nodes| ==> nodes[j].node < nodes[k].node
    requires forall t :: t in chosen <==> 0 <= t < TotalWeight(nodes) && nodes[PickIndex(nodes, t)] == nodes[i]
    ensures |chosen| == Weight(nodes[i])
  {
    IndexInterval(nodes, i);
    var lo, hi := TotalWeight(nodes[..i]), TotalWeight(nodes[..i + 1]);
    forall t ensures t in chosen <==> lo <= t < hi {
      if 0 <= t < TotalWeight(nodes) {
        var k := PickIndex(nodes, t);
        assert k < i ==> nodes[k].node < nodes[i].node;
        assert i < k ==> nodes[i].node < nodes[k].node;
      }
    }
    IntervalSize(lo, hi, chosen);
  }

  /** The tickets that select one candidate. */
  function TicketsFor(cs: seq<Candidate>, now: int, staleAfter: int, c: Candidate): set<int> {
    set t: int | 0 <= t < TicketCount(cs, now, staleAfter) && Select(cs, now, staleAfter, t) == Some(c)
  }

  lemma WeightOfNode(cs: seq<Candidate>, now: int, staleAfter: int, i: int)
    requires 0 <= i < |Representatives(Pool(cs, now, staleAfter))|
    ensures var c := Representatives(Pool(cs, now, staleAfter))[i];
      |TicketsFor(cs, now, staleAfter, c)| == Weight(c)
  {
    var nodes := Representatives(Pool(cs, now, staleAfter));
    RepresentativesExact(cs, now, staleAfter);
    hide Representatives, Pool, PickIndex;
    forall t
      ensures t in TicketsFor(cs, now, staleAfter, nodes[i])
         <==> 0 <= t < TotalWeight(nodes) && nodes[PickIndex(nodes, t)] == nodes[i]
    {
      if 0 <= t < TotalWeight(nodes) {
        assert Select(cs, now, staleAfter, t) == Some(nodes[PickIndex(nodes, t)]);
      }
    }
    ShareOfTickets(nodes, i, TicketsFor(cs, now, staleAfter, nodes[i]));
  }

  /**
   Weighted selection is exact: out of all tickets, the number that choose a pooled node is
   its weight, and every ticket chooses the representative of some pooled node.
   */
  lemma SelectionIsExact(cs: seq<Candidate>, now: int, staleAfter: int)
    ensures var nodes := Representatives(Pool(cs, now, staleAfter));
      && (forall i :: 0 <= i < |nodes| ==>
           |TicketsFor(cs, now, staleAfter, nodes[i])| == if nodes[i].weight < 1 then 1 else nodes[i].weight)
      && (forall t :: 0 <= t < TicketCount(cs, now, staleAfter) ==>
           Select(cs, now, staleAfter, t).Some? && Select(cs, now, staleAfter, t).value in nodes)
  {
    var nodes := Representatives(Pool(cs, now, staleAfter));
    hide Representatives, Pool;
    forall i | 0 <= i < |nodes| ensures |TicketsFor(cs, now, staleAfter, nodes[i])| == Weight(nodes[i]) {
      WeightOfNode(cs, now, staleAfter, i);
    }
  }

  method BuildPool(cs: seq<Candidate>, now: int, staleAfter: int) returns (pool: seq<Candidate>)
    ensures pool == Pool(cs, now, staleAfter)
  {
    var online, degraded := [], [];
    for k := 0 to |cs|
      invariant online == EligibleWith(cs[..k], now, staleAfter, Online)
      invariant degraded == EligibleWith(cs[..k], now, staleAfter, Degraded)
    {
      assert cs[..k + 1][..k] == cs[..k];
      if Eligible(cs[k], now, staleAfter) {
        if cs[k].health == Online { online := online + [cs[k]]; }
        if cs[k].health == Degraded { degraded := degraded + [cs[k]]; }
      }
    }
    assert cs[..|cs|] == cs;
    pool := if online != [] then online else degraded;
  }

  /** `setdefault` over the sorted pool. */
  method BuildNodes(sorted: seq<Candidate>) returns (nodes: seq<Candidate>)
    ensures nodes == FirstPerNode(sorted)
  {
    nodes := [];
    for k := 0 to |sorted|
      invariant nodes == FirstPerNode(sorted[..k])
    {
      assert sorted[..k + 1][..k] == sorted[..k];
      if !Offered(nodes, sorted[k].node) {
        nodes := nodes + [sorted[k]];
      }
    }
    assert sorted[..|sorted|] == sorted;
  }

  /** The cumulative loop: the first node whose running total exceeds the ticket. */
  method PickByTicket(nodes: seq<Candidate>, ticket: int) returns (r: Option<Candidate>)
    requires 0 <= ticket < TotalWeight(nodes)
    ensures r == Some(nodes[PickIndex(nodes, ticket)])
  {
    hide PickIndex;
    assert nodes[..|nodes|] == nodes;
    var cumulative := 0;
    for k := 0 to |nodes|
      invariant cumulative == TotalWeight(nodes[..k])
      invariant cumulative <= ticket
    {
      assert nodes[..k + 1][..k] == nodes[..k];
      cumulative := cumulative + Max(1, nodes[k].weight);
      if ticket < cumulative {
        PickIndexUnique(nodes, ticket, k);
        return Some(nodes[k]);
      }
    }
    assert false;  // the final `return nodes[-1]` of the source is never reached
    r := None;
  }

  /** Enabled, up, checked recently, and with a limit above both the reported and the reserved clients. */
  predicate Fit(c: Candidate, now: int, staleAfter: int) {
    && c.enabled && (c.health == Online || c.health == Degraded)
    && c.lastChecked.Some? && now <= c.lastChecked.value + staleAfter
    && c.maxClients.Some? && 0 < c.maxClients.value && c.reserved < c.maxClients.value
    && (c.activeClients.Some? ==> c.activeClients.value < c.maxClients.value)
  }

  /** `WeightedNodeSelector.select`, with the random ticket as an argument. */
  method SelectNode(cs: seq<Candidate>, now: int, staleAfter: int, ticket: int) returns (r: Option<Candidate>)
    requires TicketDrawn(cs, ticket, now, staleAfter)
    ensures r == Select(cs, now, staleAfter, ticket)
    ensures r.None? <==> forall c :: c in cs ==> !Fit(c, now, staleAfter)
    ensures r.Some? ==> Fit(r.value, now, staleAfter) && Represents(Pool(cs, now, staleAfter), r.value)
  {
    assert forall c :: Fit(c, now, staleAfter) <==> Eligible(c, now, staleAfter);
    hide Fit;
    RepresentativesExact(cs, now, staleAfter);
    var pool := BuildPool(cs, now, staleAfter);
    var nodes := BuildNodes(SortByKey(pool));
    assert nodes == Representatives(Pool(cs, now, staleAfter));
    hide Representatives, Pool, Eligible, PickIndex;
    if nodes == [] { return None; }
    r := PickByTicket(nodes, ticket);
  }
}
