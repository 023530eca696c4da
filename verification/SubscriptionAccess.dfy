/**
 The stored subscriptions and periods, and the transactions on them: activation of a paid order,
 withdrawal of a refunded one, and the reconciler's expiry. `None` is a transaction that the
 table's check constraint rolls back.
 */
module SubscriptionAccess {
  import opened Common
  import opened SubscriptionEntity

  datatype Access = Access(subs: seq<SubRow>, periods: seq<PeriodRow>)

  // ---------------------------------------------------------------- queries

  /** The user's active subscription. */
  function ActiveOf(subs: seq<SubRow>, user: int): (r: Option<int>)
    ensures r.Some? ==> 0 <= r.value < |subs| && subs[r.value].user == user && subs[r.value].status == SubActive
    ensures r.None? ==> forall i :: 0 <= i < |subs| && subs[i].user == user ==> subs[i].status != SubActive
  {
    if subs == [] then None
    else
      var last := |subs| - 1;
      if subs[last].user == user && subs[last].status == SubActive then Some(last) else ActiveOf(subs[..last], user)
  }

  /** The latest end among all periods of a subscription, funded or not. */
  function LastEnd(periods: seq<PeriodRow>, sub: int): (r: Option<int>)
    ensures r.Some? ==> forall i :: 0 <= i < |periods| && periods[i].sub == sub ==> periods[i].end <= r.value
    ensures r.Some? ==> exists i :: 0 <= i < |periods| && periods[i].sub == sub && periods[i].end == r.value
    ensures r.None? ==> forall i :: 0 <= i < |periods| ==> periods[i].sub != sub
  {
    if periods == [] then None
    else
      var last := |periods| - 1;
      var rest := LastEnd(periods[..last], sub);
      if periods[last].sub != sub || (rest.Some? && rest.value > periods[last].end) then rest else Some(periods[last].end)
  }

  predicate HasCurrent(a: Access, sub: int, now: int) {
    exists i :: 0 <= i < |a.periods| && a.periods[i].sub == sub && Contains(a.periods[i], now)
  }

  predicate HasFundedAfter(a: Access, sub: int, now: int) {
    exists i :: 0 <= i < |a.periods| && a.periods[i].sub == sub && a.periods[i].paid && now < a.periods[i].end
  }

  /** The period that carries an order. */
  function PeriodOf(periods: seq<PeriodRow>, order: int): (r: Option<int>)
    ensures r.Some? ==> 0 <= r.value < |periods| && periods[r.value].order == Some(order)
    ensures r.None? <==> forall i :: 0 <= i < |periods| ==> periods[i].order != Some(order)
  {
    if periods == [] then None
    else
      var last := |periods| - 1;
      if periods[last].order == Some(order) then Some(last) else PeriodOf(periods[..last], order)
  }

  // ---------------------------------------------------------------- transactions

  function NewPeriod(sub: int, start: int, days: int, order: int): PeriodRow {
    PeriodRow(sub, start, start + days * DAY, true, Some(order))
  }

  function EndSub(a: Access, i: int, now: int): Option<Access>
    requires 0 <= i < |a.subs|
  {
    var s := Expired(a.subs[i], now);
    if Storable(s) then Some(a.(subs := a.subs[i := s])) else None
  }

  /** `ActivateSubscription.execute`. */
  function Activate(a: Access, user: int, tariff: int, days: int, now: int, order: int): Option<Access> {
    var active := ActiveOf(a.subs, user);
    if active.Some? && a.subs[active.value].tariff == tariff then
      var i := active.value;
      Some(a.(periods := a.periods + [NewPeriod(i, StartAt(now, LastEnd(a.periods, i)), days, order)]))
    else
      var cleared := if active.Some? then EndSub(a, active.value, now) else Some(a);
      if cleared.None? then None
      else
        var subs := cleared.value.subs;
        Some(Access(subs + [StartedSub(user, tariff, now)], a.periods + [NewPeriod(|subs|, now, days, order)]))
  }

  /** The entitlement part of a full refund. */
  function Withdraw(a: Access, p: int, now: int): Option<Access>
    requires 0 <= p < |a.periods|
  {
    var b := a.(periods := a.periods[p := a.periods[p].(paid := false)]);
    var sub := a.periods[p].sub;
    if !(0 <= sub < |b.subs|) || HasFundedAfter(b, sub, now) then Some(b) else EndSub(b, sub, now)
  }

  /** `_expire_subscription`: a subscription without a current funded period ends. */
  function Lapse(a: Access, i: int, now: int): Option<Access> {
    if !(0 <= i < |a.subs|) || a.subs[i].status != SubActive || HasCurrent(a, i, now) then Some(a) else EndSub(a, i, now)
  }

  // ---------------------------------------------------------------- what they keep

  /** Within one subscription, each period starts no earlier than every older one ends. */
  ghost predicate Chained(periods: seq<PeriodRow>) {
    forall i, j :: 0 <= i < j < |periods| && periods[i].sub == periods[j].sub ==> periods[i].end <= periods[j].start
  }

  ghost predicate OneActive(subs: seq<SubRow>) {
    forall i, j :: 0 <= i < j < |subs| && subs[i].user == subs[j].user ==> subs[i].status != SubActive || subs[j].status != SubActive
  }

  ghost predicate OrdersDistinct(periods: seq<PeriodRow>) {
    forall i, j :: 0 <= i < j < |periods| ==> periods[i].order != periods[j].order
  }

  ghost predicate AccessInv(a: Access) {
    && (forall i :: 0 <= i < |a.periods| ==> 0 <= a.periods[i].sub < |a.subs| && a.periods[i].start < a.periods[i].end)
    && Chained(a.periods) && OneActive(a.subs) && OrdersDistinct(a.periods)
  }

  /** Existing rows only ever lose their funding, and subscriptions keep their owner. */
  ghost predicate Extends(a: Access, b: Access) {
    && |a.subs| <= |b.subs| && |a.periods| <= |b.periods|
    && (forall i :: 0 <= i < |a.subs| ==> b.subs[i].user == a.subs[i].user && b.subs[i].tariff == a.subs[i].tariff)
    && (forall i :: 0 <= i < |a.periods| ==>
          b.periods[i] == a.periods[i] || b.periods[i] == a.periods[i].(paid := false))
  }

  lemma AppendPeriodKeepsInv(a: Access, sub: int, start: int, days: int, order: int)
    requires AccessInv(a) && 0 <= sub < |a.subs| && days > 0
    requires PeriodOf(a.periods, order).None?
    requires forall i :: 0 <= i < |a.periods| && a.periods[i].sub == sub ==> a.periods[i].end <= start
    ensures AccessInv(a.(periods := a.periods + [NewPeriod(sub, start, days, order)]))
  {
  }

  /** `b` is `a` with one more funded period of the purchased length, on a subscription of the buyer and tariff. */
  ghost predicate Activated(a: Access, b: Access, user: int, tariff: int, days: int, now: int, order: int) {
    && AccessInv(b) && Extends(a, b)
    && |b.periods| == |a.periods| + 1 && b.periods[..|a.periods|] == a.periods
    && (var p := b.periods[|a.periods|];
        && p.order == Some(order) && p.paid && now <= p.start && p.end - p.start == days * DAY
        && b.subs[p.sub].user == user && b.subs[p.sub].tariff == tariff && b.subs[p.sub].status == SubActive)
  }

  /** A new subscription next to ended ones. */
  lemma StartedKeepsInv(a: Access, user: int, tariff: int, now: int)
    requires AccessInv(a) && ActiveOf(a.subs, user).None?
    ensures var b := a.(subs := a.subs + [StartedSub(user, tariff, now)]); AccessInv(b) && Extends(a, b)
  {
  }

  lemma ReplacedKeepsInv(a: Access, user: int, now: int)
    requires AccessInv(a) && ActiveOf(a.subs, user).Some?
    ensures var r := EndSub(a, ActiveOf(a.subs, user).value, now);
      r.Some? ==> AccessInv(r.value) && Extends(a, r.value) && ActiveOf(r.value.subs, user).None? && r.value.periods == a.periods
  {
  }

  lemma AppendActivates(a: Access, b: Access, sub: int, start: int, days: int, now: int, order: int)
    requires AccessInv(b) && Extends(a, b) && b.periods == a.periods
    requires 0 <= sub < |b.subs| && b.subs[sub].status == SubActive && days > 0 && now <= start
    requires PeriodOf(b.periods, order).None?
    requires forall i :: 0 <= i < |b.periods| && b.periods[i].sub == sub ==> b.periods[i].end <= start
    ensures Activated(a, b.(periods := b.periods + [NewPeriod(sub, start, days, order)]),
                      b.subs[sub].user, b.subs[sub].tariff, days, now, order)
  {
    AppendPeriodKeepsInv(b, sub, start, days, order);
    hide AccessInv, PeriodOf;
    var p := NewPeriod(sub, start, days, order);
    assert (b.periods + [p])[..|a.periods|] == a.periods && (b.periods + [p])[|a.periods|] == p;
    assert Extends(a, b.(periods := b.periods + [p]));
    hide Extends;
  }

  lemma ExtendsReflexively(a: Access)
    ensures Extends(a, a)
  {
  }

  /** The branches that begin a subscription: with none active, or replacing one of another tariff. */
  lemma BeginKeepsInv(a: Access, b: Access, user: int, tariff: int, days: int, now: int, order: int)
    requires AccessInv(b) && Extends(a, b) && b.periods == a.periods && ActiveOf(b.subs, user).None?
    requires days > 0 && PeriodOf(a.periods, order).None?
    ensures Activated(a, Access(b.subs + [StartedSub(user, tariff, now)], a.periods + [NewPeriod(|b.subs|, now, days, order)]),
                      user, tariff, days, now, order)
  {
    StartedKeepsInv(b, user, tariff, now);
    var grown := b.(subs := b.subs + [StartedSub(user, tariff, now)]);
    assert forall i :: 0 <= i < |b.periods| ==> b.periods[i].sub < |b.subs|;
    hide AccessInv, PeriodOf, ActiveOf;
    assert Extends(a, grown);
    AppendActivates(a, grown, |b.subs|, now, days, now, order);
  }

  /** Activation appends exactly one funded period of the purchased length, to a subscription of the buyer and tariff. */
  lemma ActivateKeepsInv(a: Access, user: int, tariff: int, days: int, now: int, order: int)
    requires AccessInv(a) && days > 0 && PeriodOf(a.periods, order).None?
    ensures var r := Activate(a, user, tariff, days, now, order);
      r.Some? ==> Activated(a, r.value, user, tariff, days, now, order)
  {
    hide AccessInv, Extends, EndSub, PeriodOf, Activated;
    ExtendsReflexively(a);
    var active := ActiveOf(a.subs, user);
    if active.Some? && a.subs[active.value].tariff == tariff {
      AppendActivates(a, a, active.value, StartAt(now, LastEnd(a.periods, active.value)), days, now, order);
    } else if active.Some? {
      ReplacedKeepsInv(a, user, now);
      var cleared := EndSub(a, active.value, now);
      if cleared.Some? { BeginKeepsInv(a, cleared.value, user, tariff, days, now, order); }
    } else {
      BeginKeepsInv(a, a, user, tariff, days, now, order);
    }
  }

  lemma EndSubKeepsInv(a: Access, i: int, now: int)
    requires AccessInv(a) && 0 <= i < |a.subs|
    ensures EndSub(a, i, now).Some? ==> AccessInv(EndSub(a, i, now).value) && Extends(a, EndSub(a, i, now).value)
  {
  }

  lemma WithdrawKeepsInv(a: Access, p: int, now: int)
    requires AccessInv(a) && 0 <= p < |a.periods|
    ensures Withdraw(a, p, now).Some? ==>
      && AccessInv(Withdraw(a, p, now).value) && Extends(a, Withdraw(a, p, now).value)
      && Withdraw(a, p, now).value.periods == a.periods[p := a.periods[p].(paid := false)]
  {
    var b := a.(periods := a.periods[p := a.periods[p].(paid := false)]);
    assert AccessInv(b);
    EndSubKeepsInv(b, a.periods[p].sub, now);
  }

  lemma LapseKeepsInv(a: Access, i: int, now: int)
    requires AccessInv(a)
    ensures Lapse(a, i, now).Some? ==>
      AccessInv(Lapse(a, i, now).value) && Extends(a, Lapse(a, i, now).value) && Lapse(a, i, now).value.periods == a.periods
  {
    if 0 <= i < |a.subs| { EndSubKeepsInv(a, i, now); }
  }

  // ---------------------------------------------------------------- funded time

  /** Periods of one subscription never overlap, so at most one funded period contains any instant. */
  lemma OneFundedPeriodAtATime(a: Access, i: int, j: int, moment: int)
    requires AccessInv(a) && 0 <= i < |a.periods| && 0 <= j < |a.periods| && a.periods[i].sub == a.periods[j].sub
    requires Contains(a.periods[i], moment) && Contains(a.periods[j], moment)
    ensures i == j
  {
  }

  function Instants(p: PeriodRow): set<int> {
    set t: int | p.start <= t < p.end && Spans(p, t)
  }

  /** Every instant at which the subscription has access. */
  function FundedInstants(periods: seq<PeriodRow>, sub: int): set<int> {
    if periods == [] then {}
    else
      var last := periods[|periods| - 1];
      var rest := FundedInstants(periods[..|periods| - 1], sub);
      if last.sub == sub && last.paid then rest + Instants(last) else rest
  }

  lemma {:induction false} FundedInstantsExact(a: Access, sub: int, t: int)
    ensures t in FundedInstants(a.periods, sub) <==> HasCurrent(a, sub, t)
    decreases |a.periods|
  {
    if a.periods != [] {
      var n := |a.periods| - 1;
      var b := a.(periods := a.periods[..n]);
      FundedInstantsExact(b, sub, t);
      if HasCurrent(b, sub, t) {
        var i :| 0 <= i < n && b.periods[i].sub == sub && Contains(b.periods[i], t);
        assert a.periods[i] == b.periods[i];
      }
      if HasCurrent(a, sub, t) && !(a.periods[n].sub == sub && Contains(a.periods[n], t)) {
        var i :| 0 <= i < |a.periods| && a.periods[i].sub == sub && Contains(a.periods[i], t);
        assert b.periods[i] == a.periods[i];
      }
    }
  }

  function Length(p: PeriodRow, sub: int): int {
    if p.sub == sub && p.paid then p.end - p.start else 0
  }

  function FundedSeconds(periods: seq<PeriodRow>, sub: int): int {
    if periods == [] then 0
    else FundedSeconds(periods[..|periods| - 1], sub) + Length(periods[|periods| - 1], sub)
  }

  lemma OlderInstantsAreDisjoint(a: Access, n: int, sub: int)
    requires Chained(a.periods) && 0 <= n < |a.periods| && a.periods[n].sub == sub
    ensures FundedInstants(a.periods[..n], sub) !! Instants(a.periods[n])
  {
    hide FundedInstants;
    var b := a.(periods := a.periods[..n]);
    forall t | t in FundedInstants(b.periods, sub) ensures t !in Instants(a.periods[n]) {
      FundedInstantsExact(b, sub, t);
      var i :| 0 <= i < n && b.periods[i].sub == sub && Contains(b.periods[i], t);
      assert a.periods[i].end <= a.periods[n].start;
    }
  }

  /** No second is paid twice: the number of accessible instants is the sum of the funded periods' lengths. */
  lemma {:induction false} FundedTimeIsAdditive(a: Access, sub: int)
    requires Chained(a.periods) && forall i :: 0 <= i < |a.periods| ==> a.periods[i].start < a.periods[i].end
    ensures |FundedInstants(a.periods, sub)| == FundedSeconds(a.periods, sub)
    decreases |a.periods|
  {
    if a.periods != [] {
      var n := |a.periods| - 1;
      var p := a.periods[n];
      var b := a.(periods := a.periods[..n]);
      FundedTimeIsAdditive(b, sub);
      if p.sub == sub && p.paid {
        IntervalSize(p.start, p.end, Instants(p));
        OlderInstantsAreDisjoint(a, n, sub);
      }
      hide Chained, Instants;
    }
  }
}
