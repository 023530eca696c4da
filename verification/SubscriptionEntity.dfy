/**
 Subscriptions and their access periods, and the policy that turns a paid order into a period.
 Instants are seconds.
 */
module SubscriptionEntity {
  import opened Common

  const DAY := 86400

  datatype SubscriptionStatus = SubActive | SubEnded | SubCancelled | SubPaused

  datatype SubRow = SubRow(user: int, tariff: int, status: SubscriptionStatus, createdAt: int, endedAt: Option<int>)

  datatype PeriodRow = PeriodRow(sub: int, start: int, end: int, paid: bool, order: Option<int>)

  predicate Spans(p: PeriodRow, moment: int) {
    p.start <= moment < p.end
  }

  predicate Contains(p: PeriodRow, moment: int) {
    p.paid && Spans(p, moment)
  }

  function StartedSub(user: int, tariff: int, now: int): SubRow {
    SubRow(user, tariff, SubActive, now, None)
  }

  function Expired(s: SubRow, now: int): SubRow {
    if s.status == SubEnded then s else s.(status := SubEnded, endedAt := Some(now))
  }

  /** The check constraint on the table: a subscription does not end before it began. */
  predicate Storable(s: SubRow) {
    s.endedAt.Some? ==> s.createdAt <= s.endedAt.value
  }

  function StartAt(now: int, lastEnd: Option<int>): int {
    if lastEnd.Some? then Max(now, lastEnd.value) else now
  }

  class Subscription {
    const user: int
    const tariff: int
    const createdAt: int
    var status: SubscriptionStatus
    var endedAt: Option<int>

    function Row(): SubRow
      reads this
    {
      SubRow(user, tariff, status, createdAt, endedAt)
    }

    constructor (row: SubRow)
      ensures Row() == row
    {
      user := row.user;
      tariff := row.tariff;
      createdAt := row.createdAt;
      status := row.status;
      endedAt := row.endedAt;
    }

    method Activate() returns (ok: bool)
      modifies this
      ensures ok == old(status != SubCancelled)
      ensures Row() == if ok then old(Row()).(status := SubActive, endedAt := None) else old(Row())
    {
      if status == SubCancelled { return false; }
      status := SubActive;
      endedAt := None;
      ok := true;
    }

    method Expire(now: int)
      modifies this
      ensures Row() == Expired(old(Row()), now)
    {
      if status == SubEnded { return; }
      status := SubEnded;
      endedAt := Some(now);
    }

    /** The new period starts when the last one ends, but never in the past. */
    method Extend(id: int, days: int, now: int, lastEnd: Option<int>) returns (period: Option<PeriodRow>)
      modifies this
      ensures period.Some? == (days > 0 && old(status != SubCancelled))
      ensures period.Some? ==>
        period.value == PeriodRow(id, StartAt(now, lastEnd), StartAt(now, lastEnd) + days * DAY, true, None)
      ensures Row() == if period.Some? && old(status != SubActive) then old(Row()).(status := SubActive, endedAt := None)
                       else old(Row())
    {
      if days <= 0 { return None; }
      if status != SubActive {
        var ok := Activate();
        if !ok { return None; }
      }
      var start := now;
      if lastEnd.Some? && lastEnd.value > now { start := lastEnd.value; }
      period := Some(PeriodRow(id, start, start + days * DAY, true, None));
    }
  }

  datatype PolicyChoice = CreateSub | ReplaceSub | ExtendSub

  function PolicyFor(active: Option<SubRow>, tariff: int): PolicyChoice {
    if active.None? then CreateSub else if active.value.tariff != tariff then ReplaceSub else ExtendSub
  }

  /** `apply_paid_period`; `id` is the row the period will belong to. */
  method ApplyPaidPeriod(
    active: Subscription?, id: int, lastEnd: Option<int>, user: int, tariff: int, days: int, now: int)
    returns (subscription: Subscription, period: PeriodRow, choice: PolicyChoice)
    requires days > 0 && (active != null ==> active.status == SubActive)
    modifies active
    ensures choice == PolicyFor(if active == null then None else Some(old(active.Row())), tariff)
    ensures choice == ExtendSub ==> subscription == active && active.Row() == old(active.Row())
    ensures choice != ExtendSub ==> fresh(subscription) && subscription.Row() == StartedSub(user, tariff, now)
    ensures choice == ReplaceSub ==> active.Row() == Expired(old(active.Row()), now)
    ensures var start := if choice == ExtendSub then StartAt(now, lastEnd) else StartAt(now, if active == null then lastEnd else None);
      period == PeriodRow(id, start, start + days * DAY, true, None)
  {
    var last := lastEnd;
    if active == null {
      choice := CreateSub;
      subscription := new Subscription(StartedSub(user, tariff, now));
    } else if active.tariff != tariff {
      active.Expire(now);
      choice := ReplaceSub;
      subscription := new Subscription(StartedSub(user, tariff, now));
      last := None;
    } else {
      choice := ExtendSub;
      subscription := active;
    }
    var p := subscription.Extend(id, days, now, last);
    period := p.value;
  }
}
