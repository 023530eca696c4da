/**
 Exactly when a step of a run ends access, accepts a refund, claims or records an invoice, handles an
 event or adds a period. The conditions are written out on the rows before the step.
 */
module PaymentSteps {
  import opened Common
  import opened SubscriptionEntity
  import opened SubscriptionAccess
  import opened PaymentEntity
  import opened Payments
  import opened PaymentSafety
  import opened PaymentTheorems

  // ---------------------------------------------------------------- stored subscriptions

  /** A subscription is active without an end, or ended no earlier than it began. */
  ghost predicate Stored(a: Access) {
    forall i :: 0 <= i < |a.subs| ==>
      var r := a.subs[i];
      if r.status == SubActive then r.endedAt.None? else r.status == SubEnded && r.endedAt.Some? && r.createdAt <= r.endedAt.value
  }

  lemma ActivateKeepsStored(a: Access, user: int, tariff: int, days: int, now: int, order: int)
    requires Stored(a)
    ensures var r := Activate(a, user, tariff, days, now, order); r.Some? ==> Stored(r.value)
  {
    hide LastEnd;
  }

  lemma WithdrawKeepsStored(a: Access, p: int, now: int)
    requires Stored(a) && 0 <= p < |a.periods|
    ensures var r := Withdraw(a, p, now); r.Some? ==> Stored(r.value)
  {
    hide HasFundedAfter;
  }

  lemma SettleKeepsStored(b: Books, o: int, now: int)
    requires Stored(b.access) && 0 <= o < |b.orders|
    ensures var r := Settle(b, o, now); r.Some? ==> Stored(r.value.access)
  {
    ActivateKeepsStored(b.access, b.orders[o].user, b.orders[o].tariff, b.orders[o].days, now, o);
    hide Activate;
  }

  lemma ProcessKeepsStored(b: Books, e: int, now: int)
    requires Stored(b.access)
    ensures Stored(Process(b, e, now).access)
  {
    hide Settle, Withdraw, RefundSum, AddTx, LatestAttempt, SettlementValid, Stored;
    if Unhandled(b, e) && Resolves(b, b.events[e]) {
      var o := b.attempts[b.events[e].attempt.value].order;
      SettleKeepsStored(b, o, now);
      var p := PeriodOf(b.access.periods, o);
      if p.Some? { WithdrawKeepsStored(b.access, p.value, now); }
    }
  }

  lemma StepKeepsStored(b: Books, step: PaymentStep, lease: int)
    requires Stored(b.access)
    ensures Stored(Apply(b, step, lease).access)
  {
    hide Process, Settle, HasCurrent;
    match step
    case Processes(e, now) => ProcessKeepsStored(b, e, now);
    case Settles(o, now) => if 0 <= o < |b.orders| { SettleKeepsStored(b, o, now); }
    case _ => hide OrderByKey, LatestAttempt, AttemptByProviderId, AddTx;
  }

  lemma {:induction false} RunKeepsStored(steps: seq<PaymentStep>, lease: int)
    ensures Stored(Run(steps, lease).access)
  {
    if steps != [] {
      RunKeepsStored(steps[..|steps| - 1], lease);
      hide Apply, Stored;
      StepKeepsStored(Run(steps[..|steps| - 1], lease), steps[|steps| - 1], lease);
    }
  }

  // ---------------------------------------------------------------- expiry

  /** No paid period of the subscription contains `now`. */
  predicate Uncovered(a: Access, i: int, now: int) {
    forall p :: 0 <= p < |a.periods| && a.periods[p].sub == i && a.periods[p].paid ==>
      !(a.periods[p].start <= now < a.periods[p].end)
  }

  /** An active, uncovered subscription that began by now. */
  predicate ExpiresNow(a: Access, i: int, now: int) {
    0 <= i < |a.subs| && a.subs[i].status == SubActive && a.subs[i].createdAt <= now && Uncovered(a, i, now)
  }

  function EndedAt(a: Access, i: int, now: int): Access
    requires 0 <= i < |a.subs|
  {
    a.(subs := a.subs[i := a.subs[i].(status := SubEnded, endedAt := Some(now))])
  }

  lemma UncoveredIsNotCurrent(a: Access, i: int, now: int)
    ensures Uncovered(a, i, now) <==> !HasCurrent(a, i, now)
  {
    if HasCurrent(a, i, now) {
      var p :| 0 <= p < |a.periods| && a.periods[p].sub == i && Contains(a.periods[p], now);
      assert a.periods[p].paid;
    } else {
      forall p | 0 <= p < |a.periods| && a.periods[p].sub == i && a.periods[p].paid
        ensures !(a.periods[p].start <= now < a.periods[p].end)
      {
        assert !Contains(a.periods[p], now);
      }
    }
  }

  lemma LapseExactly(b: Books, i: int, now: int)
    requires Stored(b.access)
    ensures LapseSub(b, i, now) == if ExpiresNow(b.access, i, now) then b.(access := EndedAt(b.access, i, now)) else b
  {
    UncoveredIsNotCurrent(b.access, i, now);
    hide HasCurrent, Uncovered;
  }

  /** The expiry job ends a subscription exactly when it is active, began by now, and no paid period covers now. */
  lemma LapsesExactlyWhen(steps: seq<PaymentStep>, lease: int, i: int, now: int)
    ensures var b, b' := Run(steps, lease), Run(steps + [Lapses(i, now)], lease);
      b' == if ExpiresNow(b.access, i, now) then b.(access := EndedAt(b.access, i, now)) else b
  {
    RunSnoc(steps, Lapses(i, now), lease);
    RunKeepsStored(steps, lease);
    hide Run, Stored;
    LapseExactly(Run(steps, lease), i, now);
  }

  // ---------------------------------------------------------------- refunds

  /** The order that an event is tied to through its attempt. */
  predicate TiedTo(b: Books, e: int, o: int) {
    && 0 <= e < |b.events| && b.events[e].attempt.Some? && 0 <= b.events[e].attempt.value < |b.attempts|
    && b.attempts[b.events[e].attempt.value].order == o && 0 <= o < |b.orders|
  }

  predicate Open(b: Books, e: int) {
    0 <= e < |b.events| && (b.events[e].state == Received || b.events[e].state == Rejected)
  }

  /** A refund of `x` for order `o`: positive, at most the order's amount, in its currency. */
  predicate RefundOf(b: Books, e: int, o: int, x: int) {
    && Open(b, e) && b.events[e].refund && TiedTo(b, e, o)
    && b.events[e].amount == Some(x) && 0 < x <= b.orders[o].amount && b.events[e].currency == Some(b.orders[o].currency)
  }

  /** Period `p` carries order `o`, whose refunds reach its amount with `x` more. */
  predicate Exhausts(b: Books, o: int, x: int, p: int)
    requires 0 <= o < |b.orders|
  {
    b.orders[o].amount <= Refunds(b, o) + x && 0 <= p < |b.access.periods| && b.access.periods[p].order == Some(o)
  }

  /** Without period `p`, its subscription has nothing paid that ends after `now`. */
  predicate LastFunding(a: Access, p: int, now: int)
    requires 0 <= p < |a.periods|
  {
    forall q :: 0 <= q < |a.periods| && q != p && a.periods[q].sub == a.periods[p].sub && a.periods[q].paid ==>
      a.periods[q].end <= now
  }

  /** The refund would end a subscription that, by the clock, has not begun yet: the row cannot be stored. */
  ghost predicate Unstorable(b: Books, o: int, x: int, now: int)
    requires 0 <= o < |b.orders|
  {
    exists p :: Exhausts(b, o, x, p) && LastFunding(b.access, p, now)
      && 0 <= b.access.periods[p].sub < |b.access.subs|
      && b.access.subs[b.access.periods[p].sub].status == SubActive && now < b.access.subs[b.access.periods[p].sub].createdAt
  }

  lemma LastFundingMeans(a: Access, p: int, now: int)
    requires 0 <= p < |a.periods|
    ensures LastFunding(a, p, now) <==>
      !HasFundedAfter(a.(periods := a.periods[p := a.periods[p].(paid := false)]), a.periods[p].sub, now)
  {
    var b := a.(periods := a.periods[p := a.periods[p].(paid := false)]);
    var sub := a.periods[p].sub;
    if HasFundedAfter(b, sub, now) {
      var q :| 0 <= q < |b.periods| && b.periods[q].sub == sub && b.periods[q].paid && now < b.periods[q].end;
      assert q != p && a.periods[q] == b.periods[q];
    } else {
      forall q | 0 <= q < |a.periods| && q != p && a.periods[q].sub == sub && a.periods[q].paid ensures a.periods[q].end <= now {
        assert b.periods[q] == a.periods[q];
      }
    }
  }

  /** A withdrawal takes the funding of one period, and ends its subscription exactly when that was its last. */
  lemma WithdrawExactly(a: Access, p: int, now: int)
    requires Stored(a) && 0 <= p < |a.periods| && 0 <= a.periods[p].sub < |a.subs|
    ensures var sub := a.periods[p].sub;
      var b := a.(periods := a.periods[p := a.periods[p].(paid := false)]);
      Withdraw(a, p, now) ==
        if LastFunding(a, p, now) && a.subs[sub].status == SubActive then
          if a.subs[sub].createdAt <= now then Some(EndedAt(b, sub, now)) else None
        else Some(b)
  {
    LastFundingMeans(a, p, now);
    var sub := a.periods[p].sub;
    hide HasFundedAfter, LastFunding;
    assert a.subs[sub := a.subs[sub]] == a.subs;
  }

  lemma OnlyCarrier(b: Books, o: int, p: int)
    requires OrdersDistinct(b.access.periods) && 0 <= p < |b.access.periods| && b.access.periods[p].order == Some(o)
    ensures PeriodOf(b.access.periods, o) == Some(p)
  {
    var q := PeriodOf(b.access.periods, o);
  }

  lemma AcceptableIsRefundOf(b: Books, e: int)
    requires BooksInv(b) && Unhandled(b, e) && b.events[e].refund
    ensures !Rejects(b, b.events[e]) <==> exists o, x :: RefundOf(b, e, o, x)
    ensures forall o, x :: RefundOf(b, e, o, x) ==>
      !Rejects(b, b.events[e]) && b.events[e].amount == Some(x) && b.attempts[b.events[e].attempt.value].order == o
  {
    hide BooksInv;
    if !Rejects(b, b.events[e]) {
      assert RefundOf(b, e, b.attempts[b.events[e].attempt.value].order, b.events[e].amount.value);
    }
  }

  /** The books with one more recorded refund. */
  ghost predicate RefundTaken(b: Books, c: Books, e: int, o: int, x: int)
    requires 0 <= e < |b.events| && 0 <= o < |b.orders|
  {
    && c.orders == b.orders && c.attempts == b.attempts && c.events == b.events[e := b.events[e].(state := Processed)]
    && Refunds(c, o) == Refunds(b, o) + x && (forall q :: 0 <= q < |b.orders| && q != o ==> Refunds(c, q) == Refunds(b, q))
  }

  lemma RefundShape(b: Books, e: int, now: int, o: int, x: int) returns (c: Books)
    requires BooksInv(b) && RefundOf(b, e, o, x)
    ensures RefundTaken(b, c, e, o, x) && c.access == b.access
    ensures var p := PeriodOf(b.access.periods, o);
      Process(b, e, now) ==
        if Refunds(b, o) + x < b.orders[o].amount || p.None? then c
        else if Withdraw(b.access, p.value, now).None? then b
        else c.(access := Withdraw(b.access, p.value, now).value)
  {
    hide BooksInv, Withdraw, RefundSum, PeriodOf, Grows, AddTx, AcceptRefund;
    AcceptableIsRefundOf(b, e);
    assert Process(b, e, now) == AcceptRefund(b, e, now);
    c := RefundRecorded(b, e);
    assert c == b.(txs := c.txs, events := b.events[e := b.events[e].(state := Processed)]);
    hide RefundRecorded, Process, Rejects;
    RefundRecordedKeepsInv(b, e);
    AcceptRefundShape(b, e, now);
  }

  lemma ExhaustsMeans(b: Books, o: int, x: int, now: int, p: int)
    requires AccessInv(b.access) && Stored(b.access) && 0 <= o < |b.orders| && Exhausts(b, o, x, p)
    ensures PeriodOf(b.access.periods, o) == Some(p)
    ensures Withdraw(b.access, p, now).None? <==> Unstorable(b, o, x, now)
  {
    OnlyCarrier(b, o, p);
    WithdrawExactly(b.access, p, now);
    assert 0 <= b.access.periods[p].sub < |b.access.subs|;
    forall q | Exhausts(b, o, x, q) ensures q == p { OnlyCarrier(b, o, q); }
    hide Withdraw, RefundSum, AccessInv, Stored, LastFunding, PeriodOf, Exhausts;
    if Unstorable(b, o, x, now) {
      var q :| Exhausts(b, o, x, q) && LastFunding(b.access, q, now) && 0 <= b.access.periods[q].sub < |b.access.subs|
        && b.access.subs[b.access.periods[q].sub].status == SubActive && now < b.access.subs[b.access.periods[q].sub].createdAt;
    }
  }

  /** What a good refund makes of the books: the refund recorded, and its period withdrawn once the amount is reached. */
  lemma RefundEffectExactly(b: Books, e: int, now: int, o: int, x: int)
    requires BooksInv(b) && Stored(b.access) && RefundOf(b, e, o, x)
    ensures var b' := Process(b, e, now);
      if Unstorable(b, o, x, now) then b' == b
      else
        && RefundTaken(b, b', e, o, x)
        && (forall p :: Exhausts(b, o, x, p) ==> Withdraw(b.access, p, now) == Some(b'.access))
        && ((forall p :: !Exhausts(b, o, x, p)) ==> b'.access == b.access)
  {
    var c := RefundShape(b, e, now, o, x);
    FundingFacts(b);
    hide BooksInv, Withdraw, RefundSum, Process, RefundOf, AccessInv, Stored, FundingOk;
    forall p | Exhausts(b, o, x, p)
      ensures PeriodOf(b.access.periods, o) == Some(p) && (Withdraw(b.access, p, now).None? <==> Unstorable(b, o, x, now))
    {
      ExhaustsMeans(b, o, x, now, p);
    }
    hide LastFunding;
    var p := PeriodOf(b.access.periods, o);
    if p.Some? && b.orders[o].amount <= Refunds(b, o) + x { assert Exhausts(b, o, x, p.value); }
  }

  lemma ProcessRefundExactly(b: Books, e: int, now: int)
    requires BooksInv(b) && Stored(b.access) && Open(b, e) && b.events[e].refund
    ensures var b' := Process(b, e, now);
      && (forall o, x :: RefundOf(b, e, o, x) ==> if Unstorable(b, o, x, now) then b' == b else RefundTaken(b, b', e, o, x))
      && ((forall o, x :: !RefundOf(b, e, o, x)) ==> b' == b.(events := b.events[e := b.events[e].(state := Rejected)]))
  {
    forall o, x | RefundOf(b, e, o, x)
      ensures if Unstorable(b, o, x, now) then Process(b, e, now) == b else RefundTaken(b, Process(b, e, now), e, o, x)
    {
      RefundEffectExactly(b, e, now, o, x);
    }
    AcceptableIsRefundOf(b, e);
    hide BooksInv, Stored, RefundOf, Unstorable, RefundTaken, AcceptRefund;
  }

  /**
   In every run, processing an open refund event accepts it if and only if it is tied to an order and
   carries a positive amount up to the order's, in its currency, and the subscription it may end can be
   stored. It is then processed and counted once; a refund that fails the checks is rejected and
   changes nothing else, and one that cannot be stored leaves the books as they are.
   */
  lemma RefundAcceptedExactlyWhen(steps: seq<PaymentStep>, lease: int, e: int, now: int)
    requires Open(Run(steps, lease), e) && Run(steps, lease).events[e].refund
    ensures var b, b' := Run(steps, lease), Run(steps + [Processes(e, now)], lease);
      && |b'.events| == |b.events|
      && (b'.events[e].state == Processed <==> exists o, x :: RefundOf(b, e, o, x) && !Unstorable(b, o, x, now))
      && (forall o, x :: RefundOf(b, e, o, x) ==> if Unstorable(b, o, x, now) then b' == b else RefundTaken(b, b', e, o, x))
      && ((forall o, x :: !RefundOf(b, e, o, x)) ==> b' == b.(events := b.events[e := b.events[e].(state := Rejected)]))
  {
    RunInv(steps, lease);
    RunKeepsStored(steps, lease);
    RunSnoc(steps, Processes(e, now), lease);
    var b := Run(steps, lease);
    hide Run, BooksInv, Stored, RefundOf, Unstorable, Process;
    ProcessRefundExactly(b, e, now);
    if o, x :| RefundOf(b, e, o, x) {}
    hide RefundSum;
  }

  // ---------------------------------------------------------------- why access ends

  /** The subscription ends at this clock reading. */
  ghost predicate EndsNow(a: Access, b: Access, i: int, now: int) {
    Ends(a, b, i) && b.subs[i] == a.subs[i].(status := SubEnded, endedAt := Some(now))
  }

  /** A refund takes the last funding of an active subscription that began by now. */
  ghost predicate RefundEnds(b: Books, step: PaymentStep, i: int) {
    && step.Processes? && 0 <= i < |b.access.subs| && b.access.subs[i].status == SubActive && b.access.subs[i].createdAt <= step.now
    && exists o, x, p :: RefundOf(b, step.event, o, x) && Exhausts(b, o, x, p)
         && b.access.periods[p].sub == i && LastFunding(b.access, p, step.now)
  }

  /** Its owner pays an order of another tariff. */
  ghost predicate SwitchEnds(b: Books, step: PaymentStep, i: int) {
    && 0 <= i < |b.access.subs| && b.access.subs[i].status == SubActive
    && exists o :: Pays(b, step, o) && 0 <= o < |b.orders|
         && b.orders[o].user == b.access.subs[i].user && b.orders[o].tariff != b.access.subs[i].tariff
  }

  lemma ActivateEnds(a: Access, user: int, tariff: int, days: int, now: int, order: int, i: int)
    requires AccessInv(a) && Stored(a) && Activate(a, user, tariff, days, now, order).Some?
    ensures var b := Activate(a, user, tariff, days, now, order).value;
      && (Ends(a, b, i) <==> 0 <= i < |a.subs| && a.subs[i].status == SubActive && a.subs[i].user == user && a.subs[i].tariff != tariff)
      && (Ends(a, b, i) ==> EndsNow(a, b, i, now))
  {
    if 0 <= i < |a.subs| && a.subs[i].status == SubActive { ActiveIsUnique(a, i); }
    hide AccessInv, LastEnd;
  }

  lemma SettleEnds(b: Books, o: int, now: int, i: int)
    requires AccessInv(b.access) && Stored(b.access) && 0 <= o < |b.orders| && Settle(b, o, now).Some?
    ensures var c := Settle(b, o, now).value;
      && (Ends(b.access, c.access, i) <==>
            CanSettle(b, o, now) && 0 <= i < |b.access.subs| && b.access.subs[i].status == SubActive
            && b.orders[o].user == b.access.subs[i].user && b.orders[o].tariff != b.access.subs[i].tariff)
      && (Ends(b.access, c.access, i) ==> EndsNow(b.access, c.access, i, now))
  {
    var row := b.orders[o];
    ActivatesExactlyWhen(b.access, row.user, row.tariff, row.days, now, o);
    if Activate(b.access, row.user, row.tariff, row.days, now, o).Some? {
      ActivateEnds(b.access, row.user, row.tariff, row.days, now, o, i);
    }
    hide Activate, AccessInv, Stored, ReplacementStores, EndsNow;
  }

  lemma PaidEventEnds(b: Books, e: int, now: int, i: int)
    requires AccessInv(b.access) && Stored(b.access) && Open(b, e) && !b.events[e].refund && b.events[e].status == Paid
    ensures var c := Process(b, e, now);
      && (Ends(b.access, c.access, i) <==> SwitchEnds(b, Processes(e, now), i))
      && (Ends(b.access, c.access, i) ==> EndsNow(b.access, c.access, i, now))
  {
    hide AccessInv, Stored, CanSettle, Settle, SettlementValid, AddTx, EndsNow;
    if Resolves(b, b.events[e]) {
      var o := b.attempts[b.events[e].attempt.value].order;
      SettlePays(b, o, now, o);
      if Settle(b, o, now).Some? { SettleEnds(b, o, now, i); }
      if Reports(b, e, o) {
        assert Process(b, e, now).access == if Settle(b, o, now).Some? then Settle(b, o, now).value.access else b.access;
        assert Ends(b.access, Process(b, e, now).access, i) <==>
          Pays(b, Processes(e, now), o) && 0 <= i < |b.access.subs| && b.access.subs[i].status == SubActive
          && b.orders[o].user == b.access.subs[i].user && b.orders[o].tariff != b.access.subs[i].tariff;
      } else {
        assert Process(b, e, now).access == b.access;
      }
    }
  }

  /** Period `p` is the last funding of subscription `i`, which can end now. */
  predicate LosesLast(a: Access, p: int, i: int, now: int)
    requires 0 <= p < |a.periods|
  {
    && a.periods[p].sub == i && LastFunding(a, p, now)
    && 0 <= i < |a.subs| && a.subs[i].status == SubActive && a.subs[i].createdAt <= now
  }

  lemma WithdrawEnds(a: Access, p: int, now: int, i: int)
    requires Stored(a) && 0 <= p < |a.periods| && 0 <= a.periods[p].sub < |a.subs|
    ensures var r := Withdraw(a, p, now);
      if r.None? then !LosesLast(a, p, i, now)
      else (Ends(a, r.value, i) <==> LosesLast(a, p, i, now)) && (Ends(a, r.value, i) ==> EndsNow(a, r.value, i, now))
  {
    WithdrawExactly(a, p, now);
    hide Withdraw, LastFunding, Stored;
  }

  lemma RefundEndsBy(b: Books, e: int, now: int, o: int, x: int, p: int, i: int)
    requires AccessInv(b.access) && RefundOf(b, e, o, x) && Exhausts(b, o, x, p)
    ensures RefundEnds(b, Processes(e, now), i) <==> LosesLast(b.access, p, i, now)
  {
    RefundIsUnique(b, e, o, x);
    OnlyCarrier(b, o, p);
    forall q | Exhausts(b, o, x, q) ensures q == p { OnlyCarrier(b, o, q); }
    hide AccessInv, RefundOf, Exhausts, LastFunding, PeriodOf;
  }

  lemma RefundEventEnds(b: Books, e: int, now: int, i: int)
    requires BooksInv(b) && Stored(b.access) && Open(b, e) && b.events[e].refund
    ensures var c := Process(b, e, now);
      && (Ends(b.access, c.access, i) <==> RefundEnds(b, Processes(e, now), i))
      && (Ends(b.access, c.access, i) ==> EndsNow(b.access, c.access, i, now))
  {
    ProcessRefundExactly(b, e, now);
    FundingFacts(b);
    assert forall p :: 0 <= p < |b.access.periods| ==> 0 <= b.access.periods[p].sub < |b.access.subs|;
    hide BooksInv, AccessInv, Process, RefundOf, RefundSum, FundingOk, RefundTaken, Stored, LastFunding, Withdraw, EndsNow, LosesLast;
    if o, x :| RefundOf(b, e, o, x) {
      RefundEffectExactly(b, e, now, o, x);
      if p :| Exhausts(b, o, x, p) {
        ExhaustsMeans(b, o, x, now, p);
        hide Unstorable, Exhausts, PeriodOf, RefundEnds;
        RefundEndsBy(b, e, now, o, x, p, i);
        WithdrawEnds(b.access, p, now, i);
      } else {
        RefundIsUnique(b, e, o, x);
      }
    }
  }

  lemma RefundIsUnique(b: Books, e: int, o: int, x: int)
    requires RefundOf(b, e, o, x)
    ensures forall q, y :: RefundOf(b, e, q, y) ==> q == o && y == x
  {
  }

  lemma OtherEventEndsNothing(b: Books, e: int, now: int)
    requires !Open(b, e) || (!b.events[e].refund && b.events[e].status != Paid)
    ensures Process(b, e, now).access == b.access
  {
    hide LatestAttempt;
  }

  lemma SwitchNeedsPayment(b: Books, e: int, now: int, i: int)
    requires !Open(b, e) || b.events[e].refund || b.events[e].status != Paid
    ensures !SwitchEnds(b, Processes(e, now), i)
  {
    hide CanSettle, SettlementValid;
  }

  lemma RefundNeedsRefund(b: Books, e: int, now: int, i: int)
    requires !Open(b, e) || !b.events[e].refund
    ensures !RefundEnds(b, Processes(e, now), i)
  {
    hide Exhausts, LastFunding;
  }

  lemma ProcessEnds(b: Books, e: int, now: int, i: int)
    requires BooksInv(b) && Stored(b.access)
    ensures var c, step := Process(b, e, now), Processes(e, now);
      && (Ends(b.access, c.access, i) <==> RefundEnds(b, step, i) || SwitchEnds(b, step, i))
      && (Ends(b.access, c.access, i) ==> EndsNow(b.access, c.access, i, now))
  {
    FundingFacts(b);
    hide BooksInv, Stored, AccessInv, FundingOk, Process, RefundEnds, SwitchEnds, EndsNow;
    if Open(b, e) && b.events[e].refund {
      RefundEventEnds(b, e, now, i);
      SwitchNeedsPayment(b, e, now, i);
    } else {
      RefundNeedsRefund(b, e, now, i);
      if Open(b, e) && b.events[e].status == Paid { PaidEventEnds(b, e, now, i); }
      else { OtherEventEndsNothing(b, e, now); SwitchNeedsPayment(b, e, now, i); }
    }
  }

  ghost predicate LapseEnds(b: Books, step: PaymentStep, i: int) {
    step.Lapses? && step.sub == i && ExpiresNow(b.access, i, step.now)
  }

  lemma StepEnds(b: Books, step: PaymentStep, lease: int, i: int)
    requires BooksInv(b) && Stored(b.access)
    ensures var c := Apply(b, step, lease);
      && (Ends(b.access, c.access, i) <==> LapseEnds(b, step, i) || RefundEnds(b, step, i) || SwitchEnds(b, step, i))
      && (Ends(b.access, c.access, i) ==> EndsNow(b.access, c.access, i, At(step)))
  {
    FundingFacts(b);
    hide BooksInv, AccessInv, FundingOk, Process, Settle, Lapse, CanSettle, Uncovered;
    match step
    case Processes(e, now) => hide RefundEnds, SwitchEnds, EndsNow; ProcessEnds(b, e, now, i);
    case Settles(q, now) =>
      CanSettleInRange(b, q, now);
      hide EndsNow, Stored;
      if 0 <= q < |b.orders| {
        SettlePays(b, q, now, q);
        if Settle(b, q, now).Some? { SettleEnds(b, q, now, i); }
        assert SwitchEnds(b, step, i) <==>
          Pays(b, step, q) && 0 <= i < |b.access.subs| && b.access.subs[i].status == SubActive
          && b.orders[q].user == b.access.subs[i].user && b.orders[q].tariff != b.access.subs[i].tariff;
      }
    case Lapses(sub, now) => LapseExactly(b, sub, now); hide LapseSub;
    case _ => hide OrderByKey, LatestAttempt, AttemptByProviderId, AddTx;
  }

  /**
   In every run, a step ends a subscription if and only if it is active and the step is an expiry that
   finds no paid period covering now, a refund that takes its last funding, or the payment of an order
   of another tariff by its owner. Its end is that step's clock reading.
   */
  lemma AccessEndsExactlyWhen(steps: seq<PaymentStep>, step: PaymentStep, lease: int, i: int)
    ensures var b, b' := Run(steps, lease), Run(steps + [step], lease);
      && (Ends(b.access, b'.access, i) <==> LapseEnds(b, step, i) || RefundEnds(b, step, i) || SwitchEnds(b, step, i))
      && (Ends(b.access, b'.access, i) ==> EndsNow(b.access, b'.access, i, At(step)))
  {
    RunInv(steps, lease);
    RunKeepsStored(steps, lease);
    RunSnoc(steps, step, lease);
    hide Run, BooksInv, Stored, Apply, Ends, EndsNow, LapseEnds, RefundEnds, SwitchEnds;
    StepEnds(Run(steps, lease), step, lease, i);
  }
}
