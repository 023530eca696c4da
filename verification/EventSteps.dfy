/**
 Exactly when a step of a run records an event, how it handles a payment report or a failure report,
 when an order ends unpaid, and where a paid period begins. The conditions are written out on the
 rows before the step.
 */
module EventSteps {
  import opened Common
  import opened SubscriptionEntity
  import opened SubscriptionAccess
  import opened PaymentEntity
  import opened Payments
  import opened PaymentSafety
  import opened PaymentTheorems
  import opened PaymentSteps

  // ---------------------------------------------------------------- events are recorded once

  /** A verified webhook under a key that no event has. */
  predicate RecordsEvent(b: Books, step: PaymentStep) {
    step.Arrives? && forall e :: 0 <= e < |b.events| ==> b.events[e].key != step.webhook.key
  }

  /** The event says what the webhook said, and is tied to the attempt of that provider with that id, if there is one. */
  ghost predicate EventOf(b: Books, h: Webhook, ev: EventRow) {
    && ev.provider == h.provider && ev.key == h.key && ev.refund == h.refund && ev.status == h.status
    && ev.providerId == h.providerId && ev.reportedOrder == h.reportedOrder && ev.amount == h.amount && ev.currency == h.currency
    && ev.state == Received
    && (if ev.attempt.Some? then
          && 0 <= ev.attempt.value < |b.attempts| && h.providerId.Some? && |h.providerId.value| > 0
          && b.attempts[ev.attempt.value].provider == h.provider && b.attempts[ev.attempt.value].providerId == h.providerId
          && ev.order == Some(b.attempts[ev.attempt.value].order)
        else
          && ev.order.None?
          && (h.providerId.Some? && |h.providerId.value| > 0 ==>
                forall a :: 0 <= a < |b.attempts| && b.attempts[a].provider == h.provider ==> b.attempts[a].providerId != h.providerId))
  }

  lemma IngestExactly(b: Books, h: Webhook)
    ensures var b' := Ingest(b, h);
      if RecordsEvent(b, Arrives(h)) then
        |b'.events| == |b.events| + 1 && b'.events[..|b.events|] == b.events && EventOf(b, h, b'.events[|b.events|])
      else b' == b
  {
  }

  lemma OthersRecordNothing(b: Books, step: PaymentStep, lease: int)
    requires !step.Arrives?
    ensures |Apply(b, step, lease).events| == |b.events|
  {
    hide Activate, Withdraw, Lapse, RefundSum, AddTx, LatestAttempt, AttemptByProviderId, SettlementValid, RefundValid, PeriodOf;
  }

  lemma RecordedExactlyWhen(steps: seq<PaymentStep>, step: PaymentStep, lease: int)
    ensures var b, b' := Run(steps, lease), Run(steps + [step], lease);
      && (|b'.events| != |b.events| <==> RecordsEvent(b, step))
      && (RecordsEvent(b, step) ==>
            |b'.events| == |b.events| + 1 && b'.events[..|b.events|] == b.events && EventOf(b, step.webhook, b'.events[|b.events|]))
  {
    RunSnoc(steps, step, lease);
    hide Run, EventOf, Ingest;
    if step.Arrives? { IngestExactly(Run(steps, lease), step.webhook); } else { hide Apply; OthersRecordNothing(Run(steps, lease), step, lease); }
  }

  // ---------------------------------------------------------------- payment reports

  /** The report names the invoice, the amount, the currency and the provider of order `o`, and no other order. */
  predicate ReportOf(b: Books, e: int, o: int) {
    && TiedTo(b, e, o)
    && (var ev, a := b.events[e], b.attempts[b.events[e].attempt.value];
        && ev.provider == b.orders[o].provider && ev.provider == a.provider
        && ev.providerId.Some? && |ev.providerId.value| > 0 && a.providerId == ev.providerId
        && ev.order == Some(o) && (ev.reportedOrder.None? || ev.reportedOrder.value == o)
        && ev.amount == Some(b.orders[o].amount) && ev.currency == Some(b.orders[o].currency))
  }

  predicate EndedUnpaid(s: PaymentStatus) {
    s == PaymentFailed || s == PaymentExpired || s == PaymentCancelled
  }

  /** Every active subscription of the buyer with another tariff began by now, so that it can be ended. */
  predicate CanReplace(b: Books, o: int, now: int)
    requires 0 <= o < |b.orders|
  {
    forall i :: 0 <= i < |b.access.subs| ==>
      || b.access.subs[i].user != b.orders[o].user || b.access.subs[i].status != SubActive
      || b.access.subs[i].tariff == b.orders[o].tariff || b.access.subs[i].createdAt <= now
  }

  lemma CanReplaceMeans(b: Books, o: int, now: int)
    requires AccessInv(b.access) && 0 <= o < |b.orders|
    ensures CanReplace(b, o, now) <==> ReplacementStores(b.access, b.orders[o].user, b.orders[o].tariff, now)
  {
    var user := b.orders[o].user;
    var active := ActiveOf(b.access.subs, user);
    assert OneActive(b.access.subs);
    forall i | 0 <= i < |b.access.subs| && b.access.subs[i].user == user && b.access.subs[i].status == SubActive
      ensures active == Some(i)
    {
      ActiveIsUnique(b.access, i);
    }
    hide AccessInv, OneActive;
  }

  lemma ReportIsValid(b: Books, e: int)
    requires 0 <= e < |b.events|
    ensures forall o :: ReportOf(b, e, o) <==>
      Resolves(b, b.events[e]) && b.attempts[b.events[e].attempt.value].order == o
      && SettlementValid(b.events[e], b.attempts[b.events[e].attempt.value], o, b.orders[o])
  {
  }

  /** The event is processed, order and attempt are paid, and the payment is on record once. */
  ghost predicate PaymentTaken(b: Books, b': Books, e: int, o: int)
    requires TiedTo(b, e, o)
  {
    var ev, a := b.events[e], b.events[e].attempt.value;
    && b'.events == b.events[e := ev.(state := Processed)]
    && |b'.orders| == |b.orders| && b'.orders[o].status == Paid
    && b'.attempts == b.attempts[a := b.attempts[a].(status := Paid)]
    && b'.txs == b.txs + [Tx(o, ev.provider, PaidTx, EventKey(ev.key), b.orders[o].amount)]
  }

  lemma PaidReportExactly(b: Books, e: int, now: int)
    requires BooksInv(b) && Open(b, e) && !b.events[e].refund && b.events[e].status == Paid
    ensures var b' := Process(b, e, now);
      && |b'.events| == |b.events|
      && (forall o :: ReportOf(b, e, o) ==>
            var st := b.attempts[b.events[e].attempt.value].status;
            if EndedUnpaid(st) then b' == b.(events := b.events[e := b.events[e].(state := Ignored)])
            else if b.orders[o].status == Paid || CanReplace(b, o, now) then PaymentTaken(b, b', e, o)
            else b' == b)
      && ((forall o :: !ReportOf(b, e, o)) ==> b' == b.(events := b.events[e := b.events[e].(state := Rejected)]))
  {
    ReportIsValid(b, e);
    FundingFacts(b);
    RefundIsNew(b, e);
    assert OrdersOk(b);
    hide BooksInv, SettlementValid, ReportOf, HasTx, AccessInv, FundingOk, CanReplace, ReplacementStores, Activate;
    if o :| ReportOf(b, e, o) {
      CanReplaceMeans(b, o, now);
      ActivatesExactlyWhen(b.access, b.orders[o].user, b.orders[o].tariff, b.orders[o].days, now, o);
    }
  }

  /**
   In every run, an open payment report is rejected exactly when it is not a report of its order,
   ignored exactly when that order's attempt has ended unpaid, processed exactly when the order is paid or
   can be, and otherwise left open with the books as they are.
   */
  lemma PaymentReportExactlyWhen(steps: seq<PaymentStep>, lease: int, e: int, now: int)
    requires var b := Run(steps, lease); Open(b, e) && !b.events[e].refund && b.events[e].status == Paid
    ensures var b, b' := Run(steps, lease), Run(steps + [Processes(e, now)], lease);
      && |b'.events| == |b.events|
      && (forall o :: ReportOf(b, e, o) ==>
            var st := b.attempts[b.events[e].attempt.value].status;
            if EndedUnpaid(st) then b' == b.(events := b.events[e := b.events[e].(state := Ignored)])
            else if b.orders[o].status == Paid || CanReplace(b, o, now) then PaymentTaken(b, b', e, o)
            else b' == b)
      && ((forall o :: !ReportOf(b, e, o)) ==> b' == b.(events := b.events[e := b.events[e].(state := Rejected)]))
  {
    RunInv(steps, lease);
    RunSnoc(steps, Processes(e, now), lease);
    hide Run, BooksInv, Process, ReportOf, CanReplace;
    PaidReportExactly(Run(steps, lease), e, now);
  }

  // ---------------------------------------------------------------- failure reports

  /** An open report that the payment of order `o` failed, expired or was cancelled, not contradicting how its attempt ended. */
  predicate FailureOf(b: Books, e: int, o: int) {
    && Open(b, e) && !b.events[e].refund && EndedUnpaid(b.events[e].status) && TiedTo(b, e, o)
    && (var st := b.attempts[b.events[e].attempt.value].status;
        st == b.events[e].status || !(st == Paid || EndedUnpaid(st)))
  }

  /** The attempt and a pending order take the reported status. */
  function FailureTaken(b: Books, e: int, o: int): Books
    requires FailureOf(b, e, o)
  {
    var ev, a := b.events[e], b.events[e].attempt.value;
    b.(attempts := b.attempts[a := b.attempts[a].(status := ev.status)],
       orders := if b.orders[o].status == PaymentPending then b.orders[o := b.orders[o].(status := ev.status)] else b.orders,
       events := b.events[e := ev.(state := Processed)])
  }

  lemma OtherReportExactly(b: Books, e: int, now: int)
    requires BooksInv(b) && Open(b, e) && !b.events[e].refund && b.events[e].status != Paid
    ensures var b' := Process(b, e, now);
      && (forall o :: FailureOf(b, e, o) ==> b' == FailureTaken(b, e, o))
      && ((forall o :: !FailureOf(b, e, o)) ==> b' == b.(events := b.events[e := b.events[e].(state := Ignored)]))
  {
    var ev := b.events[e];
    assert EventOk(b, ev);
    hide BooksInv, LatestAttempt;
    if ev.attempt.Some? {
      var a := ev.attempt.value;
      var o := b.attempts[a].order;
      assert TiedTo(b, e, o);
      assert b.attempts[a := b.attempts[a]] == b.attempts && b.orders[o := b.orders[o]] == b.orders;
      assert FailureOf(b, e, o) <==> EndedUnpaid(ev.status) && TransitionOf(b.attempts[a].status, ev.status) != Stale;
    }
  }

  /** In every run, an open report of another status is processed exactly when it is a failure of its order, and else ignored. */
  lemma FailureReportExactlyWhen(steps: seq<PaymentStep>, lease: int, e: int, now: int)
    requires var b := Run(steps, lease); Open(b, e) && !b.events[e].refund && b.events[e].status != Paid
    ensures var b, b' := Run(steps, lease), Run(steps + [Processes(e, now)], lease);
      && (forall o :: FailureOf(b, e, o) ==> b' == FailureTaken(b, e, o))
      && ((forall o :: !FailureOf(b, e, o)) ==> b' == b.(events := b.events[e := b.events[e].(state := Ignored)]))
  {
    RunInv(steps, lease);
    RunSnoc(steps, Processes(e, now), lease);
    hide Run, BooksInv, Process, FailureOf, FailureTaken;
    OtherReportExactly(Run(steps, lease), e, now);
  }

  // ---------------------------------------------------------------- where a period begins

  /** The period begins now, or exactly where the latest period of its subscription ends, if that is later. */
  ghost predicate BeginsRight(a: Access, p: PeriodRow, now: int) {
    && now <= p.start && (forall i :: 0 <= i < |a.periods| && a.periods[i].sub == p.sub ==> a.periods[i].end <= p.start)
    && (p.start == now || exists i :: 0 <= i < |a.periods| && a.periods[i].sub == p.sub && a.periods[i].end == p.start)
  }

  /** It goes to the buyer's active subscription of that tariff, or else to a new one. */
  ghost predicate GoesRight(a: Access, b: Access, p: PeriodRow, user: int, tariff: int) {
    if exists i :: 0 <= i < |a.subs| && a.subs[i].user == user && a.subs[i].tariff == tariff && a.subs[i].status == SubActive then
      && |b.subs| == |a.subs| && 0 <= p.sub < |a.subs|
      && a.subs[p.sub].user == user && a.subs[p.sub].tariff == tariff && a.subs[p.sub].status == SubActive
    else |b.subs| == |a.subs| + 1 && p.sub == |a.subs| && b.subs[p.sub].user == user && b.subs[p.sub].tariff == tariff
         && b.subs[p.sub].status == SubActive
  }

  lemma ActivateExactly(a: Access, user: int, tariff: int, days: int, now: int, order: int)
    requires AccessInv(a) && Activate(a, user, tariff, days, now, order).Some?
    ensures var b := Activate(a, user, tariff, days, now, order).value;
      && |b.periods| == |a.periods| + 1 && b.periods[..|a.periods|] == a.periods
      && (var p := b.periods[|a.periods|];
          p.paid && p.order == Some(order) && p.end == p.start + days * DAY
          && BeginsRight(a, p, now) && GoesRight(a, b, p, user, tariff))
  {
    var active := ActiveOf(a.subs, user);
    if active.Some? { ActiveIsUnique(a, active.value); }
    forall i | 0 <= i < |a.subs| && a.subs[i].user == user && a.subs[i].status == SubActive ensures active == Some(i) {
      ActiveIsUnique(a, i);
    }
  }

  /** The entitlements after the step that pays order `o`. */
  lemma PaidAccess(b: Books, step: PaymentStep, lease: int, o: int)
    requires Pays(b, step, o)
    ensures 0 <= o < |b.orders|
    ensures var r := Activate(b.access, b.orders[o].user, b.orders[o].tariff, b.orders[o].days, At(step), o);
      r.Some? && Apply(b, step, lease).access == r.value
  {
    hide Activate, ReplacementStores, AddTx, SettlementValid;
    ReportsResolve(b, if step.Processes? then step.event else 0, o);
    ActivatesExactlyWhen(b.access, b.orders[o].user, b.orders[o].tariff, b.orders[o].days, At(step), o);
  }

  /** In every run, the step that pays an order appends its period, which begins and goes where it should. */
  lemma PeriodOfPaidOrder(steps: seq<PaymentStep>, step: PaymentStep, lease: int, o: int)
    requires NewlyPaid(Run(steps, lease), Run(steps + [step], lease), o)
    ensures var b, b' := Run(steps, lease), Run(steps + [step], lease);
      var n := |b.access.periods|;
      && |b'.access.periods| == n + 1 && b'.access.periods[..n] == b.access.periods
      && (var p := b'.access.periods[n];
          && p.paid && p.order == Some(o) && p.end == p.start + b.orders[o].days * DAY
          && BeginsRight(b.access, p, At(step)) && GoesRight(b.access, b'.access, p, b.orders[o].user, b.orders[o].tariff))
  {
    RunInv(steps, lease);
    RunSnoc(steps, step, lease);
    PaidExactlyWhen(steps, step, lease, o);
    var b := Run(steps, lease);
    FundingFacts(b);
    hide Run, BooksInv, AccessInv, FundingOk, Activate, BeginsRight, GoesRight, Apply, Pays;
    PaidAccess(b, step, lease, o);
    ActivateExactly(b.access, b.orders[o].user, b.orders[o].tariff, b.orders[o].days, At(step), o);
  }
}
