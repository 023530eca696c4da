/**
 The promises of the payment core, for every run of concurrent callers, late gateway answers,
 webhooks in any order and multiplicity, administrators and the reconciler, under any clock.
 */
module PaymentTheorems {
  import opened Common
  import opened SubscriptionEntity
  import opened SubscriptionAccess
  import opened PaymentEntity
  import opened Payments
  import opened PaymentSafety
  import ControlPlane

  // ---------------------------------------------------------------- one invoice per order

  /** The attempt holds the creation claim of its order, or an invoice. */
  predicate Live(a: AttemptRow) {
    a.status == Created || a.providerId.Some?
  }

  lemma LiveIsNewest(attempts: seq<AttemptRow>, i: int)
    requires OnlyNewestCounts(attempts) && 0 <= i < |attempts| && Live(attempts[i])
    ensures LatestAttempt(attempts, attempts[i].order) == Some(i)
  {
    var latest := LatestAttempt(attempts, attempts[i].order).value;
    assert !(i < latest);
  }

  /** At any moment at most one attempt of an order holds the claim or an invoice, and it is the newest. */
  lemma OneLiveAttempt(steps: seq<PaymentStep>, lease: int, i: int)
    requires 0 <= i < |Run(steps, lease).attempts| && Live(Run(steps, lease).attempts[i])
    ensures LatestAttempt(Run(steps, lease).attempts, Run(steps, lease).attempts[i].order) == Some(i)
  {
    RunInv(steps, lease);
    hide Run, EventsOk, TxsOk, RefundsCounted, AccessOk, FundingOk;
    LiveIsNewest(Run(steps, lease).attempts, i);
  }

  /** At most one attempt of an order ever gets a provider payment id, and it keeps that id for good. */
  lemma OneInvoiceEver(steps: seq<PaymentStep>, more: seq<PaymentStep>, lease: int, i: int, j: int)
    requires var b, b' := Run(steps, lease), Run(steps + more, lease);
      && 0 <= i < |b.attempts| && 0 <= j < |b'.attempts|
      && b.attempts[i].providerId.Some? && b'.attempts[j].providerId.Some? && b.attempts[i].order == b'.attempts[j].order
    ensures i == j && Run(steps, lease).attempts[i].providerId == Run(steps + more, lease).attempts[j].providerId
  {
    RunGrows(steps, more, lease);
    assert SameAttempt(Run(steps, lease).attempts[i], Run(steps + more, lease).attempts[i]);
    OneLiveAttempt(steps + more, lease, i);
    OneLiveAttempt(steps + more, lease, j);
  }

  // ---------------------------------------------------------------- exactly-once entitlement

  /** The periods that carry an order. */
  function Carriers(b: Books, o: int): set<int> {
    set i: int | 0 <= i < |b.access.periods| && b.access.periods[i].order == Some(o)
  }

  lemma OneCarrier(b: Books, o: int)
    requires AccessOk(b) && 0 <= o < |b.orders| && b.orders[o].status == Paid
    ensures |Carriers(b, o)| == 1
  {
    var i := PeriodOf(b.access.periods, o).value;
    hide PeriodOk, Chained, OneActive, PeriodOf;
    assert OrdersDistinct(b.access.periods);
    assert Carriers(b, o) == {i};
  }

  /** An order is PAID if and only if exactly one period carries it; otherwise none does. */
  lemma ExactlyOnceEntitlement(steps: seq<PaymentStep>, lease: int, o: int)
    requires 0 <= o < |Run(steps, lease).orders|
    ensures var b := Run(steps, lease);
      && (b.orders[o].status == Paid <==> |Carriers(b, o)| == 1)
      && (b.orders[o].status != Paid <==> Carriers(b, o) == {})
  {
    RunInv(steps, lease);
    var b := Run(steps, lease);
    assert AccessOk(b);
    hide Run, BooksInv;
    if b.orders[o].status == Paid {
      OneCarrier(b, o);
    } else {
      UnpaidHasNoPeriod(b, o);
      hide AccessOk;
      assert Carriers(b, o) == {};
    }
  }

  /** PAID is never left, and no order changes its terms. */
  lemma PaidForever(steps: seq<PaymentStep>, more: seq<PaymentStep>, lease: int, o: int)
    requires 0 <= o < |Run(steps, lease).orders|
    ensures o < |Run(steps + more, lease).orders|
    ensures SameOrder(Run(steps, lease).orders[o], Run(steps + more, lease).orders[o])
  {
    RunGrows(steps, more, lease);
  }

  lemma RunSnoc(steps: seq<PaymentStep>, step: PaymentStep, lease: int)
    ensures Run(steps + [step], lease) == Apply(Run(steps, lease), step, lease)
  {
    assert (steps + [step])[..|steps|] == steps;
  }

  // ---------------------------------------------------------------- why an order is paid

  predicate NewlyPaid(b: Books, b': Books, o: int) {
    0 <= o < |b.orders| && o < |b'.orders| && b.orders[o].status != Paid && b'.orders[o].status == Paid
  }

  /** The subscription that paying would replace began no later than now, so its end can be stored. */
  predicate ReplacementStores(a: Access, user: int, tariff: int, now: int) {
    var active := ActiveOf(a.subs, user);
    active.Some? && a.subs[active.value].tariff != tariff ==> a.subs[active.value].createdAt <= now
  }

  /** The order is open, and the books can take its activation. */
  predicate CanSettle(b: Books, o: int, now: int) {
    && 0 <= o < |b.orders| && b.orders[o].status != Paid && b.orders[o].status != Created
    && ReplacementStores(b.access, b.orders[o].user, b.orders[o].tariff, now)
  }

  /** The event is a payment report that passes every check for order `o`. */
  predicate Reports(b: Books, e: int, o: int) {
    && 0 <= e < |b.events| && b.events[e].state != Processed && b.events[e].state != Ignored
    && !b.events[e].refund && b.events[e].status == Paid
    && Resolves(b, b.events[e])
    && (var a := b.attempts[b.events[e].attempt.value];
        a.order == o && SettlementValid(b.events[e], a, o, b.orders[o]) && TransitionOf(a.status, Paid) != Stale)
  }

  /** The step pays order `o`, as the books before it tell. */
  predicate Pays(b: Books, step: PaymentStep, o: int) {
    match step
    case Settles(q, now) => q == o && CanSettle(b, o, now)
    case Processes(e, now) => Reports(b, e, o) && CanSettle(b, o, now)
    case _ => false
  }

  lemma ActivatesExactlyWhen(a: Access, user: int, tariff: int, days: int, now: int, order: int)
    ensures Activate(a, user, tariff, days, now, order).Some? <==> ReplacementStores(a, user, tariff, now)
  {
    hide LastEnd;
  }

  /** Settling pays its own order exactly when it can, and no other order. */
  lemma SettlePays(b: Books, q: int, now: int, o: int)
    requires 0 <= q < |b.orders| && 0 <= o < |b.orders|
    ensures var r := Settle(b, q, now);
      if r.Some? then |r.value.orders| == |b.orders| && (NewlyPaid(b, r.value, o) <==> q == o && CanSettle(b, o, now))
      else !CanSettle(b, q, now)
  {
    var row := b.orders[q];
    ActivatesExactlyWhen(b.access, row.user, row.tariff, row.days, now, q);
    hide Activate, ReplacementStores;
  }

  lemma ProcessPaidPays(b: Books, e: int, now: int, o: int)
    requires Unhandled(b, e) && !b.events[e].refund && b.events[e].status == Paid && 0 <= o < |b.orders|
    ensures NewlyPaid(b, ProcessPaid(b, e, now), o) <==> Reports(b, e, o) && CanSettle(b, o, now)
  {
    if Resolves(b, b.events[e]) { SettlePays(b, b.attempts[b.events[e].attempt.value].order, now, o); }
    hide Settle, CanSettle, AddTx;
  }

  lemma ProcessPays(b: Books, e: int, now: int, o: int)
    requires 0 <= o < |b.orders|
    ensures NewlyPaid(b, Process(b, e, now), o) <==> Reports(b, e, o) && CanSettle(b, o, now)
  {
    hide CanSettle, ProcessPaid;
    if Unhandled(b, e) && !b.events[e].refund && b.events[e].status == Paid {
      ProcessPaidPays(b, e, now, o);
    } else {
      hide Withdraw, RefundSum, AddTx, LatestAttempt, PeriodOf, SettlementValid;
    }
  }

  lemma StepPays(b: Books, step: PaymentStep, lease: int, o: int)
    ensures NewlyPaid(b, Apply(b, step, lease), o) <==> Pays(b, step, o)
  {
    hide Process, Settle, CanSettle, Reports;
    match step
    case Processes(e, now) =>
      if 0 <= o < |b.orders| { ProcessPays(b, e, now, o); } else { ReportsResolve(b, e, o); }
    case Settles(q, now) =>
      CanSettleInRange(b, o, now);
      if 0 <= q < |b.orders| && 0 <= o < |b.orders| { SettlePays(b, q, now, o); }
    case _ => hide Lapse, OrderByKey, LatestAttempt, AttemptByProviderId, AddTx, Ingest;
  }

  lemma CanSettleInRange(b: Books, o: int, now: int)
    ensures CanSettle(b, o, now) ==> 0 <= o < |b.orders|
  {
  }

  lemma ReportsResolve(b: Books, e: int, o: int)
    ensures Reports(b, e, o) ==> 0 <= o < |b.orders|
  {
  }

  /** A step of a run makes an order PAID if and only if the books before it meet the settlement guard. */
  lemma PaidExactlyWhen(steps: seq<PaymentStep>, step: PaymentStep, lease: int, o: int)
    ensures NewlyPaid(Run(steps, lease), Run(steps + [step], lease), o) <==> Pays(Run(steps, lease), step, o)
  {
    RunSnoc(steps, step, lease);
    StepPays(Run(steps, lease), step, lease, o);
  }

  /**
   An order becomes PAID only by a manual settlement of that order, or by an event that carries its
   amount, currency and provider and the provider id recorded for its newest attempt.
   */
  lemma PaidOnlyByItsInvoice(steps: seq<PaymentStep>, step: PaymentStep, lease: int, o: int)
    requires NewlyPaid(Run(steps, lease), Run(steps + [step], lease), o)
    ensures var b := Run(steps, lease);
      if step.Settles? then step.order == o
      else
        step.Processes? && (var a := LatestAttempt(b.attempts, o); a.Some? && PaysFor(b, step.event, a.value, o))
  {
    var b := Run(steps, lease);
    PaidExactlyWhen(steps, step, lease, o);
    hide Run, LatestAttempt;
    if step.Processes? { OneLiveAttempt(steps, lease, b.events[step.event].attempt.value); }
  }

  /** Event `e` reports exactly the payment of order `o` through attempt `a`. */
  predicate PaysFor(b: Books, e: int, a: int, o: int) {
    && 0 <= e < |b.events| && 0 <= a < |b.attempts| && 0 <= o < |b.orders|
    && b.events[e].amount == Some(b.orders[o].amount) && b.events[e].currency == Some(b.orders[o].currency)
    && b.events[e].provider == b.orders[o].provider
    && b.attempts[a].order == o && b.attempts[a].providerId.Some? && b.attempts[a].providerId == b.events[e].providerId
  }

  // ---------------------------------------------------------------- refunds

  /** However often refund events are delivered, each handled one counts once towards its order. */
  lemma RefundsCountOnce(steps: seq<PaymentStep>, lease: int, o: int)
    requires 0 <= o < |Run(steps, lease).orders|
    ensures Refunds(Run(steps, lease), o) == RefundEvents(Run(steps, lease).events, o)
  {
    RunInv(steps, lease);
  }

  predicate Funds(b: Books, o: int) {
    var p := PeriodOf(b.access.periods, o);
    p.Some? && b.access.periods[p.value].paid
  }

  /** The period of an order is funded exactly while its refunds stay below its amount. */
  predicate Exact(b: Books, o: int)
    requires 0 <= o < |b.orders|
  {
    PeriodOf(b.access.periods, o).Some? ==> (Funds(b, o) <==> Refunds(b, o) < b.orders[o].amount)
  }

  lemma UnfundedMeansRefunded(b: Books, o: int)
    requires FundingOk(b) && 0 <= o < |b.orders|
    ensures Exact(b, o) <==> !(Funds(b, o) && b.orders[o].amount <= Refunds(b, o))
  {
  }

  /** Withdrawing one order's period is the only change to funding. */
  lemma WithdrawnFunds(b: Books, access: Access, p: int, q: int)
    requires OrdersDistinct(b.access.periods) && 0 <= p < |b.access.periods|
    requires access.periods == b.access.periods[p := b.access.periods[p].(paid := false)]
    ensures PeriodOf(access.periods, q) == PeriodOf(b.access.periods, q)
    ensures Funds(b.(access := access), q) <==> Funds(b, q) && b.access.periods[p].order != Some(q)
  {
    var i, j := PeriodOf(access.periods, q), PeriodOf(b.access.periods, q);
    if j.Some? { assert access.periods[j.value].order == Some(q); }
    if i.Some? { assert b.access.periods[i.value].order == Some(q); }
  }

  /** The step handles event `e` as an accepted refund. */
  ghost predicate RefundsAt(b: Books, b': Books, e: int) {
    0 <= e < |b.events| && b.events[e].refund && b.events[e].state != Processed
    && e < |b'.events| && b'.events[e].state == Processed
  }

  lemma FundingFacts(b: Books)
    requires BooksInv(b)
    ensures FundingOk(b) && OrdersDistinct(b.access.periods) && AccessInv(b.access)
  {
  }

  /** The entitlement half of an accepted refund, on books where it is already recorded. */
  lemma WithdrawalEffect(c: Books, o: int, now: int, q: int)
    requires FundingOk(c) && AccessInv(c.access) && 0 <= o < |c.orders| && 0 <= q < |c.orders|
    requires PeriodOf(c.access.periods, o).Some? && c.orders[o].amount <= Refunds(c, o)
    requires Withdraw(c.access, PeriodOf(c.access.periods, o).value, now).Some?
    ensures var d := c.(access := Withdraw(c.access, PeriodOf(c.access.periods, o).value, now).value);
      && Exact(d, o) && !Funds(d, o)
      && PeriodOf(d.access.periods, q) == PeriodOf(c.access.periods, q)
      && (q != o ==> (Funds(d, q) <==> Funds(c, q)))
  {
    var p := PeriodOf(c.access.periods, o).value;
    WithdrawKeepsInv(c.access, p, now);
    var access := Withdraw(c.access, p, now).value;
    WithdrawnFunds(c, access, p, q);
    WithdrawnFunds(c, access, p, o);
    hide Withdraw, AccessInv, FundingOk, RefundSum;
  }

  /** An accepted refund makes its own order's accounting exact and never spoils another's. */
  lemma RefundEffect(b: Books, e: int, now: int, q: int)
    requires BooksInv(b) && Unhandled(b, e) && b.events[e].refund && 0 <= q < |b.orders|
    ensures var b' := ProcessRefund(b, e, now);
      && b'.orders == b.orders
      && (RefundsAt(b, b', e) && Resolves(b, b.events[e]) && b.attempts[b.events[e].attempt.value].order == q ==> Exact(b', q))
      && (Exact(b, q) ==> Exact(b', q))
  {
    hide BooksInv, FundingOk, OrdersDistinct, AccessInv, RefundSum;
    if !Rejects(b, b.events[e]) {
      var o := b.attempts[b.events[e].attempt.value].order;
      var c := RefundRecorded(b, e);
      RefundRecordedKeepsInv(b, e);
      FundingFacts(c);
      UnfundedMeansRefunded(c, q);
      AcceptRefundShape(b, e, now);
      assert ProcessRefund(b, e, now) == AcceptRefund(b, e, now);
      assert c.access == b.access && c.orders == b.orders && b.events[e].amount.value > 0;
      hide AcceptRefund, RefundRecorded, ProcessRefund, Rejects, Withdraw;
      var p := PeriodOf(b.access.periods, o);
      if p.Some? && c.orders[o].amount <= Refunds(c, o) && Withdraw(b.access, p.value, now).Some? {
        WithdrawalEffect(c, o, now, q);
      }
    }
  }

  /** The step pays an order whose refunds already reach its amount, as the books before it tell. */
  predicate PaysRefunded(b: Books, step: PaymentStep, o: int)
    requires 0 <= o < |b.orders|
  {
    Pays(b, step, o) && b.orders[o].amount <= Refunds(b, o)
  }

  /** What a step may do to the accounting of one order. */
  ghost predicate AccountingKept(b: Books, b': Books, o: int)
    requires 0 <= o < |b.orders|
  {
    o < |b'.orders| && (Exact(b, o) ==> (Exact(b', o) <==> !(NewlyPaid(b, b', o) && b.orders[o].amount <= Refunds(b, o))))
  }

  lemma NeutralStep(b: Books, b': Books, o: int)
    requires 0 <= o < |b.orders| <= |b'.orders| && b'.access.periods == b.access.periods
    requires b'.orders[o].amount == b.orders[o].amount && Refunds(b', o) == Refunds(b, o)
    requires b'.orders[o].status == Paid ==> b.orders[o].status == Paid
    ensures AccountingKept(b, b', o)
  {
  }

  lemma SettledEffect(b: Books, c: Books, o: int, q: int)
    requires 0 <= o < |b.orders| == |c.orders| && 0 <= q < |b.orders| && NewlySettled(b, c, o)
    ensures AccountingKept(b, c, q) && Refunds(c, q) == Refunds(b, q)
  {
    hide AccessInv, Extends, PeriodOk, RefundSum;
    var n := |b.access.periods|;
    assert c.access.periods == c.access.periods[..n] + [c.access.periods[n]];
    PeriodOfAppend(b.access.periods, c.access.periods[n], q);
    hide PeriodOf;
  }

  lemma SettleEffect(b: Books, o: int, now: int, q: int)
    requires BooksInv(b) && 0 <= o < |b.orders| && 0 <= q < |b.orders| && Settle(b, o, now).Some?
    ensures var c := Settle(b, o, now).value;
      AccountingKept(b, c, q) && Refunds(c, q) == Refunds(b, q)
  {
    SettleShape(b, o, now);
    hide Settle, BooksInv, RefundSum, PeriodOf, NewlySettled;
    if b.orders[o].status != Paid { SettledEffect(b, Settle(b, o, now).value, o, q); } else { NeutralStep(b, b, q); }
  }

  lemma PeriodOfAppend(periods: seq<PeriodRow>, p: PeriodRow, o: int)
    ensures PeriodOf(periods + [p], o) == if p.order == Some(o) then Some(|periods|) else PeriodOf(periods, o)
  {
    assert (periods + [p])[..|periods|] == periods;
  }

  lemma AcceptPaidEffect(b: Books, e: int, now: int, q: int)
    requires BooksInv(b) && 0 <= e < |b.events| && Resolves(b, b.events[e]) && 0 <= q < |b.orders|
    ensures AccountingKept(b, AcceptPaid(b, e, now), q)
  {
    hide BooksInv, RefundSum;
    var ev := b.events[e];
    var o := b.attempts[ev.attempt.value].order;
    var b' := AcceptPaid(b, e, now);
    if Settle(b, o, now).Some? {
      var c := Settle(b, o, now).value;
      SettleEffect(b, o, now, q);
      assert b'.orders == c.orders && b'.access == c.access && |c.orders| == |b.orders|;
      RefundSumAppend(b.txs, Tx(o, ev.provider, PaidTx, EventKey(ev.key), b.orders[o].amount), q, b.orders[q].provider);
      hide Settle, AcceptPaid, PeriodOf;
      assert AccountingKept(b, c, q) && RefundSum(b'.txs, q, b.orders[q].provider) == RefundSum(b.txs, q, b.orders[q].provider);
    } else {
      NeutralStep(b, b, q);
    }
  }

  lemma PaidEffect(b: Books, e: int, now: int, q: int)
    requires BooksInv(b) && Unhandled(b, e) && !b.events[e].refund && b.events[e].status == Paid && 0 <= q < |b.orders|
    ensures AccountingKept(b, ProcessPaid(b, e, now), q)
  {
    hide BooksInv, RefundSum, AcceptPaid;
    if Resolves(b, b.events[e]) { AcceptPaidEffect(b, e, now, q); }
    NeutralStep(b, Mark(b, e, Rejected), q);
    NeutralStep(b, Mark(b, e, Ignored), q);
  }

  lemma InvoiceEffect(b: Books, b': Books, o: int)
    requires BooksInv(b) && InvoiceStep(b, b') && 0 <= o < |b.orders|
    ensures AccountingKept(b, b', o)
  {
    InvoiceStepRefunds(b, b', o);
    hide BooksInv, RefundSum;
    NeutralStep(b, b', o);
  }

  lemma OtherEffect(b: Books, e: int, o: int)
    requires 0 <= e < |b.events| && 0 <= o < |b.orders|
    ensures AccountingKept(b, ProcessOther(b, e), o)
  {
    hide RefundSum, PeriodOf, LatestAttempt;
    NeutralStep(b, ProcessOther(b, e), o);
  }

  lemma ProcessEffect(b: Books, e: int, now: int, o: int)
    requires BooksInv(b) && 0 <= o < |b.orders|
    ensures AccountingKept(b, Process(b, e, now), o)
  {
    hide BooksInv, RefundSum, PeriodOf, ProcessRefund, ProcessPaid, ProcessOther;
    if !Unhandled(b, e) { NeutralStep(b, b, o); }
    else if b.events[e].refund { RefundEffect(b, e, now, o); }
    else if b.events[e].status == Paid { PaidEffect(b, e, now, o); }
    else { OtherEffect(b, e, o); }
  }

  lemma FinalizeEffect(b: Books, a: int, token: int, status: PaymentStatus, id: string, o: int)
    requires BooksInv(b) && 0 <= o < |b.orders|
    ensures AccountingKept(b, FinalizeClaim(b, a, token, status, id), o)
  {
    FinalizeKeepsInv(b, a, token, status, id);
    hide BooksInv, RefundSum, Grows;
    var b' := FinalizeClaim(b, a, token, status, id);
    if b' == b { NeutralStep(b, b, o); } else { InvoiceEffect(b, b', o); }
  }

  /** Steps that touch neither transactions nor periods nor the status of an existing order. */
  lemma QuietEffect(b: Books, step: PaymentStep, lease: int, o: int)
    requires 0 <= o < |b.orders| && (step.Prepares? || step.Fails? || step.Arrives? || step.Lapses?)
    ensures AccountingKept(b, Apply(b, step, lease), o)
  {
    hide RefundSum, OrderByKey, LatestAttempt, PeriodOf;
    NeutralStep(b, Apply(b, step, lease), o);
  }

  lemma StepAccounting(b: Books, step: PaymentStep, lease: int, o: int)
    requires BooksInv(b) && 0 <= o < |b.orders|
    ensures AccountingKept(b, Apply(b, step, lease), o)
  {
    hide BooksInv, RefundSum, Process, FinalizeClaim, Settle, PeriodOf;
    match step
    case Finalizes(a, token, status, id) => FinalizeEffect(b, a, token, status, id, o);
    case Processes(e, now) => ProcessEffect(b, e, now, o);
    case Settles(q, now) =>
      if 0 <= q < |b.orders| && Settle(b, q, now).Some? { SettleEffect(b, q, now, o); } else { NeutralStep(b, b, o); }
    case _ => QuietEffect(b, step, lease, o);
  }

  /**
   Refund accounting: a run's next step keeps "funded if and only if refunds are below the amount"
   true of an order if and only if it does not pay an order that was already refunded in full.
   */
  lemma AccountingExactlyWhen(steps: seq<PaymentStep>, step: PaymentStep, lease: int, o: int)
    requires 0 <= o < |Run(steps, lease).orders| && Exact(Run(steps, lease), o)
    ensures o < |Run(steps + [step], lease).orders|
    ensures Exact(Run(steps + [step], lease), o) <==> !PaysRefunded(Run(steps, lease), step, o)
  {
    RunInv(steps, lease);
    RunSnoc(steps, step, lease);
    hide Run, Apply, BooksInv, Pays, NewlyPaid, Exact;
    StepAccounting(Run(steps, lease), step, lease, o);
    StepPays(Run(steps, lease), step, lease, o);
  }

  /** After any accepted refund of an order that has a period, the period is funded iff its refunds are below its amount. */
  lemma AcceptedRefundIsExact(steps: seq<PaymentStep>, lease: int, e: int, now: int)
    requires RefundsAt(Run(steps, lease), Run(steps + [Processes(e, now)], lease), e)
    ensures var b, b' := Run(steps, lease), Run(steps + [Processes(e, now)], lease);
      Resolves(b, b.events[e]) && b.attempts[b.events[e].attempt.value].order < |b'.orders|
      && Exact(b', b.attempts[b.events[e].attempt.value].order)
  {
    RunInv(steps, lease);
    var b := Run(steps, lease);
    RunSnoc(steps, Processes(e, now), lease);
    hide Run, BooksInv, AcceptRefund, RefundSum, PeriodOf;
    if b.events[e].state != Ignored && Resolves(b, b.events[e]) {
      RefundEffect(b, e, now, b.attempts[b.events[e].attempt.value].order);
    }
  }

  // ---------------------------------------------------------------- redelivery

  predicate Handled(b: Books, e: int) {
    0 <= e < |b.events| && b.events[e].state != Received
  }

  lemma HandledIsNoOp(b: Books, e: int, now: int)
    requires BooksInv(b) && Handled(b, e)
    ensures Process(b, e, now) == b
  {
    if b.events[e].state == Rejected {
      assert EventsOk(b) && Rejects(b, b.events[e]);
      hide BooksInv;
      assert b.events[e := b.events[e].(state := Rejected)] == b.events;
    }
  }

  lemma OtherEventsKept(b: Books, e: int, now: int, f: int)
    requires 0 <= f < |b.events| && f != e
    ensures |Process(b, e, now).events| == |b.events| && Process(b, e, now).events[f] == b.events[f]
  {
    hide Activate, Withdraw, RefundSum, RefundValid, SettlementValid, AddTx, PeriodOf, LatestAttempt;
  }

  lemma HandledStays(b: Books, step: PaymentStep, lease: int, e: int)
    requires BooksInv(b) && Handled(b, e)
    ensures Handled(Apply(b, step, lease), e)
  {
    if step.Processes? {
      if step.event == e { HandledIsNoOp(b, e, step.now); } else { OtherEventsKept(b, step.event, step.now, e); }
    }
    hide BooksInv, Process, Activate, Lapse;
  }

  lemma {:induction false} HandledForever(steps: seq<PaymentStep>, more: seq<PaymentStep>, lease: int, e: int)
    requires Handled(Run(steps, lease), e)
    ensures Handled(Run(steps + more, lease), e)
  {
    if more == [] {
      assert steps + more == steps;
    } else {
      var init := more[..|more| - 1];
      HandledForever(steps, init, lease, e);
      RunInv(steps + init, lease);
      assert steps + more == (steps + init) + [more[|more| - 1]];
      RunSnoc(steps + init, more[|more| - 1], lease);
      hide BooksInv, Run, Apply, Handled;
      HandledStays(Run(steps + init, lease), more[|more| - 1], lease, e);
    }
  }

  /**
   Redelivery: once an event has been processed, ignored or rejected, processing it again at any
   later point of the run, at any clock reading, changes nothing at all.
   */
  lemma RedeliveryIsIdempotent(steps: seq<PaymentStep>, more: seq<PaymentStep>, lease: int, e: int, now: int)
    requires Handled(Run(steps, lease), e)
    ensures Run(steps + more + [Processes(e, now)], lease) == Run(steps + more, lease)
  {
    HandledForever(steps, more, lease, e);
    RunInv(steps + more, lease);
    HandledIsNoOp(Run(steps + more, lease), e, now);
    RunSnoc(steps + more, Processes(e, now), lease);
  }

  // ---------------------------------------------------------------- conservation of paid time

  /** The seconds an order contributes to a subscription through its funded period. */
  function Contribution(periods: seq<PeriodRow>, orders: seq<OrderRow>, o: int, sub: int): int
    requires 0 <= o < |orders|
  {
    var p := PeriodOf(periods, o);
    if p.Some? && periods[p.value].sub == sub && periods[p.value].paid then orders[o].days * DAY else 0
  }

  function Purchased(periods: seq<PeriodRow>, orders: seq<OrderRow>, n: int, sub: int): int
    requires 0 <= n <= |orders|
  {
    if n == 0 then 0 else Purchased(periods, orders, n - 1, sub) + Contribution(periods, orders, n - 1, sub)
  }

  lemma ContributionAppend(periods: seq<PeriodRow>, p: PeriodRow, orders: seq<OrderRow>, o: int, sub: int)
    requires 0 <= o < |orders| && p.order.Some? && PeriodOf(periods, p.order.value).None?
    requires p.order == Some(o) ==> p.end - p.start == orders[o].days * DAY
    ensures Contribution(periods + [p], orders, o, sub)
      == Contribution(periods, orders, o, sub) + if p.order == Some(o) then Length(p, sub) else 0
  {
    PeriodOfAppend(periods, p, o);
    var all := periods + [p];
    assert all[|periods|] == p;
    var i := PeriodOf(periods, o);
    assert i.Some? ==> all[i.value] == periods[i.value];
    hide PeriodOf;
  }

  /** One more period changes the contribution of its own order only. */
  lemma {:induction false} PurchasedAppend(periods: seq<PeriodRow>, p: PeriodRow, orders: seq<OrderRow>, n: int, sub: int)
    requires 0 <= n <= |orders| && p.order.Some? && 0 <= p.order.value < |orders|
    requires PeriodOf(periods, p.order.value).None? && p.end - p.start == orders[p.order.value].days * DAY
    ensures Purchased(periods + [p], orders, n, sub)
      == Purchased(periods, orders, n, sub) + if p.order.value < n then Length(p, sub) else 0
    decreases n
  {
    hide PeriodOf, Contribution, Length;
    if n > 0 {
      PurchasedAppend(periods, p, orders, n - 1, sub);
      ContributionAppend(periods, p, orders, n - 1, sub);
    }
  }

  lemma {:induction false} NothingPurchased(orders: seq<OrderRow>, n: int, sub: int)
    requires 0 <= n <= |orders|
    ensures Purchased([], orders, n, sub) == 0
    decreases n
  {
    if n > 0 { NothingPurchased(orders, n - 1, sub); }
  }

  /** Every period stands for its own order and has the purchased length. */
  ghost predicate Backed(periods: seq<PeriodRow>, orders: seq<OrderRow>) {
    && OrdersDistinct(periods)
    && forall i :: 0 <= i < |periods| ==>
         var o := periods[i].order;
         o.Some? && 0 <= o.value < |orders| && periods[i].end - periods[i].start == orders[o.value].days * DAY
  }

  /** Counting by period and counting by order agree. */
  lemma {:induction false} CountBothWays(periods: seq<PeriodRow>, orders: seq<OrderRow>, sub: int)
    requires Backed(periods, orders)
    ensures FundedSeconds(periods, sub) == Purchased(periods, orders, |orders|, sub)
    decreases |periods|
  {
    if periods == [] {
      NothingPurchased(orders, |orders|, sub);
    } else {
      var n := |periods| - 1;
      var init, p := periods[..n], periods[n];
      assert periods == init + [p];
      CountBothWays(init, orders, sub);
      assert PeriodOf(init, p.order.value).None?;
      PurchasedAppend(init, p, orders, |orders|, sub);
    }
  }

  /** Conservation: a subscription has access for exactly the days of the orders that fund it, no instant counted twice. */
  lemma PaidTimeIsConserved(steps: seq<PaymentStep>, lease: int, sub: int)
    ensures var b := Run(steps, lease);
      |FundedInstants(b.access.periods, sub)| == Purchased(b.access.periods, b.orders, |b.orders|, sub)
  {
    RunInv(steps, lease);
    var b := Run(steps, lease);
    FundedTimeIsAdditive(b.access, sub);
    hide FundedInstants, FundedSeconds, Run;
    assert Backed(b.access.periods, b.orders) by {
      forall i | 0 <= i < |b.access.periods|
        ensures var o := b.access.periods[i].order;
          && o.Some? && 0 <= o.value < |b.orders|
          && b.access.periods[i].end - b.access.periods[i].start == b.orders[o.value].days * DAY
      {
        assert PeriodOk(b, b.access.periods[i]);
      }
    }
    hide BooksInv;
    CountBothWays(b.access.periods, b.orders, sub);
  }

  /** Step `n` of the run does not pay an order that is already refunded in full. */
  ghost predicate SettlesCleanly(steps: seq<PaymentStep>, n: int, lease: int)
    requires 0 <= n < |steps|
  {
    var b := Run(steps[..n], lease);
    forall o :: 0 <= o < |b.orders| ==> !PaysRefunded(b, steps[n], o)
  }

  ghost predicate NeverSettlesRefunded(steps: seq<PaymentStep>, lease: int) {
    forall n :: 0 <= n < |steps| ==> SettlesCleanly(steps, n, lease)
  }

  /** Then a period of the run is funded exactly while its order is not refunded in full. */
  lemma {:induction false} FundedMeansNotRefunded(steps: seq<PaymentStep>, lease: int, o: int)
    requires NeverSettlesRefunded(steps, lease) && 0 <= o < |Run(steps, lease).orders|
    ensures Exact(Run(steps, lease), o)
    decreases |steps|
  {
    if steps != [] {
      var n := |steps| - 1;
      var p := steps[..n];
      assert steps[..n + 1] == steps == p + [steps[n]];
      RunSnoc(p, steps[n], lease);
      assert SettlesCleanly(steps, n, lease);
      hide Run, Apply, PaysRefunded;
      if o < |Run(p, lease).orders| {
        PrefixSettlesCleanly(steps, lease);
        FundedMeansNotRefunded(p, lease, o);
        AccountingExactlyWhen(p, steps[n], lease, o);
      } else {
        RunInv(p, lease);
        hide BooksInv;
        NewOrderHasNoPeriod(Run(p, lease), steps[n], lease, o);
      }
    }
  }

  lemma PrefixSettlesCleanly(steps: seq<PaymentStep>, lease: int)
    requires NeverSettlesRefunded(steps, lease) && steps != []
    ensures NeverSettlesRefunded(steps[..|steps| - 1], lease)
  {
    hide Run;
    var p := steps[..|steps| - 1];
    forall m | 0 <= m < |p| ensures SettlesCleanly(p, m, lease) {
      assert p[..m] == steps[..m] && SettlesCleanly(steps, m, lease);
    }
  }

  /** The days of the orders bought into a subscription and not refunded in full, in seconds. */
  function UnrefundedSeconds(b: Books, n: int, sub: int): int
    requires 0 <= n <= |b.orders|
  {
    if n == 0 then 0
    else
      var p := PeriodOf(b.access.periods, n - 1);
      UnrefundedSeconds(b, n - 1, sub)
      + if p.Some? && b.access.periods[p.value].sub == sub && Refunds(b, n - 1) < b.orders[n - 1].amount
        then b.orders[n - 1].days * DAY else 0
  }

  lemma {:induction false} ExactSeconds(b: Books, n: int, sub: int)
    requires 0 <= n <= |b.orders| && forall o :: 0 <= o < |b.orders| ==> Exact(b, o)
    ensures Purchased(b.access.periods, b.orders, n, sub) == UnrefundedSeconds(b, n, sub)
    decreases n
  {
    if n > 0 {
      ExactSeconds(b, n - 1, sub);
      assert Exact(b, n - 1);
    }
  }

  /** Total access time equals the days of the subscription's non-refunded orders, unless one was paid after its full refund. */
  lemma AccessIsUnrefundedTime(steps: seq<PaymentStep>, lease: int, sub: int)
    requires NeverSettlesRefunded(steps, lease)
    ensures var b := Run(steps, lease);
      |FundedInstants(b.access.periods, sub)| == UnrefundedSeconds(b, |b.orders|, sub)
  {
    var b := Run(steps, lease);
    PaidTimeIsConserved(steps, lease, sub);
    forall o | 0 <= o < |b.orders| ensures Exact(b, o) {
      FundedMeansNotRefunded(steps, lease, o);
    }
    hide Exact, Run, FundedInstants;
    ExactSeconds(b, |b.orders|, sub);
  }

  lemma OnlyPreparationAddsOrders(b: Books, step: PaymentStep, lease: int)
    ensures |Apply(b, step, lease).orders| > |b.orders| ==> Apply(b, step, lease).access == b.access
  {
    hide Activate, Withdraw, Lapse;
  }

  lemma NewOrderHasNoPeriod(b: Books, step: PaymentStep, lease: int, o: int)
    requires BooksInv(b) && |b.orders| <= o < |Apply(b, step, lease).orders|
    ensures PeriodOf(Apply(b, step, lease).access.periods, o).None?
  {
    OnlyPreparationAddsOrders(b, step, lease);
    hide Apply;
    forall i | 0 <= i < |b.access.periods| ensures b.access.periods[i].order != Some(o) {
      assert PeriodOk(b, b.access.periods[i]);
    }
  }

  /** Every period has exactly the length its order bought. */
  lemma PeriodsHavePurchasedLength(steps: seq<PaymentStep>, lease: int, i: int)
    requires 0 <= i < |Run(steps, lease).access.periods|
    ensures var b := Run(steps, lease);
      var p := b.access.periods[i];
      p.order.Some? && 0 <= p.order.value < |b.orders| && p.end - p.start == b.orders[p.order.value].days * DAY
  {
    RunInv(steps, lease);
    assert PeriodOk(Run(steps, lease), Run(steps, lease).access.periods[i]);
  }

  /** Within a subscription, a later period starts no earlier than an older one ends. */
  lemma PeriodsFormAChain(steps: seq<PaymentStep>, lease: int, i: int, j: int)
    requires 0 <= i < j < |Run(steps, lease).access.periods|
    requires Run(steps, lease).access.periods[i].sub == Run(steps, lease).access.periods[j].sub
    ensures Run(steps, lease).access.periods[i].start < Run(steps, lease).access.periods[i].end
      <= Run(steps, lease).access.periods[j].start
  {
    RunInv(steps, lease);
  }

  /** A user never has two active subscriptions. */
  lemma OneActiveSubscription(steps: seq<PaymentStep>, lease: int, i: int, j: int)
    requires var subs := Run(steps, lease).access.subs;
      && 0 <= i < |subs| && 0 <= j < |subs| && subs[i].user == subs[j].user
      && subs[i].status == SubActive && subs[j].status == SubActive
    ensures i == j
  {
    RunInv(steps, lease);
  }

  // ---------------------------------------------------------------- why access ends

  /** A subscription that was active is no longer. */
  predicate Ends(a: Access, b: Access, i: int) {
    0 <= i < |a.subs| && i < |b.subs| && a.subs[i].status == SubActive && b.subs[i].status != SubActive
  }

  /** The owner of subscription `i` has switched to a subscription of another tariff. */
  predicate Replaced(a: Access, b: Access, i: int) {
    && 0 <= i < |a.subs| && |b.subs| == |a.subs| + 1
    && (var n := b.subs[|a.subs|]; n.user == a.subs[i].user && n.tariff != a.subs[i].tariff && n.status == SubActive)
  }

  lemma ActivationEndsByReplacement(a: Access, user: int, tariff: int, days: int, now: int, order: int, i: int)
    requires var r := Activate(a, user, tariff, days, now, order); r.Some? && Ends(a, r.value, i)
    ensures Replaced(a, Activate(a, user, tariff, days, now, order).value, i)
  {
    hide LastEnd;
  }

  lemma WithdrawalEndsUnfunded(a: Access, p: int, now: int, i: int)
    requires 0 <= p < |a.periods| && Withdraw(a, p, now).Some? && Ends(a, Withdraw(a, p, now).value, i)
    ensures !HasCurrent(Withdraw(a, p, now).value, i, now)
  {
    var b := Withdraw(a, p, now).value;
    assert b.periods == a.periods[p := a.periods[p].(paid := false)] && i == a.periods[p].sub;
  }

  lemma LapseEndsUnfunded(a: Access, sub: int, now: int, i: int)
    requires Lapse(a, sub, now).Some? && Ends(a, Lapse(a, sub, now).value, i)
    ensures !HasCurrent(Lapse(a, sub, now).value, i, now)
  {
  }

  /** The clock reading of a step that has one. */
  function At(step: PaymentStep): int {
    match step
    case Prepares(_, now, _) => now
    case Processes(_, now) => now
    case Settles(_, now) => now
    case Lapses(_, now) => now
    case _ => 0
  }

  ghost predicate EndsForCause(a: Access, b: Access, now: int, i: int) {
    Ends(a, b, i) ==> Replaced(a, b, i) || !HasCurrent(b, i, now)
  }

  lemma SettleEndsForCause(b: Books, o: int, now: int, i: int)
    requires 0 <= o < |b.orders| && Settle(b, o, now).Some?
    ensures EndsForCause(b.access, Settle(b, o, now).value.access, now, i)
  {
    var row := b.orders[o];
    var r := Activate(b.access, row.user, row.tariff, row.days, now, o);
    if r.Some? && Ends(b.access, r.value, i) {
      ActivationEndsByReplacement(b.access, row.user, row.tariff, row.days, now, o, i);
    }
    hide Activate, HasCurrent;
  }

  lemma ProcessEndsForCause(b: Books, e: int, now: int, i: int)
    ensures EndsForCause(b.access, Process(b, e, now).access, now, i)
  {
    hide HasCurrent, Settle, Withdraw, RefundSum, AddTx, LatestAttempt;
    if Unhandled(b, e) && Resolves(b, b.events[e]) {
      var o := b.attempts[b.events[e].attempt.value].order;
      if b.events[e].refund {
        var p := PeriodOf(b.access.periods, o);
        if p.Some? && Withdraw(b.access, p.value, now).Some? && Ends(b.access, Withdraw(b.access, p.value, now).value, i) {
          WithdrawalEndsUnfunded(b.access, p.value, now, i);
        }
      } else if Settle(b, o, now).Some? {
        SettleEndsForCause(b, o, now, i);
      }
    }
  }

  /**
   Access never ends without cause: a step that ends an active subscription either finds it without a
   current funded period, or moves its owner to an active subscription of another tariff.
   */
  lemma AccessEndsForCause(steps: seq<PaymentStep>, step: PaymentStep, lease: int, i: int)
    ensures EndsForCause(Run(steps, lease).access, Run(steps + [step], lease).access, At(step), i)
  {
    var b := Run(steps, lease);
    RunSnoc(steps, step, lease);
    hide Run, Process, Settle, Lapse, HasCurrent;
    match step
    case Processes(e, now) => ProcessEndsForCause(b, e, now, i);
    case Settles(o, now) =>
      if 0 <= o < |b.orders| && Settle(b, o, now).Some? { SettleEndsForCause(b, o, now, i); }
    case Lapses(sub, now) =>
      if Lapse(b.access, sub, now).Some? && Ends(b.access, Lapse(b.access, sub, now).value, i) {
        LapseEndsUnfunded(b.access, sub, now, i);
      }
    case _ => hide OrderByKey, LatestAttempt, AttemptByProviderId, AddTx;
  }

  // ---------------------------------------------------------------- funded time that is lost

  /** The step ends a subscription that is left with a funded period ending after the step's clock. */
  ghost predicate StrandsFunding(a: Access, b: Access, now: int, i: int) {
    Ends(a, b, i) && HasFundedAfter(b, i, now)
  }

  /** The reconciler finds the active subscription between funded periods. */
  predicate LapsesInGap(b: Books, step: PaymentStep, i: int) {
    && step.Lapses? && step.sub == i && 0 <= i < |b.access.subs| && b.access.subs[i].status == SubActive
    && b.access.subs[i].createdAt <= step.now
    && !HasCurrent(b.access, i, step.now) && HasFundedAfter(b.access, i, step.now)
  }

  /** The active subscription's owner pays order `o`, of another tariff, while funded time is left. */
  predicate SwitchesTariff(b: Books, step: PaymentStep, i: int, o: int) {
    && Pays(b, step, o) && 0 <= o < |b.orders| && 0 <= i < |b.access.subs| && b.access.subs[i].status == SubActive
    && b.orders[o].user == b.access.subs[i].user && b.orders[o].tariff != b.access.subs[i].tariff
    && HasFundedAfter(b.access, i, At(step))
  }

  lemma LapseStrands(a: Access, sub: int, now: int, i: int)
    requires Lapse(a, sub, now).Some?
    ensures StrandsFunding(a, Lapse(a, sub, now).value, now, i) <==>
      (sub == i && 0 <= i < |a.subs| && a.subs[i].status == SubActive && a.subs[i].createdAt <= now
       && !HasCurrent(a, i, now) && HasFundedAfter(a, i, now))
  {
    var b := Lapse(a, sub, now).value;
    assert b.periods == a.periods;
    hide HasCurrent;
    assert HasFundedAfter(b, i, now) <==> HasFundedAfter(a, i, now);
    hide HasFundedAfter;
  }

  lemma LapseBlocked(a: Access, sub: int, now: int)
    requires Lapse(a, sub, now).None?
    ensures 0 <= sub < |a.subs| && now < a.subs[sub].createdAt
  {
    hide HasCurrent;
  }

  lemma ActiveIsUnique(a: Access, i: int)
    requires AccessInv(a) && 0 <= i < |a.subs| && a.subs[i].status == SubActive
    ensures ActiveOf(a.subs, a.subs[i].user) == Some(i)
  {
    var k := ActiveOf(a.subs, a.subs[i].user);
    assert OneActive(a.subs);
  }

  /** Periods appended for another subscription do not change this one's funded future. */
  lemma AppendedElsewhere(a: Access, b: Access, i: int, now: int)
    requires |b.periods| == |a.periods| + 1 && b.periods[..|a.periods|] == a.periods && b.periods[|a.periods|].sub != i
    ensures HasFundedAfter(b, i, now) <==> HasFundedAfter(a, i, now)
  {
    forall k | 0 <= k < |a.periods| ensures b.periods[k] == a.periods[k] {
      assert b.periods[k] == b.periods[..|a.periods|][k];
    }
  }

  lemma ActivateStrands(a: Access, user: int, tariff: int, days: int, now: int, order: int, i: int)
    requires AccessInv(a) && Activate(a, user, tariff, days, now, order).Some?
    ensures StrandsFunding(a, Activate(a, user, tariff, days, now, order).value, now, i) <==>
      (0 <= i < |a.subs| && a.subs[i].status == SubActive && a.subs[i].user == user && a.subs[i].tariff != tariff
       && HasFundedAfter(a, i, now))
  {
    var b := Activate(a, user, tariff, days, now, order).value;
    if 0 <= i < |a.subs| && a.subs[i].status == SubActive {
      ActiveIsUnique(a, i);
      hide AccessInv, LastEnd;
      if a.subs[i].user == user && a.subs[i].tariff != tariff {
        AppendedElsewhere(a, b, i, now);
      } else {
        assert b.subs[i] == a.subs[i];
      }
    }
    hide HasFundedAfter;
  }

  lemma WithdrawalStrandsNothing(a: Access, p: int, now: int, i: int)
    requires 0 <= p < |a.periods| && Withdraw(a, p, now).Some?
    ensures !StrandsFunding(a, Withdraw(a, p, now).value, now, i)
  {
  }

  lemma SettleStrands(b: Books, o: int, now: int, i: int)
    requires AccessInv(b.access) && 0 <= o < |b.orders| && Settle(b, o, now).Some?
    ensures StrandsFunding(b.access, Settle(b, o, now).value.access, now, i) <==>
      (CanSettle(b, o, now) && 0 <= i < |b.access.subs| && b.access.subs[i].status == SubActive
       && b.orders[o].user == b.access.subs[i].user && b.orders[o].tariff != b.access.subs[i].tariff
       && HasFundedAfter(b.access, i, now))
  {
    var row := b.orders[o];
    ActivatesExactlyWhen(b.access, row.user, row.tariff, row.days, now, o);
    if Activate(b.access, row.user, row.tariff, row.days, now, o).Some? {
      ActivateStrands(b.access, row.user, row.tariff, row.days, now, o, i);
    }
    hide Activate, AccessInv, HasFundedAfter, ReplacementStores;
  }

  lemma ProcessStrands(b: Books, e: int, now: int, i: int)
    requires AccessInv(b.access)
    ensures StrandsFunding(b.access, Process(b, e, now).access, now, i) <==>
      exists o :: SwitchesTariff(b, Processes(e, now), i, o)
  {
    hide AccessInv, HasFundedAfter, CanSettle, Settle, Withdraw, SettlementValid, RefundSum, AddTx, LatestAttempt;
    if Unhandled(b, e) && b.events[e].refund {
      if Resolves(b, b.events[e]) {
        var p := PeriodOf(b.access.periods, b.attempts[b.events[e].attempt.value].order);
        if p.Some? && Withdraw(b.access, p.value, now).Some? { WithdrawalStrandsNothing(b.access, p.value, now, i); }
      }
    } else if Unhandled(b, e) && b.events[e].status == Paid && Resolves(b, b.events[e]) {
      var o := b.attempts[b.events[e].attempt.value].order;
      SettlePays(b, o, now, o);
      if Settle(b, o, now).Some? { SettleStrands(b, o, now, i); }
      if Reports(b, e, o) {
        assert Process(b, e, now).access == if Settle(b, o, now).Some? then Settle(b, o, now).value.access else b.access;
        assert StrandsFunding(b.access, Process(b, e, now).access, now, i) <==> SwitchesTariff(b, Processes(e, now), i, o);
      } else {
        assert Process(b, e, now).access == b.access;
      }
    }
  }

  lemma StepStrands(b: Books, step: PaymentStep, lease: int, i: int)
    requires BooksInv(b)
    ensures StrandsFunding(b.access, Apply(b, step, lease).access, At(step), i) <==>
      (LapsesInGap(b, step, i) || exists o :: SwitchesTariff(b, step, i, o))
  {
    assert AccessInv(b.access);
    hide BooksInv, AccessInv, HasCurrent, HasFundedAfter, Process, Settle, Lapse, CanSettle;
    match step
    case Processes(e, now) => ProcessStrands(b, e, now, i);
    case Settles(q, now) =>
      CanSettleInRange(b, q, now);
      if 0 <= q < |b.orders| {
        SettlePays(b, q, now, q);
        if Settle(b, q, now).Some? { SettleStrands(b, q, now, i); }
        assert SwitchesTariff(b, step, i, q) <==> exists o :: SwitchesTariff(b, step, i, o);
      }
    case Lapses(sub, now) =>
      if Lapse(b.access, sub, now).Some? { LapseStrands(b.access, sub, now, i); } else { LapseBlocked(b.access, sub, now); }
    case _ => hide OrderByKey, LatestAttempt, AttemptByProviderId, AddTx;
  }

  /**
   Funded time that a step takes away: a step ends a subscription that still has a funded period
   ending after its clock if and only if it is the reconciler's expiry in a gap between funded
   periods, or it pays an order of another tariff for the same user while funded time is left.
   */
  lemma FundingStrandedExactlyWhen(steps: seq<PaymentStep>, step: PaymentStep, lease: int, i: int)
    ensures StrandsFunding(Run(steps, lease).access, Run(steps + [step], lease).access, At(step), i) <==>
      (LapsesInGap(Run(steps, lease), step, i) || exists o :: SwitchesTariff(Run(steps, lease), step, i, o))
  {
    RunInv(steps, lease);
    RunSnoc(steps, step, lease);
    hide Run, BooksInv, Apply, StrandsFunding, LapsesInGap, SwitchesTariff;
    StepStrands(Run(steps, lease), step, lease, i);
  }

  // ---------------------------------------------------------------- ended subscriptions

  predicate EndedSub(a: Access, i: int) {
    0 <= i < |a.subs| && a.subs[i].status != SubActive
  }

  /** Ended subscriptions stay ended and gain no funded period; a new subscription is active. */
  ghost predicate EndedForGood(a: Access, b: Access) {
    && |a.subs| <= |b.subs|
    && (forall i :: EndedSub(a, i) ==> b.subs[i].status != SubActive)
    && (forall i :: |a.subs| <= i < |b.subs| ==> b.subs[i].status == SubActive)
    && (forall k :: 0 <= k < |b.periods| && b.periods[k].paid && EndedSub(a, b.periods[k].sub) ==>
          k < |a.periods| && a.periods[k] == b.periods[k])
  }

  lemma ActivateEndsForGood(a: Access, user: int, tariff: int, days: int, now: int, order: int)
    ensures var r := Activate(a, user, tariff, days, now, order); r.Some? ==> EndedForGood(a, r.value)
  {
    hide LastEnd;
  }

  lemma WithdrawEndsForGood(a: Access, p: int, now: int)
    requires 0 <= p < |a.periods|
    ensures var r := Withdraw(a, p, now); r.Some? ==> EndedForGood(a, r.value)
  {
    hide HasFundedAfter;
  }

  lemma SettleEndsForGood(b: Books, o: int, now: int)
    requires 0 <= o < |b.orders|
    ensures var r := Settle(b, o, now); r.Some? ==> EndedForGood(b.access, r.value.access)
  {
    ActivateEndsForGood(b.access, b.orders[o].user, b.orders[o].tariff, b.orders[o].days, now, o);
    hide Activate;
  }

  lemma ProcessEndsForGood(b: Books, e: int, now: int)
    ensures EndedForGood(b.access, Process(b, e, now).access)
  {
    hide Settle, Withdraw, RefundSum, AddTx, LatestAttempt, SettlementValid;
    if Unhandled(b, e) && Resolves(b, b.events[e]) {
      var o := b.attempts[b.events[e].attempt.value].order;
      SettleEndsForGood(b, o, now);
      var p := PeriodOf(b.access.periods, o);
      if p.Some? { WithdrawEndsForGood(b.access, p.value, now); }
    }
  }

  lemma StepEndsForGood(b: Books, step: PaymentStep, lease: int)
    ensures EndedForGood(b.access, Apply(b, step, lease).access)
  {
    hide Process, Settle, HasCurrent;
    match step
    case Processes(e, now) => ProcessEndsForGood(b, e, now);
    case Settles(o, now) => if 0 <= o < |b.orders| { SettleEndsForGood(b, o, now); }
    case _ => hide OrderByKey, LatestAttempt, AttemptByProviderId, AddTx;
  }

  /** What an ended subscription has funded after a step, it had funded before. */
  lemma EndedGainsNothing(a: Access, b: Access, i: int, now: int)
    requires EndedForGood(a, b) && EndedSub(a, i) && HasFundedAfter(b, i, now)
    ensures HasFundedAfter(a, i, now)
  {
    var k :| 0 <= k < |b.periods| && b.periods[k].sub == i && b.periods[k].paid && now < b.periods[k].end;
    assert a.periods[k] == b.periods[k];
  }

  // ---------------------------------------------------------------- what the control plane sees

  /** The periods of one subscription, as the control plane reads them. */
  function AccessPeriods(periods: seq<PeriodRow>, sub: int): seq<ControlPlane.AccessPeriod> {
    if periods == [] then []
    else
      var last := periods[|periods| - 1];
      var rest := AccessPeriods(periods[..|periods| - 1], sub);
      if last.sub != sub then rest else rest + [ControlPlane.AccessPeriod(last.start, last.end, last.paid)]
  }

  function EntitlementOf(a: Access, sub: int): ControlPlane.Entitlement
    requires 0 <= sub < |a.subs|
  {
    ControlPlane.Entitlement(a.subs[sub].status == SubActive, AccessPeriods(a.periods, sub))
  }

  function Entitlements(b: Books): map<int, ControlPlane.Entitlement> {
    map i | 0 <= i < |b.access.subs| :: EntitlementOf(b.access, i)
  }

  /** The control plane's notion of current funded access is the payment side's. */
  lemma {:induction false} SameFunding(a: Access, sub: int, now: int)
    requires 0 <= sub < |a.subs|
    ensures ControlPlane.Funded(EntitlementOf(a, sub), now) <==> HasCurrent(a, sub, now)
    decreases |a.periods|
  {
    if a.periods != [] {
      var n := |a.periods| - 1;
      var last := a.periods[n];
      var c := a.(periods := a.periods[..n]);
      SameFunding(c, sub, now);
      var rest, all := AccessPeriods(c.periods, sub), AccessPeriods(a.periods, sub);
      if HasCurrent(c, sub, now) {
        var i :| 0 <= i < n && c.periods[i].sub == sub && Contains(c.periods[i], now);
        assert a.periods[i] == c.periods[i];
        var j :| 0 <= j < |rest| && ControlPlane.Covers(rest[j], now);
        assert all[j] == rest[j];
      }
      if last.sub == sub {
        assert all[|rest|] == ControlPlane.AccessPeriod(last.start, last.end, last.paid);
      }
    }
  }

  lemma SubsGrow(b: Books, step: PaymentStep, lease: int)
    ensures |b.access.subs| <= |Apply(b, step, lease).access.subs|
  {
    hide LastEnd, PeriodOf, RefundSum;
  }

  /** Every payment step is one of the entitlement changes that the control plane is proved safe under. */
  lemma PaymentsDriveEntitlements(steps: seq<PaymentStep>, step: PaymentStep, lease: int, sub: int, now: int)
    ensures Entitlements(Run(steps, lease)).Keys <= Entitlements(Run(steps + [step], lease)).Keys
    ensures sub in Entitlements(Run(steps, lease)) ==>
      (ControlPlane.Funded(Entitlements(Run(steps, lease))[sub], now) <==> HasCurrent(Run(steps, lease).access, sub, now))
  {
    RunSnoc(steps, step, lease);
    SubsGrow(Run(steps, lease), step, lease);
    hide Run, Apply, HasCurrent;
    if 0 <= sub < |Run(steps, lease).access.subs| { SameFunding(Run(steps, lease).access, sub, now); }
  }
}
