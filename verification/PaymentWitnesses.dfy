/**
 Runs of the payment core that show where a tempting promise fails: concrete inputs to the
 conditions proved in `PaymentTheorems`.
 */
module PaymentWitnesses {
  import opened Common
  import opened SubscriptionEntity
  import opened SubscriptionAccess
  import opened PaymentEntity
  import opened Payments
  import opened PaymentSafety
  import opened PaymentTheorems

  // ---------------------------------------------------------------- a refund before the payment

  const SAMPLE_ORDER := OrderRow(1, 1, "p", 100, "RUB", 30, "k", PaymentPending, None)
  const REFUND_HOOK := Webhook("p", "refund", true, Paid, Some("inv"), None, Some(100), Some("RUB"))
  const PAID_HOOK := Webhook("p", "paid", false, Paid, Some("inv"), None, Some(100), Some("RUB"))
  const INVOICE := AttemptRow(0, "p", PaymentPending, Some("inv"), None, None)
  const INVOICED := Books([SAMPLE_ORDER], [INVOICE], [], [Tx(0, "p", InvoiceTx, InvoiceKey("inv"), 100)], Access([], []))
  const REFUND_EVENT := EventRow(Some(0), Some(0), "p", "refund", true, Paid, Some("inv"), None, Some(100), Some("RUB"), Received)

  const CLAIMED := Books([SAMPLE_ORDER], [NewClaim(0, "p", 30, 7)], [], [], Access([], []))

  lemma ClaimedAndInvoiced()
    ensures Apply(NO_BOOKS, Prepares(SAMPLE_ORDER, 0, 7), 30) == CLAIMED
    ensures FinalizeClaim(CLAIMED, 0, 7, PaymentPending, "inv") == INVOICED
  {
    assert OrderByKey([], "k").None? && LatestAttempt([], 0).None?;
    assert AttemptByProviderId(CLAIMED.attempts, "p", "inv").None?;
    assert !HasTx([], "p", InvoiceKey("inv"));
  }

  /** No step reads a clock later than 0. */
  predicate AtStart(steps: seq<PaymentStep>) {
    forall n :: 0 <= n < |steps| ==> At(steps[n]) == 0
  }

  lemma InvoicedIsReachable() returns (steps: seq<PaymentStep>)
    ensures Run(steps, 30) == INVOICED && AtStart(steps)
  {
    ClaimedAndInvoiced();
    var prepare, finalize := Prepares(SAMPLE_ORDER, 0, 7), Finalizes(0, 7, PaymentPending, "inv");
    RunSnoc([], prepare, 30);
    RunSnoc([] + [prepare], finalize, 30);
    steps := [] + [prepare] + [finalize];
    assert Run([], 30) == NO_BOOKS;
    hide Run, FinalizeClaim, PrepareOrder;
  }

  lemma RefundRecordedFirst()
    ensures var b := Process(Ingest(INVOICED, REFUND_HOOK), 0, 0);
      && b.orders == [SAMPLE_ORDER] && b.attempts == [INVOICE]
      && |b.events| == 1 && b.events[0].key == "refund" && b.access == Access([], [])
      && b.txs == INVOICED.txs + [Tx(0, "p", RefundTx, EventKey("refund"), 100)]
  {
    var b := Ingest(INVOICED, REFUND_HOOK);
    assert AttemptByProviderId(INVOICED.attempts, "p", "inv") == Some(0);
    assert b.events == [REFUND_EVENT];
    assert !HasTx(b.txs, "p", EventKey("refund"));
    assert PeriodOf(b.access.periods, 0).None?;
  }

  /** An invoice exists and a full refund has been recorded, but the order has not been paid yet. */
  lemma RefundedUnpaid() returns (steps: seq<PaymentStep>)
    ensures var b := Run(steps, 30);
      && b.orders == [SAMPLE_ORDER] && b.attempts == [INVOICE]
      && |b.events| == 1 && b.events[0].key == "refund" && b.access == Access([], []) && Refunds(b, 0) == 100
  {
    var s2 := InvoicedIsReachable();
    RunSnoc(s2, Arrives(REFUND_HOOK), 30);
    RunSnoc(s2 + [Arrives(REFUND_HOOK)], Processes(0, 0), 30);
    RefundRecordedFirst();
    steps := s2 + [Arrives(REFUND_HOOK)] + [Processes(0, 0)];
    hide Run, Process, Ingest;
    RefundSumAppend(INVOICED.txs, Tx(0, "p", RefundTx, EventKey("refund"), 100), 0, "p");
    RefundSumAppend([], Tx(0, "p", InvoiceTx, InvoiceKey("inv"), 100), 0, "p");
    assert [] + [Tx(0, "p", InvoiceTx, InvoiceKey("inv"), 100)] == INVOICED.txs;
  }

  /** The failing family is inhabited: a full refund handled before the payment leaves a funded, refunded period. */
  lemma RefundBeforePayment() returns (steps: seq<PaymentStep>)
    ensures var b := Run(steps, 30);
      |b.orders| == 1 && b.orders[0].status == Paid && Funds(b, 0) && Refunds(b, 0) == b.orders[0].amount
  {
    var s1 := RefundedUnpaid();
    var b1 := Run(s1, 30);
    RunSnoc(s1, Arrives(PAID_HOOK), 30);
    var s2 := s1 + [Arrives(PAID_HOOK)];
    var b2 := Run(s2, 30);
    hide Run;
    assert b2.events[1] == EventRow(Some(0), Some(0), "p", "paid", false, Paid, Some("inv"), None, Some(100), Some("RUB"), Received);
    RunSnoc(s2, Processes(1, 0), 30);
    steps := s2 + [Processes(1, 0)];
    var t := Tx(0, "p", PaidTx, EventKey("paid"), 100);
    RefundSumAppend(b2.txs, t, 0, "p");
    assert Settle(b2, 0, 0).Some?;
  }

  // ---------------------------------------------------------------- funded time lost

  const FIRST_PAID := SAMPLE_ORDER.(status := Paid, paidAt := Some(0))
  const SECOND_ORDER := SAMPLE_ORDER.(key := "k2")
  const SECOND_PAID := SECOND_ORDER.(status := Paid, paidAt := Some(0))
  const OTHER_TARIFF := SAMPLE_ORDER.(tariff := 2, key := "k3")
  const FIRST_PERIOD := PeriodRow(0, 0, 30 * DAY, true, Some(0))
  const SECOND_PERIOD := PeriodRow(0, 30 * DAY, 60 * DAY, true, Some(1))
  const BUYER_SUB := StartedSub(1, 1, 0)

  /** One paid order, with access for its thirty days. */
  const ONE_PAID := INVOICED.(orders := [FIRST_PAID], access := Access([BUYER_SUB], [FIRST_PERIOD]))

  /** A second order of the same tariff, prepared and then paid. */
  const SECOND_PREPARED :=
    ONE_PAID.(orders := [FIRST_PAID, SECOND_ORDER], attempts := [INVOICE, NewClaim(1, "p", 30, 8)])
  const BOTH_PAID :=
    SECOND_PREPARED.(orders := [FIRST_PAID, SECOND_PAID], access := Access([BUYER_SUB], [FIRST_PERIOD, SECOND_PERIOD]))

  /** The first order refunded in full: its period is withdrawn, the second one still funds the future. */
  const REFUNDED_FIRST := BOTH_PAID.(
    events := [REFUND_EVENT.(state := Processed)],
    txs := INVOICED.txs + [Tx(0, "p", RefundTx, EventKey("refund"), 100)],
    access := Access([BUYER_SUB], [FIRST_PERIOD.(paid := false), SECOND_PERIOD]))

  lemma FirstOrderPaid()
    ensures AdminSettle(INVOICED, 0, 0) == ONE_PAID
  {
    assert ActiveOf([], 1).None?;
  }

  lemma SecondOrderPrepared()
    ensures PrepareOrder(ONE_PAID, SECOND_ORDER, 0, 8, 30) == SECOND_PREPARED
  {
    assert OrderByKey([FIRST_PAID], "k2").None? by { assert [FIRST_PAID][..0] == []; }
    assert LatestAttempt([INVOICE], 1).None?;
  }

  lemma SecondOrderPaid()
    ensures AdminSettle(SECOND_PREPARED, 1, 0) == BOTH_PAID
  {
    assert ActiveOf([BUYER_SUB], 1) == Some(0);
    assert LastEnd([FIRST_PERIOD], 0) == Some(30 * DAY);
  }

  lemma FirstOrderRefunded()
    ensures Process(Ingest(BOTH_PAID, REFUND_HOOK), 0, 0) == REFUNDED_FIRST
  {
    var b := Ingest(BOTH_PAID, REFUND_HOOK);
    assert AttemptByProviderId(BOTH_PAID.attempts, "p", "inv") == Some(0) by {
      var r := AttemptByProviderId(BOTH_PAID.attempts, "p", "inv");
      assert BOTH_PAID.attempts[0].providerId == Some("inv");
    }
    assert b == BOTH_PAID.(events := [REFUND_EVENT]);
    var t := Tx(0, "p", RefundTx, EventKey("refund"), 100);
    assert !HasTx(b.txs, "p", EventKey("refund"));
    assert RefundSum(b.txs + [t], 0, "p") == 100 by {
      RefundSumAppend(INVOICED.txs, t, 0, "p");
      RefundSumAppend([], Tx(0, "p", InvoiceTx, InvoiceKey("inv"), 100), 0, "p");
      assert [] + [Tx(0, "p", InvoiceTx, InvoiceKey("inv"), 100)] == INVOICED.txs;
    }
    assert PeriodOf(b.access.periods, 0) == Some(0) by {
      var r := PeriodOf(b.access.periods, 0);
      assert b.access.periods[0].order == Some(0);
    }
    FirstPeriodWithdrawn();
    hide RefundSum, PeriodOf, Withdraw, Ingest;
  }

  lemma FirstPeriodWithdrawn()
    ensures Withdraw(BOTH_PAID.access, 0, 0) == Some(REFUNDED_FIRST.access)
  {
    var c := Access([BUYER_SUB], [FIRST_PERIOD.(paid := false), SECOND_PERIOD]);
    assert c.periods[1].sub == 0 && c.periods[1].paid;
    assert HasFundedAfter(c, 0, 0);
    assert BOTH_PAID.access.periods[0 := FIRST_PERIOD.(paid := false)] == c.periods;
  }

  lemma RefundedFirstIsReachable() returns (steps: seq<PaymentStep>)
    ensures Run(steps, 30) == REFUNDED_FIRST
  {
    var s1 := OnePaidIsReachable();
    SecondOrderPrepared();
    SecondOrderPaid();
    FirstOrderRefunded();
    hide Run, AdminSettle, PrepareOrder, Ingest, Process;
    var s2 := s1 + [Prepares(SECOND_ORDER, 0, 8)];
    RunSnoc(s1, Prepares(SECOND_ORDER, 0, 8), 30);
    var s3 := s2 + [Settles(1, 0)];
    RunSnoc(s2, Settles(1, 0), 30);
    var s4 := s3 + [Arrives(REFUND_HOOK)];
    RunSnoc(s3, Arrives(REFUND_HOOK), 30);
    RunSnoc(s4, Processes(0, 0), 30);
    steps := s4 + [Processes(0, 0)];
  }

  /**
   A future funded period can be lost: after the first of two orders is refunded, the refund keeps the
   subscription, and the reconciler's expiry ten days in ends it although days 30 to 60 are funded.
   */
  lemma GapLosesFuturePeriod() returns (steps: seq<PaymentStep>)
    ensures LapsesInGap(Run(steps, 30), Lapses(0, 10 * DAY), 0)
    ensures StrandsFunding(Run(steps, 30).access, Run(steps + [Lapses(0, 10 * DAY)], 30).access, 10 * DAY, 0)
  {
    steps := RefundedFirstIsReachable();
    hide Run;
    var a := REFUNDED_FIRST.access;
    assert a.periods[1].sub == 0 && a.periods[1].paid;
    assert !HasCurrent(a, 0, 10 * DAY) && HasFundedAfter(a, 0, 10 * DAY);
    FundingStrandedExactlyWhen(steps, Lapses(0, 10 * DAY), 30, 0);
  }

  /** One order is paid, and an order of another tariff is prepared. */
  const SWITCH_PREPARED :=
    ONE_PAID.(orders := [FIRST_PAID, OTHER_TARIFF], attempts := [INVOICE, NewClaim(1, "p", 30, 8)])

  lemma OtherTariffPrepared()
    ensures PrepareOrder(ONE_PAID, OTHER_TARIFF, 0, 8, 30) == SWITCH_PREPARED
  {
    assert OrderByKey([FIRST_PAID], "k3").None? by { assert [FIRST_PAID][..0] == []; }
    assert LatestAttempt([INVOICE], 1).None?;
  }

  lemma SwitchIsReady()
    ensures SwitchesTariff(SWITCH_PREPARED, Settles(1, 0), 0, 1)
  {
    var a := SWITCH_PREPARED.access;
    assert ActiveOf(a.subs, 1) == Some(0);
    assert a.periods[0].sub == 0 && a.periods[0].paid;
    assert HasFundedAfter(a, 0, 0);
  }

  lemma OnePaidIsReachable() returns (steps: seq<PaymentStep>)
    ensures Run(steps, 30) == ONE_PAID && AtStart(steps)
  {
    var s0 := InvoicedIsReachable();
    FirstOrderPaid();
    hide AdminSettle;
    RunSnoc(s0, Settles(0, 0), 30);
    steps := s0 + [Settles(0, 0)];
  }

  /** So does a change of tariff: the replaced subscription ends with its thirty days still funded. */
  lemma TariffSwitchLosesFundedTime() returns (steps: seq<PaymentStep>)
    ensures SwitchesTariff(Run(steps, 30), Settles(1, 0), 0, 1)
    ensures StrandsFunding(Run(steps, 30).access, Run(steps + [Settles(1, 0)], 30).access, 0, 0)
  {
    var s0 := OnePaidIsReachable();
    OtherTariffPrepared();
    SwitchIsReady();
    hide PrepareOrder, SwitchesTariff, StrandsFunding;
    RunSnoc(s0, Prepares(OTHER_TARIFF, 0, 8), 30);
    steps := s0 + [Prepares(OTHER_TARIFF, 0, 8)];
    hide Run;
    FundingStrandedExactlyWhen(steps, Settles(1, 0), 30, 0);
  }
}
