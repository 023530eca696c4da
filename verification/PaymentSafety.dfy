/**
 What holds of the books after every run: one recorded invoice per order, exactly-once
 entitlement, exact refund accounting, idempotent redelivery, and conservation of paid time.
 */
module PaymentSafety {
  import opened Common
  import opened SubscriptionEntity
  import opened SubscriptionAccess
  import opened PaymentEntity
  import opened Payments

  // ---------------------------------------------------------------- what never changes

  ghost predicate SameOrder(o: OrderRow, o': OrderRow) {
    SameCreationIdentity(o, o') && o.key == o'.key && (o.status == Paid ==> o'.status == Paid && o'.paidAt == o.paidAt)
  }

  ghost predicate SameAttempt(a: AttemptRow, a': AttemptRow) {
    a'.order == a.order && a'.provider == a.provider && (a.providerId.Some? ==> a'.providerId == a.providerId)
  }

  /** Everything of an event but how far it was handled. */
  ghost predicate SameEvent(e: EventRow, e': EventRow) {
    e'.(state := e.state) == e && (e.state == Processed || e.state == Ignored ==> e'.state == e.state)
  }

  /** Orders keep their terms and stay paid, attempts keep their invoice, and no row disappears. */
  ghost predicate Grows(b: Books, b': Books) {
    && |b.orders| <= |b'.orders| && (forall i :: 0 <= i < |b.orders| ==> SameOrder(b.orders[i], b'.orders[i]))
    && |b.attempts| <= |b'.attempts| && (forall i :: 0 <= i < |b.attempts| ==> SameAttempt(b.attempts[i], b'.attempts[i]))
    && |b.events| <= |b'.events| && (forall i :: 0 <= i < |b.events| ==> SameEvent(b.events[i], b'.events[i]))
  }

  // ---------------------------------------------------------------- invariant

  ghost predicate OrdersOk(b: Books) {
    forall o :: 0 <= o < |b.orders| ==> b.orders[o].amount > 0 && b.orders[o].days > 0 && b.orders[o].status != Created
  }

  ghost predicate AttemptOk(b: Books, a: AttemptRow) {
    && 0 <= a.order < |b.orders| && a.provider == b.orders[a.order].provider
    && (a.status == Created ==> a.providerId.None?)
  }

  /** Every attempt that a newer one of its order supersedes failed without an invoice. */
  ghost predicate OnlyNewestCounts(attempts: seq<AttemptRow>) {
    forall i, j :: 0 <= i < j < |attempts| && attempts[i].order == attempts[j].order ==>
      attempts[i].status == PaymentFailed && attempts[i].providerId.None?
  }

  ghost predicate IdsUnique(attempts: seq<AttemptRow>) {
    forall i, j :: 0 <= i < j < |attempts| && attempts[i].provider == attempts[j].provider && attempts[i].providerId.Some? ==>
      attempts[i].providerId != attempts[j].providerId
  }

  ghost predicate AttemptsOk(b: Books) {
    && (forall a :: 0 <= a < |b.attempts| ==> AttemptOk(b, b.attempts[a]))
    && OnlyNewestCounts(b.attempts) && IdsUnique(b.attempts)
  }

  /** An event is tied to the attempt that carries its provider id, and to that attempt's order, or to nothing. */
  ghost predicate EventOk(b: Books, ev: EventRow) {
    if ev.attempt.Some? then
      && Resolves(b, ev)
      && (var a := b.attempts[ev.attempt.value];
          && ev.order == Some(a.order) && ev.provider == a.provider
          && ev.providerId.Some? && ev.providerId.value != "" && a.providerId == ev.providerId)
    else ev.order.None?
  }

  /** Processing the event would reject it. */
  predicate Rejects(b: Books, ev: EventRow) {
    if ev.refund then !Resolves(b, ev) || !RefundValid(ev, b.orders[b.attempts[ev.attempt.value].order])
    else
      && ev.status == Paid
      && (!Resolves(b, ev)
          || (var a := b.attempts[ev.attempt.value]; !SettlementValid(ev, a, a.order, b.orders[a.order])))
  }

  ghost predicate EventsOk(b: Books) {
    && (forall e :: 0 <= e < |b.events| ==> EventOk(b, b.events[e]))
    && (forall e :: 0 <= e < |b.events| && b.events[e].state == Rejected ==> Rejects(b, b.events[e]))
    && (forall i, j :: 0 <= i < j < |b.events| ==> b.events[i].key != b.events[j].key)
  }

  ghost predicate TxOk(b: Books, t: Tx) {
    && 0 <= t.order < |b.orders| && (t.kind == RefundTx ==> t.provider == b.orders[t.order].provider)
    && (t.key.EventKey? ==> exists e :: 0 <= e < |b.events| && b.events[e].key == t.key.event && b.events[e].state == Processed)
  }

  ghost predicate TxsOk(b: Books) {
    forall i :: 0 <= i < |b.txs| ==> TxOk(b, b.txs[i])
  }

  /** Refunds of an order by the events that reported them. */
  function RefundPart(ev: EventRow, order: int): int {
    if ev.refund && ev.state == Processed && ev.order == Some(order) && ev.amount.Some? then ev.amount.value else 0
  }

  function RefundEvents(events: seq<EventRow>, order: int): int {
    if events == [] then 0 else RefundEvents(events[..|events| - 1], order) + RefundPart(events[|events| - 1], order)
  }

  function Refunds(b: Books, o: int): int
    requires 0 <= o < |b.orders|
  {
    RefundSum(b.txs, o, b.orders[o].provider)
  }

  ghost predicate RefundsCounted(b: Books) {
    forall o :: 0 <= o < |b.orders| ==> Refunds(b, o) == RefundEvents(b.events, o)
  }

  /** A period stands for a paid order: its length, its buyer and its tariff. */
  ghost predicate PeriodOk(b: Books, p: PeriodRow) {
    && p.order.Some? && 0 <= p.order.value < |b.orders| && 0 <= p.sub < |b.access.subs|
    && (var o := b.orders[p.order.value];
        && o.status == Paid && p.end - p.start == o.days * DAY
        && b.access.subs[p.sub].user == o.user && b.access.subs[p.sub].tariff == o.tariff)
  }

  ghost predicate AccessOk(b: Books) {
    && AccessInv(b.access)
    && (forall i :: 0 <= i < |b.access.periods| ==> PeriodOk(b, b.access.periods[i]))
    && (forall o :: 0 <= o < |b.orders| && b.orders[o].status == Paid ==> PeriodOf(b.access.periods, o).Some?)
  }

  /** Funding is only ever withdrawn by refunds that reach the order's amount. */
  ghost predicate FundingOk(b: Books) {
    forall i :: 0 <= i < |b.access.periods| && !b.access.periods[i].paid ==>
      var o := b.access.periods[i].order;
      o.Some? && 0 <= o.value < |b.orders| && b.orders[o.value].amount <= Refunds(b, o.value)
  }

  ghost predicate BooksInv(b: Books) {
    && OrdersOk(b) && AttemptsOk(b) && EventsOk(b) && TxsOk(b) && RefundsCounted(b) && AccessOk(b) && FundingOk(b)
  }

  // ---------------------------------------------------------------- preserved by growth

  lemma GrowthKeepsEvents(b: Books, b': Books, ev: EventRow)
    requires Grows(b, b') && EventOk(b, ev)
    ensures EventOk(b', ev)
    ensures Rejects(b', ev) == Rejects(b, ev)
  {
  }

  lemma GrowthKeepsTx(b: Books, b': Books, t: Tx)
    requires Grows(b, b') && TxOk(b, t)
    ensures TxOk(b', t)
  {
    if t.key.EventKey? {
      var e :| 0 <= e < |b.events| && b.events[e].key == t.key.event && b.events[e].state == Processed;
      assert SameEvent(b.events[e], b'.events[e]);
    }
  }

  /** Entitlements stand as long as no refund total falls and no other order becomes paid. */
  lemma SameAccessKeepsFunding(b: Books, b': Books)
    requires AccessOk(b) && FundingOk(b) && Grows(b, b') && b'.access == b.access
    requires forall o :: 0 <= o < |b'.orders| && b'.orders[o].status == Paid ==> o < |b.orders| && b.orders[o].status == Paid
    requires forall o :: 0 <= o < |b.orders| ==> Refunds(b, o) <= Refunds(b', o)
    ensures AccessOk(b') && FundingOk(b')
  {
    hide AccessInv, RefundSum, PeriodOf;
    forall i | 0 <= i < |b'.access.periods| ensures PeriodOk(b', b'.access.periods[i]) {
      assert PeriodOk(b, b.access.periods[i]);
      assert SameOrder(b.orders[b.access.periods[i].order.value], b'.orders[b.access.periods[i].order.value]);
    }
    forall i | 0 <= i < |b'.access.periods| && !b'.access.periods[i].paid
      ensures var o := b'.access.periods[i].order;
        o.Some? && 0 <= o.value < |b'.orders| && b'.orders[o.value].amount <= Refunds(b', o.value)
    {
      var o := b.access.periods[i].order.value;
      assert SameOrder(b.orders[o], b'.orders[o]) && Refunds(b, o) <= Refunds(b', o);
    }
  }

  // ---------------------------------------------------------------- sums

  lemma {:induction false} RefundSumAppend(txs: seq<Tx>, t: Tx, order: int, provider: string)
    ensures RefundSum(txs + [t], order, provider) == RefundSum(txs, order, provider)
      + if t.order == order && t.provider == provider && t.kind == RefundTx then t.amount else 0
  {
    assert (txs + [t])[..|txs|] == txs;
  }

  lemma {:induction false} RefundEventsUpdate(events: seq<EventRow>, e: int, ev: EventRow, order: int)
    requires 0 <= e < |events|
    ensures RefundEvents(events[e := ev], order)
      == RefundEvents(events, order) - RefundPart(events[e], order) + RefundPart(ev, order)
  {
    var last := |events| - 1;
    if e == last {
      assert events[e := ev][..last] == events[..last];
    } else {
      assert events[e := ev][..last] == events[..last][e := ev];
      RefundEventsUpdate(events[..last], e, ev, order);
    }
  }

  lemma {:induction false} NoRefundYet(txs: seq<Tx>, order: int, provider: string)
    requires forall i :: 0 <= i < |txs| ==> txs[i].order != order
    ensures RefundSum(txs, order, provider) == 0
  {
    if txs != [] { NoRefundYet(txs[..|txs| - 1], order, provider); }
  }

  lemma {:induction false} NoRefundEventYet(events: seq<EventRow>, order: int)
    requires forall i :: 0 <= i < |events| ==> events[i].order != Some(order)
    ensures RefundEvents(events, order) == 0
  {
    if events != [] { NoRefundEventYet(events[..|events| - 1], order); }
  }

  // ---------------------------------------------------------------- invoice steps

  /** A step that only adds orders, touches attempts and may record an invoice transaction. */
  ghost predicate InvoiceStep(b: Books, b': Books) {
    && Grows(b, b') && b'.events == b.events && b'.access == b.access && b.orders <= b'.orders
    && (forall o :: |b.orders| <= o < |b'.orders| ==> b'.orders[o].status != Paid)
    && (b'.txs == b.txs ||
        exists t: Tx :: b'.txs == b.txs + [t] && t.kind == InvoiceTx && t.key.InvoiceKey? && 0 <= t.order < |b.orders|)
  }

  lemma InvoiceStepRefunds(b: Books, b': Books, o: int)
    requires BooksInv(b) && InvoiceStep(b, b') && 0 <= o < |b'.orders|
    ensures Refunds(b', o) == RefundEvents(b'.events, o)
    ensures o < |b.orders| ==> Refunds(b', o) == Refunds(b, o)
  {
    var provider := b'.orders[o].provider;
    if b'.txs != b.txs {
      var t :| b'.txs == b.txs + [t] && t.kind == InvoiceTx && t.key.InvoiceKey? && 0 <= t.order < |b.orders|;
      RefundSumAppend(b.txs, t, o, provider);
    }
    if o >= |b.orders| {
      assert forall i :: 0 <= i < |b.txs| ==> TxOk(b, b.txs[i]);
      NoRefundYet(b.txs, o, provider);
      assert forall e :: 0 <= e < |b.events| ==> EventOk(b, b.events[e]);
      NoRefundEventYet(b.events, o);
    }
  }

  lemma InvoiceStepKeepsInv(b: Books, b': Books)
    requires BooksInv(b) && InvoiceStep(b, b') && OrdersOk(b') && AttemptsOk(b')
    ensures BooksInv(b')
  {
    forall o | 0 <= o < |b'.orders|
      ensures Refunds(b', o) == RefundEvents(b'.events, o) && (o < |b.orders| ==> Refunds(b', o) == Refunds(b, o))
    {
      InvoiceStepRefunds(b, b', o);
    }
    forall e | 0 <= e < |b'.events|
      ensures EventOk(b', b'.events[e]) && (b'.events[e].state == Rejected ==> Rejects(b', b'.events[e]))
    {
      GrowthKeepsEvents(b, b', b.events[e]);
    }
    hide RefundSum, RefundEvents, Rejects;
    SameAccessKeepsFunding(b, b');
    hide AccessOk, FundingOk;
    forall i | 0 <= i < |b'.txs| ensures TxOk(b', b'.txs[i]) {
      if i < |b.txs| { GrowthKeepsTx(b, b', b.txs[i]); }
    }
  }

  /** A claim never displaces an invoice: it follows an attempt that failed without one. */
  lemma AppendClaim(b: Books, o: int, expiresAt: int, token: int)
    requires AttemptsOk(b) && 0 <= o < |b.orders| && AllFailed(b.attempts, o)
    ensures AttemptsOk(b.(attempts := b.attempts + [NewClaim(o, b.orders[o].provider, expiresAt, token)]))
  {
    forall a | 0 <= a < |b.attempts| ensures AttemptOk(b, b.attempts[a]) {}
  }

  /** The claim that is given up becomes one more failed attempt without an invoice. */
  lemma GiveUpClaim(b: Books, i: int)
    requires AttemptsOk(b) && 0 <= i < |b.attempts|
    ensures AttemptsOk(b.(attempts := b.attempts[i := CreationFailed(b.attempts[i])]))
  {
    assert AttemptOk(b, b.attempts[i]);
  }

  /** If the newest attempt of an order failed without an invoice, they all did. */
  ghost predicate AllFailed(attempts: seq<AttemptRow>, o: int) {
    forall i :: 0 <= i < |attempts| && attempts[i].order == o ==>
      attempts[i].status == PaymentFailed && attempts[i].providerId.None?
  }

  lemma NewestDecides(attempts: seq<AttemptRow>, o: int)
    requires OnlyNewestCounts(attempts)
    requires var latest := LatestAttempt(attempts, o);
      latest.Some? ==> attempts[latest.value].status == PaymentFailed && attempts[latest.value].providerId.None?
    ensures AllFailed(attempts, o)
  {
    forall i | 0 <= i < |attempts| && attempts[i].order == o
      ensures attempts[i].status == PaymentFailed && attempts[i].providerId.None?
    {
      assert i <= LatestAttempt(attempts, o).value;
    }
  }

  lemma {:induction false} LatestSurvives(attempts: seq<AttemptRow>, i: int, row: AttemptRow, o: int)
    requires 0 <= i < |attempts| && row.order == attempts[i].order
    ensures LatestAttempt(attempts[i := row], o) == LatestAttempt(attempts, o)
  {
    var a, b := LatestAttempt(attempts[i := row], o), LatestAttempt(attempts, o);
    if a.Some? { assert attempts[a.value].order == o; }
    if b.Some? { assert attempts[i := row][b.value].order == o; }
  }

  lemma ClaimGrows(b: Books, o: int, now: int, token: int, lease: int)
    requires 0 <= o < |b.orders|
    ensures var b' := ClaimInvoice(b, o, now, token, lease);
      b' == b.(attempts := b'.attempts) && Grows(b, b')
  {
  }

  lemma ClaimKeepsAttempts(b: Books, o: int, now: int, token: int, lease: int)
    requires AttemptsOk(b) && 0 <= o < |b.orders|
    ensures AttemptsOk(ClaimInvoice(b, o, now, token, lease))
  {
    var latest := LatestAttempt(b.attempts, o);
    if latest.Some? && b.attempts[latest.value].status == Created {
      var i := latest.value;
      assert AttemptOk(b, b.attempts[i]);
      var c := b.(attempts := b.attempts[i := CreationFailed(b.attempts[i])]);
      GiveUpClaim(b, i);
      LatestSurvives(b.attempts, i, CreationFailed(b.attempts[i]), o);
      hide LatestAttempt;
      NewestDecides(c.attempts, o);
      AppendClaim(c, o, now + lease, token);
    } else if latest.None? || (b.attempts[latest.value].status == PaymentFailed && b.attempts[latest.value].providerId.None?) {
      NewestDecides(b.attempts, o);
      AppendClaim(b, o, now + lease, token);
    }
    hide AttemptsOk, LatestAttempt;
  }

  lemma PrepareKeepsInv(b: Books, candidate: OrderRow, now: int, token: int, lease: int)
    requires BooksInv(b) && WellFormedOrder(candidate)
    ensures BooksInv(PrepareOrder(b, candidate, now, token, lease)) && Grows(b, PrepareOrder(b, candidate, now, token, lease))
  {
    hide RefundsCounted, FundingOk, TxsOk, AccessOk, EventsOk, ClaimInvoice;
    var known := OrderByKey(b.orders, candidate.key);
    var b' := PrepareOrder(b, candidate, now, token, lease);
    if known.Some? {
      if SameCreationIdentity(b.orders[known.value], candidate) {
        ClaimKeepsAttempts(b, known.value, now, token, lease);
        ClaimGrows(b, known.value, now, token, lease);
        InvoiceStepKeepsInv(b, b');
      }
    } else {
      var c := b.(orders := b.orders + [candidate]);
      assert forall a :: 0 <= a < |b.attempts| ==> AttemptOk(b, b.attempts[a]);
      ClaimKeepsAttempts(c, |b.orders|, now, token, lease);
      ClaimGrows(c, |b.orders|, now, token, lease);
      assert Grows(b, c);
      InvoiceStepKeepsInv(b, b');
    }
  }

  lemma FinalizeKeepsInv(b: Books, a: int, token: int, status: PaymentStatus, id: string)
    requires BooksInv(b)
    ensures BooksInv(FinalizeClaim(b, a, token, status, id)) && Grows(b, FinalizeClaim(b, a, token, status, id))
  {
    hide RefundsCounted, FundingOk, TxsOk, AccessOk, EventsOk;
    var b' := FinalizeClaim(b, a, token, status, id);
    if b' != b {
      assert AttemptOk(b, b.attempts[a]);
      assert AttemptsOk(b');
      InvoiceStepKeepsInv(b, b');
    }
  }

  lemma FailKeepsInv(b: Books, a: int, token: int)
    requires BooksInv(b)
    ensures BooksInv(FailClaim(b, a, token)) && Grows(b, FailClaim(b, a, token))
  {
    hide RefundsCounted, FundingOk, TxsOk, AccessOk, EventsOk;
    var b' := FailClaim(b, a, token);
    if b' != b {
      assert AttemptOk(b, b.attempts[a]);
      assert AttemptsOk(b');
      InvoiceStepKeepsInv(b, b');
    }
  }

  // ---------------------------------------------------------------- event steps

  /** The new event is tied to the attempt with its provider id, or to nothing, and nobody has handled it. */
  lemma IngestedEvent(b: Books, h: Webhook)
    requires AttemptsOk(b) && !KnownEvent(b.events, h.key)
    ensures var b' := Ingest(b, h);
      && b' == b.(events := b'.events) && b'.events == b.events + [b'.events[|b.events|]]
      && (var ev := b'.events[|b.events|]; EventOk(b', ev) && ev.state == Received && ev.key == h.key)
  {
    assert forall a :: 0 <= a < |b.attempts| ==> AttemptOk(b, b.attempts[a]);
  }

  lemma IngestKeepsRows(b: Books, b': Books)
    requires BooksInv(b) && b' == b.(events := b'.events) && |b'.events| == |b.events| + 1 && b.events <= b'.events
    requires var ev := b'.events[|b.events|]; EventOk(b', ev) && ev.state == Received && !KnownEvent(b.events, ev.key)
    ensures Grows(b, b') && EventsOk(b') && TxsOk(b')
  {
    hide AccessOk, FundingOk, RefundsCounted, Rejects;
    forall i | 0 <= i < |b.events| ensures b'.events[i] == b.events[i] {}
    assert Grows(b, b');
    forall i | 0 <= i < |b'.txs| ensures TxOk(b', b'.txs[i]) {
      GrowthKeepsTx(b, b', b.txs[i]);
    }
    forall e | 0 <= e < |b'.events|
      ensures EventOk(b', b'.events[e]) && (b'.events[e].state == Rejected ==> Rejects(b', b'.events[e]))
    {
      if e < |b.events| { GrowthKeepsEvents(b, b', b.events[e]); }
    }
    forall i, j | 0 <= i < j < |b'.events| ensures b'.events[i].key != b'.events[j].key {
      assert b'.events[i] == b.events[i];
    }
  }

  lemma IngestKeepsInv(b: Books, h: Webhook)
    requires BooksInv(b)
    ensures BooksInv(Ingest(b, h)) && Grows(b, Ingest(b, h))
  {
    var b' := Ingest(b, h);
    if KnownEvent(b.events, h.key) {
      hide BooksInv;
      GrowsReflexively(b);
    } else {
      IngestedEvent(b, h);
      IngestKeepsRows(b, b');
      hide Ingest, AccessInv, RefundSum, EventsOk, TxsOk, Grows, PeriodOf;
      forall o | 0 <= o < |b.orders| ensures Refunds(b', o) == Refunds(b, o) == RefundEvents(b'.events, o) {
        assert b'.events[..|b.events|] == b.events;
        assert RefundEvents(b'.events, o) == RefundEvents(b.events, o) + RefundPart(b'.events[|b.events|], o);
      }
      hide RefundEvents;
      SameAccessKeepsFunding(b, b');
      hide AccessOk, FundingOk;
      assert AttemptsOk(b') by {
        forall a | 0 <= a < |b'.attempts| ensures AttemptOk(b', b'.attempts[a]) { assert AttemptOk(b, b.attempts[a]); }
      }
    }
  }

  ghost predicate Unhandled(b: Books, e: int) {
    0 <= e < |b.events| && b.events[e].state != Processed && b.events[e].state != Ignored
  }

  /** Event `e` is handled, and no other event changes. */
  ghost predicate EventStep(b: Books, b': Books, e: int, state: EventState)
    requires 0 <= e < |b.events|
  {
    && Grows(b, b') && b'.events == b.events[e := b.events[e].(state := state)]
    && (state == Rejected ==> Rejects(b, b.events[e]))
  }

  lemma EventStepKeepsEvents(b: Books, b': Books, e: int, state: EventState)
    requires BooksInv(b) && Unhandled(b, e) && EventStep(b, b', e, state)
    ensures EventsOk(b')
    ensures forall i :: 0 <= i < |b.txs| ==> TxOk(b', b.txs[i])
  {
    hide RefundsCounted, FundingOk, AccessOk;
    forall i | 0 <= i < |b'.events|
      ensures EventOk(b', b'.events[i]) && (b'.events[i].state == Rejected ==> Rejects(b', b'.events[i]))
    {
      GrowthKeepsEvents(b, b', b.events[i]);
    }
    forall i | 0 <= i < |b.txs| ensures TxOk(b', b.txs[i]) {
      GrowthKeepsTx(b, b', b.txs[i]);
    }
  }

  /** Handling an event that is not an accepted refund leaves every refund total alone. */
  lemma NoRefundStep(b: Books, b': Books, e: int, state: EventState, o: int)
    requires BooksInv(b) && Unhandled(b, e) && EventStep(b, b', e, state) && 0 <= o < |b.orders|
    requires |b'.orders| == |b.orders|
    requires !b.events[e].refund || state != Processed
    requires b'.txs == b.txs || exists t: Tx :: b'.txs == b.txs + [t] && t.kind != RefundTx
    ensures Refunds(b', o) == Refunds(b, o) == RefundEvents(b'.events, o)
  {
    RefundEventsUpdate(b.events, e, b.events[e].(state := state), o);
    if b'.txs != b.txs {
      var t :| b'.txs == b.txs + [t] && t.kind != RefundTx;
      RefundSumAppend(b.txs, t, o, b.orders[o].provider);
    }
  }

  lemma MarkKeepsInv(b: Books, e: int, state: EventState)
    requires BooksInv(b) && Unhandled(b, e)
    requires state == Ignored || (state == Rejected && Rejects(b, b.events[e]))
    ensures BooksInv(Mark(b, e, state)) && Grows(b, Mark(b, e, state))
  {
    var b' := Mark(b, e, state);
    EventStepKeepsEvents(b, b', e, state);
    forall o | 0 <= o < |b.orders| ensures Refunds(b', o) == Refunds(b, o) == RefundEvents(b'.events, o) {
      NoRefundStep(b, b', e, state, o);
    }
    hide RefundSum, RefundEvents, EventsOk;
    SameAccessKeepsFunding(b, b');
    hide AccessOk, FundingOk, Grows;
  }

  lemma WithStatusKeepsAttempts(b: Books, a: int, status: PaymentStatus)
    requires AttemptsOk(b) && 0 <= a < |b.attempts| && Settled(status)
    ensures AttemptsOk(b.(attempts := b.attempts[a := WithStatus(b.attempts[a], status)]))
  {
    assert AttemptOk(b, b.attempts[a]);
  }

  lemma OtherKeepsInv(b: Books, e: int)
    requires BooksInv(b) && Unhandled(b, e) && !b.events[e].refund && b.events[e].status != Paid
    ensures BooksInv(ProcessOther(b, e)) && Grows(b, ProcessOther(b, e))
  {
    var b' := ProcessOther(b, e);
    if b' == Mark(b, e, Ignored) {
      MarkKeepsInv(b, e, Ignored);
    } else {
      var ev := b.events[e];
      assert EventOk(b, ev);
      WithStatusKeepsAttempts(b, ev.attempt.value, ev.status);
      assert Grows(b, b');
      EventStepKeepsEvents(b, b', e, Processed);
      assert OrdersOk(b') && AttemptsOk(b');
      hide ProcessOther, AttemptsOk, EventsOk;
      forall o | 0 <= o < |b.orders| ensures Refunds(b', o) == Refunds(b, o) == RefundEvents(b'.events, o) {
        NoRefundStep(b, b', e, Processed, o);
      }
      hide RefundSum, RefundEvents;
      SameAccessKeepsFunding(b, b');
      hide AccessOk, FundingOk, Grows;
    }
  }

  // ---------------------------------------------------------------- settlement

  /** `c` is `b` with order `o` newly paid and exactly one funded period of the purchased length appended for it. */
  ghost predicate NewlySettled(b: Books, c: Books, o: int)
    requires 0 <= o < |b.orders| == |c.orders|
  {
    && c == b.(orders := b.orders[o := c.orders[o]], access := c.access)
    && b.orders[o].status != Paid && c.orders[o].status == Paid
    && SameCreationIdentity(b.orders[o], c.orders[o]) && b.orders[o].key == c.orders[o].key
    && PeriodOf(b.access.periods, o).None? && AccessInv(c.access) && Extends(b.access, c.access)
    && (var n := |b.access.periods|;
        && |c.access.periods| == n + 1 && c.access.periods[..n] == b.access.periods
        && c.access.periods[n].order == Some(o) && c.access.periods[n].paid
        && PeriodOk(c, c.access.periods[n]))
  }

  lemma UnpaidHasNoPeriod(b: Books, o: int)
    requires AccessOk(b) && 0 <= o < |b.orders| && b.orders[o].status != Paid
    ensures PeriodOf(b.access.periods, o).None?
  {
    hide AccessInv;
  }

  lemma ActivatedSettles(b: Books, c: Books, o: int, now: int)
    requires 0 <= o < |b.orders| == |c.orders| && b.orders[o].status != Paid && b.orders[o].status != Created
    requires c == b.(orders := b.orders[o := PaidOrder(b.orders[o], now)], access := c.access)
    requires var row := b.orders[o]; Activated(b.access, c.access, row.user, row.tariff, row.days, now, o)
    requires PeriodOf(b.access.periods, o).None?
    ensures NewlySettled(b, c, o)
  {
    var n := |b.access.periods|;
    assert 0 <= c.access.periods[n].sub < |c.access.subs|;
    hide AccessInv, Extends, PeriodOf;
  }

  lemma SettleShape(b: Books, o: int, now: int)
    requires OrdersOk(b) && AccessOk(b) && 0 <= o < |b.orders|
    ensures var r := Settle(b, o, now);
      r.Some? ==>
        if b.orders[o].status == Paid then r.value == b else |r.value.orders| == |b.orders| && NewlySettled(b, r.value, o)
  {
    var r := Settle(b, o, now);
    if r.Some? && b.orders[o].status != Paid {
      UnpaidHasNoPeriod(b, o);
      ActivateKeepsInv(b.access, b.orders[o].user, b.orders[o].tariff, b.orders[o].days, now, o);
      hide Activate, Activated, AccessOk, AccessInv, PeriodOf, NewlySettled;
      ActivatedSettles(b, r.value, o, now);
    }
  }

  lemma SettledPeriodsOk(b: Books, c: Books, o: int)
    requires AccessOk(b) && 0 <= o < |b.orders| == |c.orders| && NewlySettled(b, c, o)
    ensures AccessOk(c)
  {
    hide AccessInv;
    var n := |b.access.periods|;
    forall i | 0 <= i < |c.access.periods| ensures PeriodOk(c, c.access.periods[i]) {
      if i < n {
        assert c.access.periods[i] == c.access.periods[..n][i] == b.access.periods[i];
        assert PeriodOk(b, b.access.periods[i]);
      }
    }
    forall q | 0 <= q < |c.orders| && c.orders[q].status == Paid ensures PeriodOf(c.access.periods, q).Some? {
      if q != o {
        var i := PeriodOf(b.access.periods, q).value;
        assert c.access.periods[i] == c.access.periods[..n][i] == b.access.periods[i];
      } else {
        assert c.access.periods[n].order == Some(o);
      }
    }
  }

  lemma SettledFundingOk(b: Books, c: Books, o: int)
    requires FundingOk(b) && 0 <= o < |b.orders| == |c.orders| && NewlySettled(b, c, o)
    ensures FundingOk(c)
  {
    hide AccessInv, Extends, PeriodOk, RefundSum;
    var n := |b.access.periods|;
    forall i | 0 <= i < |c.access.periods| && !c.access.periods[i].paid
      ensures var q := c.access.periods[i].order;
        q.Some? && 0 <= q.value < |c.orders| && c.orders[q.value].amount <= Refunds(c, q.value)
    {
      assert c.access.periods[i] == c.access.periods[..n][i] == b.access.periods[i];
    }
  }

  /** Settling leaves attempts, events and transactions alone. */
  lemma SettledRowsOk(b: Books, c: Books, o: int)
    requires BooksInv(b) && 0 <= o < |b.orders| == |c.orders| && NewlySettled(b, c, o)
    ensures Grows(b, c) && OrdersOk(c) && AttemptsOk(c) && EventsOk(c) && TxsOk(c) && RefundsCounted(c)
  {
    hide AccessInv, Extends, PeriodOk, AccessOk, FundingOk, RefundSum, RefundEvents;
    assert Grows(b, c);
    forall a | 0 <= a < |c.attempts| ensures AttemptOk(c, c.attempts[a]) {
      assert AttemptOk(b, b.attempts[a]);
    }
    forall e | 0 <= e < |c.events|
      ensures EventOk(c, c.events[e]) && (c.events[e].state == Rejected ==> Rejects(c, c.events[e]))
    {
      GrowthKeepsEvents(b, c, b.events[e]);
    }
    forall i | 0 <= i < |c.txs| ensures TxOk(c, c.txs[i]) {
      GrowthKeepsTx(b, c, b.txs[i]);
    }
    forall q | 0 <= q < |c.orders| ensures Refunds(c, q) == RefundEvents(c.events, q) {
      assert Refunds(b, q) == RefundEvents(b.events, q);
    }
  }

  lemma SettleKeepsInv(b: Books, o: int, now: int)
    requires BooksInv(b) && 0 <= o < |b.orders| && Settle(b, o, now).Some?
    ensures BooksInv(Settle(b, o, now).value) && Grows(b, Settle(b, o, now).value)
  {
    var c := Settle(b, o, now).value;
    SettleShape(b, o, now);
    hide Settle;
    if b.orders[o].status != Paid {
      SettledPeriodsOk(b, c, o);
      SettledFundingOk(b, c, o);
      SettledRowsOk(b, c, o);
    }
    hide AttemptsOk, EventsOk, TxsOk, RefundsCounted, AccessOk, FundingOk;
  }

  // ---------------------------------------------------------------- paid events

  /** Recording a processed paid event on settled books. */
  lemma PaidMarkKeepsInv(b: Books, e: int, a: int, t: Tx)
    requires BooksInv(b) && Unhandled(b, e) && !b.events[e].refund && 0 <= a < |b.attempts|
    requires t.kind == PaidTx && t.key == EventKey(b.events[e].key) && 0 <= t.order < |b.orders|
    ensures var b' := Mark(b.(attempts := b.attempts[a := WithStatus(b.attempts[a], Paid)], txs := AddTx(b.txs, t)), e, Processed);
      BooksInv(b') && Grows(b, b')
  {
    var b' := Mark(b.(attempts := b.attempts[a := WithStatus(b.attempts[a], Paid)], txs := AddTx(b.txs, t)), e, Processed);
    WithStatusKeepsAttempts(b, a, Paid);
    assert Grows(b, b') && AttemptsOk(b');
    EventStepKeepsEvents(b, b', e, Processed);
    assert TxsOk(b') by {
      forall i | 0 <= i < |b'.txs| ensures TxOk(b', b'.txs[i]) {
        if i == |b.txs| { assert b'.events[e].key == t.key.event && b'.events[e].state == Processed; }
      }
    }
    forall o | 0 <= o < |b.orders| ensures Refunds(b', o) == Refunds(b, o) == RefundEvents(b'.events, o) {
      NoRefundStep(b, b', e, Processed, o);
    }
    hide RefundSum, RefundEvents, EventsOk, TxsOk, AttemptsOk;
    SameAccessKeepsFunding(b, b');
    hide AccessOk, FundingOk, Grows;
  }

  lemma {:induction false} GrowsTransitively(a: Books, b: Books, c: Books)
    requires Grows(a, b) && Grows(b, c)
    ensures Grows(a, c)
  {
  }

  lemma PaidKeepsInv(b: Books, e: int, now: int)
    requires BooksInv(b) && Unhandled(b, e) && !b.events[e].refund && b.events[e].status == Paid
    ensures BooksInv(ProcessPaid(b, e, now)) && Grows(b, ProcessPaid(b, e, now))
  {
    var ev := b.events[e];
    hide BooksInv;
    if Rejects(b, ev) {
      MarkKeepsInv(b, e, Rejected);
    } else if TransitionOf(b.attempts[ev.attempt.value].status, Paid) == Stale {
      MarkKeepsInv(b, e, Ignored);
    } else {
      var a := ev.attempt.value;
      var o := b.attempts[a].order;
      if Settle(b, o, now).Some? {
        var c := Settle(b, o, now).value;
        SettleKeepsInv(b, o, now);
        assert c.events == b.events && c.txs == b.txs && c.attempts == b.attempts;
        var t := Tx(o, ev.provider, PaidTx, EventKey(ev.key), b.orders[o].amount);
        PaidMarkKeepsInv(c, e, a, t);
        hide Settle, Grows;
        GrowsTransitively(b, c, AcceptPaid(b, e, now));
      } else {
        assert Grows(b, b);
      }
    }
  }

  // ---------------------------------------------------------------- refunds

  /** An unhandled event has no transaction yet, so its refund is recorded, not deduplicated away. */
  lemma RefundIsNew(b: Books, e: int)
    requires EventsOk(b) && TxsOk(b) && Unhandled(b, e)
    ensures !HasTx(b.txs, b.events[e].provider, EventKey(b.events[e].key))
  {
    hide Rejects, EventOk;
    forall i | 0 <= i < |b.txs| ensures b.txs[i].key != EventKey(b.events[e].key) {
      assert TxOk(b, b.txs[i]);
    }
  }

  /** An accepted refund raises its own order's total by its amount and no other total. */
  lemma RefundTotals(b: Books, b': Books, e: int, o: int, q: int)
    requires BooksInv(b) && Unhandled(b, e) && 0 <= o < |b.orders| && 0 <= q < |b.orders| && b'.orders == b.orders
    requires var ev := b.events[e];
      && ev.refund && ev.amount.Some? && ev.order == Some(o) && ev.provider == b.orders[o].provider
      && b'.txs == b.txs + [Tx(o, ev.provider, RefundTx, EventKey(ev.key), ev.amount.value)]
      && b'.events == b.events[e := ev.(state := Processed)]
    ensures Refunds(b', q) == RefundEvents(b'.events, q)
    ensures Refunds(b', q) == Refunds(b, q) + if q == o then b.events[e].amount.value else 0
  {
    var ev := b.events[e];
    RefundSumAppend(b.txs, Tx(o, ev.provider, RefundTx, EventKey(ev.key), ev.amount.value), q, b.orders[q].provider);
    RefundEventsUpdate(b.events, e, ev.(state := Processed), q);
  }

  /** Books after an accepted refund, before entitlements are looked at. */
  function RefundRecorded(b: Books, e: int): Books
    requires 0 <= e < |b.events| && Resolves(b, b.events[e]) && b.events[e].amount.Some?
  {
    var ev := b.events[e];
    var o := b.attempts[ev.attempt.value].order;
    Mark(b.(txs := b.txs + [Tx(o, ev.provider, RefundTx, EventKey(ev.key), ev.amount.value)]), e, Processed)
  }

  /** The event is a refund that will be accepted. */
  ghost predicate AcceptableRefund(b: Books, e: int) {
    Unhandled(b, e) && b.events[e].refund && !Rejects(b, b.events[e])
  }

  lemma RefundRecordedKeepsInv(b: Books, e: int)
    requires BooksInv(b) && AcceptableRefund(b, e)
    ensures var c := RefundRecorded(b, e); BooksInv(c) && Grows(b, c)
    ensures var o := b.attempts[b.events[e].attempt.value].order;
      var c := RefundRecorded(b, e);
      && Refunds(c, o) == Refunds(b, o) + b.events[e].amount.value
      && (forall q :: 0 <= q < |b.orders| && q != o ==> Refunds(c, q) == Refunds(b, q))
  {
    var ev := b.events[e];
    assert EventOk(b, ev);
    var o := b.attempts[ev.attempt.value].order;
    assert AttemptOk(b, b.attempts[ev.attempt.value]);
    var c := RefundRecorded(b, e);
    assert Grows(b, c);
    EventStepKeepsEvents(b, c, e, Processed);
    forall q | 0 <= q < |b.orders|
      ensures Refunds(c, q) == RefundEvents(c.events, q)
           && Refunds(c, q) == Refunds(b, q) + if q == o then ev.amount.value else 0
    {
      RefundTotals(b, c, e, o, q);
    }
    hide RefundSum, RefundEvents, EventsOk, Rejects;
    assert TxsOk(c) by {
      forall i | 0 <= i < |c.txs| ensures TxOk(c, c.txs[i]) {
        if i == |b.txs| { assert c.events[e].key == ev.key && c.events[e].state == Processed; }
      }
    }
    hide TxsOk;
    SameAccessKeepsFunding(b, c);
    hide AccessOk, FundingOk, Grows;
  }

  lemma AcceptRefundShape(b: Books, e: int, now: int)
    requires BooksInv(b) && AcceptableRefund(b, e)
    ensures var o := b.attempts[b.events[e].attempt.value].order;
      var c := RefundRecorded(b, e);
      var p := PeriodOf(b.access.periods, o);
      AcceptRefund(b, e, now) ==
        if Refunds(c, o) < b.orders[o].amount || p.None? then c
        else if Withdraw(b.access, p.value, now).None? then b
        else c.(access := Withdraw(b.access, p.value, now).value)
  {
    RefundIsNew(b, e);
    assert EventOk(b, b.events[e]) && AttemptOk(b, b.attempts[b.events[e].attempt.value]);
    hide BooksInv, RefundSum, Withdraw, Rejects;
  }

  lemma EntitlementStepAccess(b: Books, c: Books)
    requires AccessOk(b) && c == b.(access := c.access)
    requires AccessInv(c.access) && Extends(b.access, c.access) && |c.access.periods| == |b.access.periods|
    ensures AccessOk(c)
  {
    hide AccessInv;
    forall i | 0 <= i < |c.access.periods| ensures PeriodOk(c, c.access.periods[i]) {
      assert PeriodOk(b, b.access.periods[i]);
    }
    forall q | 0 <= q < |c.orders| && c.orders[q].status == Paid ensures PeriodOf(c.access.periods, q).Some? {
      var i := PeriodOf(b.access.periods, q).value;
      assert c.access.periods[i].order == Some(q);
    }
  }

  /** Withdrawing the period of a fully refunded order. */
  lemma WithdrawKeepsBooks(b: Books, p: int, now: int)
    requires BooksInv(b) && 0 <= p < |b.access.periods| && Withdraw(b.access, p, now).Some?
    requires var o := b.access.periods[p].order;
      o.Some? && 0 <= o.value < |b.orders| && b.orders[o.value].amount <= Refunds(b, o.value)
    ensures var c := b.(access := Withdraw(b.access, p, now).value);
      BooksInv(c) && Grows(b, c)
  {
    WithdrawKeepsInv(b.access, p, now);
    var c := b.(access := Withdraw(b.access, p, now).value);
    hide Withdraw;
    EntitlementStepAccess(b, c);
    OtherRowsKept(b, c);
    hide AttemptsOk, EventsOk, TxsOk, RefundsCounted, Grows, AccessOk, AccessInv, Extends, RefundSum, PeriodOf;
  }

  /** Steps on entitlements alone. */
  lemma OtherRowsKept(b: Books, c: Books)
    requires BooksInv(b) && c == b.(access := c.access)
    ensures OrdersOk(c) && AttemptsOk(c) && EventsOk(c) && TxsOk(c) && RefundsCounted(c) && Grows(b, c)
  {
    hide AccessOk, FundingOk, RefundSum, RefundEvents;
    forall a | 0 <= a < |c.attempts| ensures AttemptOk(c, c.attempts[a]) { assert AttemptOk(b, b.attempts[a]); }
    forall e | 0 <= e < |c.events|
      ensures EventOk(c, c.events[e]) && (c.events[e].state == Rejected ==> Rejects(c, c.events[e]))
    {
      GrowthKeepsEvents(b, c, b.events[e]);
    }
    forall i | 0 <= i < |c.txs| ensures TxOk(c, c.txs[i]) { GrowthKeepsTx(b, c, b.txs[i]); }
    forall q | 0 <= q < |c.orders| ensures Refunds(c, q) == RefundEvents(c.events, q) {
      assert Refunds(b, q) == RefundEvents(b.events, q);
    }
  }

  lemma RefundKeepsInv(b: Books, e: int, now: int)
    requires BooksInv(b) && Unhandled(b, e) && b.events[e].refund
    ensures BooksInv(ProcessRefund(b, e, now)) && Grows(b, ProcessRefund(b, e, now))
  {
    hide BooksInv, Grows;
    if Rejects(b, b.events[e]) {
      MarkKeepsInv(b, e, Rejected);
    } else {
      var o := b.attempts[b.events[e].attempt.value].order;
      var c := RefundRecorded(b, e);
      RefundRecordedKeepsInv(b, e);
      AcceptRefundShape(b, e, now);
      assert ProcessRefund(b, e, now) == AcceptRefund(b, e, now);
      var p := PeriodOf(b.access.periods, o);
      assert c.access == b.access && c.orders == b.orders;
      hide RefundRecorded, AcceptRefund;
      if p.Some? && b.orders[o].amount <= Refunds(c, o) && Withdraw(b.access, p.value, now).Some? {
        WithdrawKeepsBooks(c, p.value, now);
        GrowsTransitively(b, c, c.(access := Withdraw(b.access, p.value, now).value));
      } else {
        GrowsReflexively(b);
      }
    }
  }

  lemma GrowsReflexively(b: Books)
    ensures Grows(b, b)
  {
  }

  lemma LapseKeepsBooks(b: Books, sub: int, now: int)
    requires BooksInv(b)
    ensures BooksInv(LapseSub(b, sub, now)) && Grows(b, LapseSub(b, sub, now))
  {
    LapseKeepsInv(b.access, sub, now);
    var c := LapseSub(b, sub, now);
    hide Lapse;
    if c != b { EntitlementStepAccess(b, c); }
    OtherRowsKept(b, c);
    hide AttemptsOk, EventsOk, TxsOk, RefundsCounted, Grows;
  }

  // ---------------------------------------------------------------- every run

  lemma ProcessKeepsInv(b: Books, e: int, now: int)
    requires BooksInv(b)
    ensures BooksInv(Process(b, e, now)) && Grows(b, Process(b, e, now))
  {
    hide BooksInv, Grows, ProcessRefund, ProcessPaid, ProcessOther;
    if !Unhandled(b, e) { GrowsReflexively(b); }
    else if b.events[e].refund { RefundKeepsInv(b, e, now); }
    else if b.events[e].status == Paid { PaidKeepsInv(b, e, now); }
    else { OtherKeepsInv(b, e); }
  }

  lemma AdminSettleKeepsInv(b: Books, o: int, now: int)
    requires BooksInv(b)
    ensures BooksInv(AdminSettle(b, o, now)) && Grows(b, AdminSettle(b, o, now))
  {
    hide BooksInv, Grows, Settle;
    if 0 <= o < |b.orders| && Settle(b, o, now).Some? { SettleKeepsInv(b, o, now); } else { GrowsReflexively(b); }
  }

  lemma StepKeepsInv(b: Books, step: PaymentStep, lease: int)
    requires BooksInv(b)
    ensures BooksInv(Apply(b, step, lease)) && Grows(b, Apply(b, step, lease))
  {
    hide BooksInv, Grows, PrepareOrder, FinalizeClaim, FailClaim, Ingest, Process, AdminSettle, LapseSub;
    match step
    case Prepares(candidate, now, token) =>
      if WellFormedOrder(candidate) { PrepareKeepsInv(b, candidate, now, token, lease); } else { GrowsReflexively(b); }
    case Finalizes(a, token, status, id) => FinalizeKeepsInv(b, a, token, status, id);
    case Fails(a, token) => FailKeepsInv(b, a, token);
    case Arrives(h) => IngestKeepsInv(b, h);
    case Processes(e, now) => ProcessKeepsInv(b, e, now);
    case Settles(o, now) => AdminSettleKeepsInv(b, o, now);
    case Lapses(sub, now) => LapseKeepsBooks(b, sub, now);
  }

  lemma NoBooksInv()
    ensures BooksInv(NO_BOOKS)
  {
  }

  lemma {:induction false} RunInv(steps: seq<PaymentStep>, lease: int)
    ensures BooksInv(Run(steps, lease))
  {
    hide BooksInv, Apply, Grows;
    if steps == [] {
      NoBooksInv();
    } else {
      RunInv(steps[..|steps| - 1], lease);
      StepKeepsInv(Run(steps[..|steps| - 1], lease), steps[|steps| - 1], lease);
    }
  }

  /** A longer run only adds to a shorter one. */
  lemma {:induction false} RunGrows(steps: seq<PaymentStep>, more: seq<PaymentStep>, lease: int)
    ensures Grows(Run(steps, lease), Run(steps + more, lease))
  {
    hide Grows, Apply;
    if more == [] {
      assert steps + more == steps;
      GrowsReflexively(Run(steps, lease));
    } else {
      var init := more[..|more| - 1];
      RunGrows(steps, init, lease);
      RunInv(steps + init, lease);
      assert (steps + more)[..|steps + more| - 1] == steps + init;
      StepKeepsInv(Run(steps + init, lease), more[|more| - 1], lease);
      GrowsTransitively(Run(steps, lease), Run(steps + init, lease), Run(steps + more, lease));
    }
  }
}
