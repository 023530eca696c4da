/**
 The payment ledger and the entitlements it pays for, and every transaction that may commit on
 them. Row ids are positions: "latest" is creation order. A transaction that the source rolls
 back leaves the books alone.
 */
module Payments {
  import opened Common
  import opened SubscriptionEntity
  import opened SubscriptionAccess
  import opened PaymentEntity

  datatype TxKind = InvoiceTx | PaidTx | RefundTx

  /** Provider transaction keys: invoices use the provider's payment id, events their own key. */
  datatype TxKey = InvoiceKey(providerId: string) | EventKey(event: string)

  datatype Tx = Tx(order: int, provider: string, kind: TxKind, key: TxKey, amount: int)

  datatype Books = Books(
    orders: seq<OrderRow>, attempts: seq<AttemptRow>, events: seq<EventRow>, txs: seq<Tx>, access: Access)

  const NO_BOOKS := Books([], [], [], [], Access([], []))

  // ---------------------------------------------------------------- queries

  predicate HasTx(txs: seq<Tx>, provider: string, key: TxKey) {
    exists i :: 0 <= i < |txs| && txs[i].provider == provider && txs[i].key == key
  }

  /** Insert that does nothing on a known (provider, key). */
  function AddTx(txs: seq<Tx>, t: Tx): seq<Tx> {
    if HasTx(txs, t.provider, t.key) then txs else txs + [t]
  }

  /** `sum_provider_transactions` of an order's succeeded refunds. */
  function RefundSum(txs: seq<Tx>, order: int, provider: string): int {
    if txs == [] then 0
    else
      var t := txs[|txs| - 1];
      RefundSum(txs[..|txs| - 1], order, provider)
      + (if t.order == order && t.provider == provider && t.kind == RefundTx then t.amount else 0)
  }

  function OrderByKey(orders: seq<OrderRow>, key: string): (r: Option<int>)
    ensures r.Some? ==> 0 <= r.value < |orders| && orders[r.value].key == key
    ensures r.None? ==> forall i :: 0 <= i < |orders| ==> orders[i].key != key
  {
    if orders == [] then None
    else if orders[|orders| - 1].key == key then Some(|orders| - 1)
    else OrderByKey(orders[..|orders| - 1], key)
  }

  function LatestAttempt(attempts: seq<AttemptRow>, order: int): (r: Option<int>)
    ensures r.Some? ==> 0 <= r.value < |attempts| && attempts[r.value].order == order
    ensures r.Some? ==> forall i :: r.value < i < |attempts| ==> attempts[i].order != order
    ensures r.None? ==> forall i :: 0 <= i < |attempts| ==> attempts[i].order != order
  {
    if attempts == [] then None
    else if attempts[|attempts| - 1].order == order then Some(|attempts| - 1)
    else LatestAttempt(attempts[..|attempts| - 1], order)
  }

  function AttemptByProviderId(attempts: seq<AttemptRow>, provider: string, id: string): (r: Option<int>)
    ensures r.Some? ==> 0 <= r.value < |attempts| && attempts[r.value].provider == provider
    ensures r.Some? ==> attempts[r.value].providerId == Some(id)
    ensures r.None? ==> forall i :: 0 <= i < |attempts| && attempts[i].provider == provider ==> attempts[i].providerId != Some(id)
  {
    if attempts == [] then None
    else
      var a := attempts[|attempts| - 1];
      if a.provider == provider && a.providerId == Some(id) then Some(|attempts| - 1)
      else AttemptByProviderId(attempts[..|attempts| - 1], provider, id)
  }

  predicate KnownEvent(events: seq<EventRow>, key: string) {
    exists i :: 0 <= i < |events| && events[i].key == key
  }

  // ---------------------------------------------------------------- invoice creation

  /** A caller takes over invoice creation only from a failed attempt that never got an invoice. */
  function ClaimInvoice(b: Books, order: int, now: int, token: int, lease: int): Books
    requires 0 <= order < |b.orders|
  {
    var latest := LatestAttempt(b.attempts, order);
    var claim := NewClaim(order, b.orders[order].provider, now + lease, token);
    if latest.None? then b.(attempts := b.attempts + [claim])
    else
      var a := b.attempts[latest.value];
      if a.status == Created then
        if ClaimActive(a, now) then b
        else b.(attempts := b.attempts[latest.value := CreationFailed(a)] + [claim])
      else if a.status == PaymentFailed && a.providerId.None? then b.(attempts := b.attempts + [claim])
      else b
  }

  /** `CreatePayment._prepare_order`; `candidate` is the order the tariff and user call for. */
  function PrepareOrder(b: Books, candidate: OrderRow, now: int, token: int, lease: int): Books {
    var known := OrderByKey(b.orders, candidate.key);
    if known.Some? then
      if SameCreationIdentity(b.orders[known.value], candidate) then ClaimInvoice(b, known.value, now, token, lease) else b
    else ClaimInvoice(b.(orders := b.orders + [candidate]), |b.orders|, now, token, lease)
  }

  /** `_finalize_owned_claim`, for any caller, however late. */
  function FinalizeClaim(b: Books, a: int, token: int, status: PaymentStatus, id: string): Books {
    if !(0 <= a < |b.attempts|) || !OwnsClaim(b.attempts[a], token) || status == Created then b
    else
      var row := b.attempts[a];
      if AttemptByProviderId(b.attempts, row.provider, id).Some? || !(0 <= row.order < |b.orders|) then b  // unique index
      else
        var o := b.orders[row.order];
        b.(attempts := b.attempts[a := CreationFinalized(row, status, id)],
           txs := AddTx(b.txs, Tx(row.order, o.provider, InvoiceTx, InvoiceKey(id), o.amount)))
  }

  function FailClaim(b: Books, a: int, token: int): Books {
    if !(0 <= a < |b.attempts|) || !OwnsClaim(b.attempts[a], token) then b
    else b.(attempts := b.attempts[a := CreationFailed(b.attempts[a])])
  }

  // ---------------------------------------------------------------- events

  /** A verified webhook, before it is tied to an attempt. */
  datatype Webhook = Webhook(
    provider: string, key: string, refund: bool, status: PaymentStatus, providerId: Option<string>,
    reportedOrder: Option<int>, amount: Option<int>, currency: Option<string>)

  /** `IngestWebhook.execute`: the event is recorded once and tied to the attempt with its provider id. */
  function Ingest(b: Books, h: Webhook): Books {
    if KnownEvent(b.events, h.key) then b
    else
      var attempt :=
        if h.providerId.Some? && h.providerId.value != "" then AttemptByProviderId(b.attempts, h.provider, h.providerId.value)
        else None;
      var order := if attempt.Some? then Some(b.attempts[attempt.value].order) else None;
      b.(events := b.events + [EventRow(order, attempt, h.provider, h.key, h.refund, h.status, h.providerId,
                                        h.reportedOrder, h.amount, h.currency, Received)])
  }

  function Mark(b: Books, e: int, state: EventState): Books
    requires 0 <= e < |b.events|
  {
    b.(events := b.events[e := b.events[e].(state := state)])
  }

  /** `validate_paid_settlement`. */
  predicate SettlementValid(ev: EventRow, a: AttemptRow, order: int, o: OrderRow) {
    && ev.provider == o.provider && ev.provider == a.provider
    && ev.providerId.Some? && ev.providerId.value != "" && a.providerId.Some? && a.providerId.value != ""
    && ev.providerId == a.providerId
    && a.order == order && ev.order == Some(a.order)
    && (ev.reportedOrder.Some? ==> ev.reportedOrder.value == a.order)
    && ev.amount == Some(o.amount)
    && ev.currency == Some(o.currency)
  }

  predicate RefundValid(ev: EventRow, o: OrderRow) {
    && ev.amount.Some? && ev.amount.value > 0 && ev.currency.Some?
    && ev.currency.value == o.currency && ev.amount.value <= o.amount
  }

  /** The attempt and order an event points to. */
  predicate Resolves(b: Books, ev: EventRow) {
    ev.attempt.Some? && 0 <= ev.attempt.value < |b.attempts| && 0 <= b.attempts[ev.attempt.value].order < |b.orders|
  }

  /** Paying an order: mark it and activate its period, together or not at all. */
  function Settle(b: Books, o: int, now: int): Option<Books>
    requires 0 <= o < |b.orders|
  {
    var row := b.orders[o];
    if row.status == Created then None
    else if row.status == Paid then Some(b)
    else
      var access := Activate(b.access, row.user, row.tariff, row.days, now, o);
      if access.None? then None
      else Some(b.(orders := b.orders[o := PaidOrder(row, now)], access := access.value))
  }

  /** Books after the settlement of a validated paid event. */
  function AcceptPaid(b: Books, e: int, now: int): Books
    requires 0 <= e < |b.events| && Resolves(b, b.events[e])
  {
    var ev := b.events[e];
    var a := ev.attempt.value;
    var o := b.attempts[a].order;
    var settled := Settle(b, o, now);
    if settled.None? then b
    else
      Mark(settled.value.(
             attempts := b.attempts[a := WithStatus(b.attempts[a], Paid)],
             txs := AddTx(b.txs, Tx(o, ev.provider, PaidTx, EventKey(ev.key), b.orders[o].amount))),
           e, Processed)
  }

  /** `_resolve_paid_context` and `_process_paid`. */
  function ProcessPaid(b: Books, e: int, now: int): Books
    requires 0 <= e < |b.events|
  {
    var ev := b.events[e];
    if !Resolves(b, ev) then Mark(b, e, Rejected)
    else
      var a := b.attempts[ev.attempt.value];
      if !SettlementValid(ev, a, a.order, b.orders[a.order]) then Mark(b, e, Rejected)
      else if TransitionOf(a.status, Paid) == Stale then Mark(b, e, Ignored)
      else AcceptPaid(b, e, now)
  }

  /** Books after an accepted refund. */
  function AcceptRefund(b: Books, e: int, now: int): Books
    requires 0 <= e < |b.events| && Resolves(b, b.events[e]) && b.events[e].amount.Some?
  {
    var ev := b.events[e];
    var o := b.attempts[ev.attempt.value].order;
    var txs := AddTx(b.txs, Tx(o, ev.provider, RefundTx, EventKey(ev.key), ev.amount.value));
    var c := Mark(b.(txs := txs), e, Processed);
    var period := PeriodOf(b.access.periods, o);
    if RefundSum(txs, o, ev.provider) < b.orders[o].amount || period.None? then c
    else
      var access := Withdraw(b.access, period.value, now);
      if access.None? then b else c.(access := access.value)
  }

  /** `_process_refund`. */
  function ProcessRefund(b: Books, e: int, now: int): Books
    requires 0 <= e < |b.events|
  {
    var ev := b.events[e];
    if !Resolves(b, ev) then Mark(b, e, Rejected)
    else
      var o := b.attempts[ev.attempt.value].order;
      if !RefundValid(ev, b.orders[o]) then Mark(b, e, Rejected) else AcceptRefund(b, e, now)
  }

  /** `_resolve_context` and `_process_unsuccessful` for statuses other than paid. */
  function ProcessOther(b: Books, e: int): Books
    requires 0 <= e < |b.events|
  {
    var ev := b.events[e];
    var linked := ev.attempt.Some? && 0 <= ev.attempt.value < |b.attempts|;
    var order := if ev.order.Some? then ev.order else if linked then Some(b.attempts[ev.attempt.value].order) else None;
    if order.None? || !(0 <= order.value < |b.orders|) || !Unsuccessful(ev.status) then Mark(b, e, Ignored)
    else
      var attempt := if linked then ev.attempt else LatestAttempt(b.attempts, order.value);
      if attempt.Some? && TransitionOf(b.attempts[attempt.value].status, ev.status) == Stale then Mark(b, e, Ignored)
      else
        Mark(b.(attempts := if attempt.Some? then b.attempts[attempt.value := WithStatus(b.attempts[attempt.value], ev.status)]
                            else b.attempts,
                orders := b.orders[order.value := UnsuccessfulOrder(b.orders[order.value], ev.status)]),
             e, Processed)
  }

  /** `ProcessPayment.execute`. */
  function Process(b: Books, e: int, now: int): Books {
    if !(0 <= e < |b.events|) || b.events[e].state == Processed || b.events[e].state == Ignored then b
    else if b.events[e].refund then ProcessRefund(b, e, now)
    else if b.events[e].status == Paid then ProcessPaid(b, e, now)
    else ProcessOther(b, e)
  }

  /** `mark_payment_order_paid`. */
  function AdminSettle(b: Books, o: int, now: int): Books {
    if !(0 <= o < |b.orders|) || Settle(b, o, now).None? then b else Settle(b, o, now).value
  }

  function LapseSub(b: Books, sub: int, now: int): Books {
    var access := Lapse(b.access, sub, now);
    if access.None? then b else b.(access := access.value)
  }

  // ---------------------------------------------------------------- runs

  datatype PaymentStep =
    | Prepares(candidate: OrderRow, now: int, token: int)
    | Finalizes(attempt: int, token: int, status: PaymentStatus, providerId: string)
    | Fails(attempt: int, token: int)
    | Arrives(webhook: Webhook)
    | Processes(event: int, now: int)
    | Settles(order: int, now: int)
    | Lapses(sub: int, now: int)

  /** What the order entity accepts on construction. */
  predicate WellFormedOrder(o: OrderRow) {
    o.amount > 0 && o.days > 0 && o.status == PaymentPending
  }

  function Apply(b: Books, step: PaymentStep, lease: int): Books {
    match step
    case Prepares(candidate, now, token) =>
      if WellFormedOrder(candidate) then PrepareOrder(b, candidate, now, token, lease) else b
    case Finalizes(a, token, status, id) => FinalizeClaim(b, a, token, status, id)
    case Fails(a, token) => FailClaim(b, a, token)
    case Arrives(h) => Ingest(b, h)
    case Processes(e, now) => Process(b, e, now)
    case Settles(o, now) => AdminSettle(b, o, now)
    case Lapses(sub, now) => LapseSub(b, sub, now)
  }

  function Run(steps: seq<PaymentStep>, lease: int): Books {
    if steps == [] then NO_BOOKS else Apply(Run(steps[..|steps| - 1], lease), steps[|steps| - 1], lease)
  }
}
