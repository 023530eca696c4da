/**
 Payment orders, invoice attempts and provider events: rows, transitions as functions on rows,
 and the mutable entities the use cases work with. Currencies are canonical, as both the money
 value and the event normalise them on construction.
 */
module PaymentEntity {
  import opened Common

  datatype PaymentStatus =
    | Created | PaymentPending | Authorized | Paid | PaymentFailed | PaymentExpired | PaymentCancelled

  datatype OrderRow = OrderRow(
    user: int, tariff: int, provider: string, amount: int, currency: string, days: int, key: string,
    status: PaymentStatus, paidAt: Option<int>)

  datatype AttemptRow = AttemptRow(
    order: int, provider: string, status: PaymentStatus, providerId: Option<string>,
    leaseExpiresAt: Option<int>, leaseToken: Option<int>)

  datatype EventState = Received | Processed | Ignored | Rejected

  /** `status` is the normalised payment status; `refund` marks the type "refund.succeeded". */
  datatype EventRow = EventRow(
    order: Option<int>, attempt: Option<int>, provider: string, key: string, refund: bool, status: PaymentStatus,
    providerId: Option<string>, reportedOrder: Option<int>, amount: Option<int>, currency: Option<string>,
    state: EventState)

  datatype Transition = Applied | Duplicate | Stale

  predicate SameCreationIdentity(a: OrderRow, b: OrderRow) {
    a.user == b.user && a.tariff == b.tariff && a.provider == b.provider
    && a.amount == b.amount && a.currency == b.currency && a.days == b.days
  }

  function PaidOrder(o: OrderRow, now: int): OrderRow {
    if o.status == Paid || o.status == Created then o else o.(status := Paid, paidAt := Some(now))
  }

  /** A failure status only ever ends a pending order. */
  function UnsuccessfulOrder(o: OrderRow, status: PaymentStatus): OrderRow {
    if o.status == PaymentPending then o.(status := status) else o
  }

  predicate Unsuccessful(s: PaymentStatus) {
    s == PaymentFailed || s == PaymentExpired || s == PaymentCancelled
  }

  predicate Settled(s: PaymentStatus) { s == Paid || Unsuccessful(s) }

  function Rank(s: PaymentStatus): int {
    if s == Created then 0 else if s == PaymentPending then 1 else if s == Authorized then 2 else 3
  }

  function TransitionOf(s: PaymentStatus, target: PaymentStatus): Transition {
    if Settled(s) then (if s == target then Duplicate else Stale)
    else if Rank(target) < Rank(s) then Stale
    else Applied
  }

  function WithStatus(a: AttemptRow, target: PaymentStatus): AttemptRow {
    if TransitionOf(a.status, target) == Applied then a.(status := target) else a
  }

  predicate ClaimActive(a: AttemptRow, now: int) {
    a.status == Created && a.leaseToken.Some? && a.leaseExpiresAt.Some? && now < a.leaseExpiresAt.value
  }

  predicate OwnsClaim(a: AttemptRow, token: int) {
    a.status == Created && a.leaseToken == Some(token)
  }

  function NewClaim(order: int, provider: string, expiresAt: int, token: int): AttemptRow {
    AttemptRow(order, provider, Created, None, Some(expiresAt), Some(token))
  }

  function CreationFailed(a: AttemptRow): AttemptRow {
    if a.status == Created then a.(status := PaymentFailed, leaseExpiresAt := None, leaseToken := None) else a
  }

  function CreationFinalized(a: AttemptRow, status: PaymentStatus, providerId: string): AttemptRow {
    a.(status := status, providerId := Some(providerId), leaseExpiresAt := None, leaseToken := None)
  }

  class PaymentOrder {
    const user: int
    const tariff: int
    const provider: string
    const amount: int
    const currency: string
    const days: int
    const key: string
    var status: PaymentStatus
    var paidAt: Option<int>

    function Row(): OrderRow
      reads this
    {
      OrderRow(user, tariff, provider, amount, currency, days, key, status, paidAt)
    }

    constructor (row: OrderRow)
      ensures Row() == row
    {
      user, tariff, provider := row.user, row.tariff, row.provider;
      amount, currency, days, key := row.amount, row.currency, row.days, row.key;
      status, paidAt := row.status, row.paidAt;
    }

    method MarkPaid(now: int) returns (ok: bool, changed: bool)
      modifies this
      ensures ok == old(status != Created)
      ensures changed == old(status != Paid && status != Created)
      ensures Row() == PaidOrder(old(Row()), now)
    {
      if status == Paid { return true, false; }
      if status == Created { return false, false; }
      status := Paid;
      paidAt := Some(now);
      return true, true;
    }

    method Finish(target: PaymentStatus) returns (ok: bool, changed: bool)
      requires Unsuccessful(target)
      modifies this
      ensures ok == old(status != Paid)
      ensures changed == old(status == PaymentPending)
      ensures Row() == UnsuccessfulOrder(old(Row()), target)
    {
      if status == target { return true, false; }
      if status == Paid { return false, false; }
      if status != PaymentPending { return true, false; }
      status := target;
      return true, true;
    }

    /** `apply_external_status` for the three failure statuses: a paid order ignores them. */
    method ApplyUnsuccessful(target: PaymentStatus) returns (changed: bool)
      requires Unsuccessful(target)
      modifies this
      ensures changed == old(status == PaymentPending)
      ensures Row() == UnsuccessfulOrder(old(Row()), target)
    {
      if status == Paid { return false; }
      var ok;
      ok, changed := Finish(target);
    }
  }

  class PaymentAttempt {
    const order: int
    const provider: string
    var status: PaymentStatus
    var providerId: Option<string>
    var leaseExpiresAt: Option<int>
    var leaseToken: Option<int>

    function Row(): AttemptRow
      reads this
    {
      AttemptRow(order, provider, status, providerId, leaseExpiresAt, leaseToken)
    }

    constructor (row: AttemptRow)
      ensures Row() == row
    {
      order, provider, status, providerId := row.order, row.provider, row.status, row.providerId;
      leaseExpiresAt, leaseToken := row.leaseExpiresAt, row.leaseToken;
    }

    method ClaimCreation(now: int, expiresAt: int, token: int) returns (ok: bool)
      modifies this
      ensures ok == (old(status == Created) && now < expiresAt)
      ensures Row() == if ok then old(Row()).(leaseExpiresAt := Some(expiresAt), leaseToken := Some(token)) else old(Row())
    {
      if status != Created || expiresAt <= now { return false; }
      leaseExpiresAt := Some(expiresAt);
      leaseToken := Some(token);
      ok := true;
    }

    method FinalizeCreation(target: PaymentStatus, id: string) returns (ok: bool)
      modifies this
      ensures ok == (old(status == Created) && target != Created)
      ensures Row() == if ok then CreationFinalized(old(Row()), target, id) else old(Row())
    {
      if status != Created || target == Created { return false; }
      status := target;
      providerId := Some(id);
      leaseExpiresAt := None;
      leaseToken := None;
      ok := true;
    }

    method FailCreation()
      modifies this
      ensures Row() == CreationFailed(old(Row()))
    {
      if status != Created { return; }
      status := PaymentFailed;
      leaseExpiresAt := None;
      leaseToken := None;
    }

    method ApplyProviderStatus(target: PaymentStatus) returns (result: Transition)
      modifies this
      ensures result == TransitionOf(old(status), target)
      ensures Row() == WithStatus(old(Row()), target)
    {
      if status == Paid || status == PaymentFailed || status == PaymentExpired || status == PaymentCancelled {
        return if status == target then Duplicate else Stale;
      }
      if Rank(target) < Rank(status) { return Stale; }
      status := target;
      result := Applied;
    }
  }
}
