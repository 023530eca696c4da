/**
 The payment use cases as they run: one method per transaction, working on entities and saving
 them, each proved to commit exactly the step that the payment theorems speak about.
 */
module PaymentStore {
  import opened Common
  import opened SubscriptionEntity
  import opened SubscriptionAccess
  import opened PaymentEntity
  import opened Payments

  class Store {
    var orders: seq<OrderRow>
    var attempts: seq<AttemptRow>
    var events: seq<EventRow>
    var txs: seq<Tx>
    var subs: seq<SubRow>
    var periods: seq<PeriodRow>
    const lease: int

    function View(): Books
      reads this
    {
      Books(orders, attempts, events, txs, Access(subs, periods))
    }

    constructor (lease: int)
      ensures View() == NO_BOOKS && this.lease == lease
    {
      this.lease := lease;
      orders, attempts, events, txs, subs, periods := [], [], [], [], [], [];
    }

    // -------------------------------------------------------------- invoice creation

    /** The part of `_prepare_order` that runs under the order's lock; `owns` says who calls the gateway. */
    method ClaimInvoice(order: int, now: int, token: int) returns (owns: bool)
      requires 0 <= order < |orders| && lease > 0
      modifies this`attempts
      ensures View() == Payments.ClaimInvoice(old(View()), order, now, token, lease)
      ensures owns <==> |attempts| == |old(attempts)| + 1
      ensures owns ==> OwnsClaim(attempts[|attempts| - 1], token) && attempts[|attempts| - 1].order == order
    {
      var latest := LatestAttempt(attempts, order);
      if latest.Some? {
        var attempt := new PaymentAttempt(attempts[latest.value]);
        if attempt.status == Created {
          if ClaimActive(attempt.Row(), now) { return false; }
          attempt.FailCreation();
          attempts := attempts[latest.value := attempt.Row()];
        } else if !(attempt.status == PaymentFailed && attempt.providerId.None?) {
          return false;
        }
      }
      var claim := new PaymentAttempt(AttemptRow(order, orders[order].provider, Created, None, None, None));
      var _ := claim.ClaimCreation(now, now + lease, token);
      attempts := attempts + [claim.Row()];
      owns := true;
    }

    /** `CreatePayment._prepare_order`. */
    method PrepareOrder(candidate: OrderRow, now: int, token: int) returns (owns: bool)
      requires lease > 0
      modifies this`orders, this`attempts
      ensures View() == Payments.PrepareOrder(old(View()), candidate, now, token, lease)
      ensures owns <==> |attempts| == |old(attempts)| + 1
      ensures owns ==> OwnsClaim(attempts[|attempts| - 1], token)
    {
      var known := OrderByKey(orders, candidate.key);
      if known.Some? {
        if !SameCreationIdentity(orders[known.value], candidate) { return false; }
        owns := ClaimInvoice(known.value, now, token);
      } else {
        orders := orders + [candidate];
        owns := ClaimInvoice(|orders| - 1, now, token);
      }
    }

    /** `_finalize_owned_claim`. */
    method FinalizeClaim(a: int, token: int, status: PaymentStatus, id: string) returns (recorded: bool)
      modifies this`attempts, this`txs
      ensures View() == Payments.FinalizeClaim(old(View()), a, token, status, id)
      ensures recorded ==> 0 <= a < |attempts| && attempts[a].providerId == Some(id)
    {
      if !(0 <= a < |attempts|) { return false; }
      var attempt := new PaymentAttempt(attempts[a]);
      if !OwnsClaim(attempt.Row(), token) { return false; }
      if AttemptByProviderId(attempts, attempt.provider, id).Some? || !(0 <= attempt.order < |orders|) { return false; }
      var ok := attempt.FinalizeCreation(status, id);
      if !ok { return false; }
      attempts := attempts[a := attempt.Row()];
      var order := orders[attempt.order];
      txs := AddTx(txs, Tx(attempt.order, order.provider, InvoiceTx, InvoiceKey(id), order.amount));
      recorded := true;
    }

    /** `_fail_owned_claim`. */
    method FailClaim(a: int, token: int)
      modifies this`attempts
      ensures View() == Payments.FailClaim(old(View()), a, token)
    {
      if !(0 <= a < |attempts|) { return; }
      var attempt := new PaymentAttempt(attempts[a]);
      if !OwnsClaim(attempt.Row(), token) { return; }
      attempt.FailCreation();
      attempts := attempts[a := attempt.Row()];
    }

    // -------------------------------------------------------------- entitlements

    /** `ActivateSubscription.execute`: `ok` is false when the replaced row cannot be stored. */
    method Activate(user: int, tariff: int, days: int, now: int, order: int) returns (ok: bool)
      requires days > 0
      modifies this`subs, this`periods
      ensures ok == SubscriptionAccess.Activate(old(View()).access, user, tariff, days, now, order).Some?
      ensures View().access == if ok then SubscriptionAccess.Activate(old(View()).access, user, tariff, days, now, order).value
                               else old(View()).access
    {
      var found := ActiveOf(subs, user);
      var active: Subscription? := null;
      var last := None;
      var id := |subs|;
      if found.Some? {
        active := new Subscription(subs[found.value]);
        if active.tariff == tariff {
          id := found.value;
          last := LastEnd(periods, found.value);
        }
      }
      var subscription, period, choice := ApplyPaidPeriod(active, id, last, user, tariff, days, now);
      if choice == ReplaceSub {
        if !Storable(active.Row()) { return false; }
        subs := subs[found.value := active.Row()];
      }
      if choice == ExtendSub { subs := subs[id := subscription.Row()]; } else { subs := subs + [subscription.Row()]; }
      periods := periods + [period.(order := Some(order))];
      ok := true;
    }

    /** Marks an order paid and activates it; nothing is stored unless both succeed. */
    method Settle(o: int, now: int) returns (ok: bool)
      requires 0 <= o < |orders| && orders[o].days > 0
      modifies this`orders, this`subs, this`periods
      ensures ok == Payments.Settle(old(View()), o, now).Some?
      ensures View() == if ok then Payments.Settle(old(View()), o, now).value else old(View())
    {
      var order := new PaymentOrder(orders[o]);
      var changed;
      ok, changed := order.MarkPaid(now);
      if changed {
        ok := Activate(order.user, order.tariff, order.days, now, o);
        if ok { orders := orders[o := order.Row()]; }
      }
    }

    /** `mark_payment_order_paid`. */
    method AdminSettle(o: int, now: int)
      requires 0 <= o < |orders| ==> orders[o].days > 0
      modifies this`orders, this`subs, this`periods
      ensures View() == Payments.AdminSettle(old(View()), o, now)
    {
      if !(0 <= o < |orders|) { return; }
      var _ := Settle(o, now);
    }

    method EndSub(i: int, now: int) returns (ok: bool)
      requires 0 <= i < |subs|
      modifies this`subs
      ensures ok == SubscriptionAccess.EndSub(old(View()).access, i, now).Some?
      ensures View().access == if ok then SubscriptionAccess.EndSub(old(View()).access, i, now).value else old(View()).access
    {
      var subscription := new Subscription(subs[i]);
      subscription.Expire(now);
      ok := Storable(subscription.Row());
      if ok { subs := subs[i := subscription.Row()]; }
    }

    /** The entitlement part of a full refund. */
    method Withdraw(p: int, now: int) returns (ok: bool)
      requires 0 <= p < |periods|
      modifies this`subs, this`periods
      ensures ok == SubscriptionAccess.Withdraw(old(View()).access, p, now).Some?
      ensures View().access == if ok then SubscriptionAccess.Withdraw(old(View()).access, p, now).value else old(View()).access
    {
      var before := periods;
      periods := periods[p := periods[p].(paid := false)];
      ok := true;
      var sub := before[p].sub;
      if 0 <= sub < |subs| && !HasFundedAfter(Access(subs, periods), sub, now) {
        ok := EndSub(sub, now);
        if !ok { periods := before; }
      }
    }

    /** `_expire_subscription`. */
    method Lapse(sub: int, now: int)
      modifies this`subs
      ensures View() == LapseSub(old(View()), sub, now)
    {
      if !(0 <= sub < |subs|) || subs[sub].status != SubActive { return; }
      if HasCurrent(Access(subs, periods), sub, now) { return; }
      var _ := EndSub(sub, now);
    }

    // -------------------------------------------------------------- events

    /** `IngestWebhook.execute`. */
    method Ingest(h: Webhook)
      modifies this`events
      ensures View() == Payments.Ingest(old(View()), h)
    {
      if KnownEvent(events, h.key) { return; }
      var attempt := None;
      if h.providerId.Some? && h.providerId.value != "" {
        attempt := AttemptByProviderId(attempts, h.provider, h.providerId.value);
      }
      var order := None;
      if attempt.Some? { order := Some(attempts[attempt.value].order); }
      events := events + [EventRow(order, attempt, h.provider, h.key, h.refund, h.status, h.providerId,
                                   h.reportedOrder, h.amount, h.currency, Received)];
    }

    method SaveEvent(e: int, state: EventState)
      requires 0 <= e < |events|
      modifies this`events
      ensures events == old(events)[e := old(events)[e].(state := state)]
    {
      events := events[e := events[e].(state := state)];
    }

    method ProcessPaid(e: int, now: int)
      requires 0 <= e < |events| && forall o :: 0 <= o < |orders| ==> orders[o].days > 0
      modifies this
      ensures View() == Payments.ProcessPaid(old(View()), e, now)
    {
      var ev := events[e];
      if ev.attempt.None? || !(0 <= ev.attempt.value < |attempts|) || !(0 <= attempts[ev.attempt.value].order < |orders|) {
        SaveEvent(e, Rejected);
        return;
      }
      var a := ev.attempt.value;
      var attempt := new PaymentAttempt(attempts[a]);
      var o := attempt.order;
      if !SettlementValid(ev, attempt.Row(), o, orders[o]) {
        SaveEvent(e, Rejected);
        return;
      }
      var transition := attempt.ApplyProviderStatus(Paid);
      if transition == Stale {
        SaveEvent(e, Ignored);
        return;
      }
      var settled := Settle(o, now);
      if !settled { return; }  // the whole transaction is rolled back
      attempts := attempts[a := attempt.Row()];
      txs := AddTx(txs, Tx(o, ev.provider, PaidTx, EventKey(ev.key), ev.amount.value));
      SaveEvent(e, Processed);
    }

    method ProcessRefund(e: int, now: int)
      requires 0 <= e < |events|
      modifies this
      ensures View() == Payments.ProcessRefund(old(View()), e, now)
    {
      var ev := events[e];
      if ev.attempt.None? || !(0 <= ev.attempt.value < |attempts|) || !(0 <= attempts[ev.attempt.value].order < |orders|) {
        SaveEvent(e, Rejected);
        return;
      }
      var o := attempts[ev.attempt.value].order;
      if !RefundValid(ev, orders[o]) {
        SaveEvent(e, Rejected);
        return;
      }
      var recorded := AddTx(txs, Tx(o, ev.provider, RefundTx, EventKey(ev.key), ev.amount.value));
      if RefundSum(recorded, o, ev.provider) >= orders[o].amount {
        var period := PeriodOf(periods, o);
        if period.Some? {
          var ok := Withdraw(period.value, now);
          if !ok { return; }  // rolled back
        }
      }
      txs := recorded;
      SaveEvent(e, Processed);
    }

    method ProcessOther(e: int)
      requires 0 <= e < |events|
      modifies this
      ensures View() == Payments.ProcessOther(old(View()), e)
    {
      var ev := events[e];
      var linked := ev.attempt.Some? && 0 <= ev.attempt.value < |attempts|;
      var orderId := ev.order;
      if orderId.None? && linked { orderId := Some(attempts[ev.attempt.value].order); }
      if orderId.None? || !(0 <= orderId.value < |orders|) || !Unsuccessful(ev.status) {
        SaveEvent(e, Ignored);
        return;
      }
      var a := ev.attempt;
      if !linked { a := LatestAttempt(attempts, orderId.value); }
      if a.Some? {
        var attempt := new PaymentAttempt(attempts[a.value]);
        var transition := attempt.ApplyProviderStatus(ev.status);
        if transition == Stale {
          SaveEvent(e, Ignored);
          return;
        }
        attempts := attempts[a.value := attempt.Row()];
      }
      var order := new PaymentOrder(orders[orderId.value]);
      var _ := order.ApplyUnsuccessful(ev.status);
      orders := orders[orderId.value := order.Row()];
      SaveEvent(e, Processed);
    }

    /** `ProcessPayment.execute`. */
    method Process(e: int, now: int)
      requires forall o :: 0 <= o < |orders| ==> orders[o].days > 0
      modifies this
      ensures View() == Payments.Process(old(View()), e, now)
    {
      if !(0 <= e < |events|) { return; }
      var ev := events[e];
      if ev.state == Processed || ev.state == Ignored { return; }
      if ev.refund { ProcessRefund(e, now); }
      else if ev.status == Paid { ProcessPaid(e, now); }
      else { ProcessOther(e); }
    }
  }
}
