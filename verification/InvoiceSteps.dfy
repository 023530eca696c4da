/**
 Exactly when a step of a run creates an order, claims, records or gives up an invoice, records an
 event, and how it handles one. The conditions are written out on the rows before the step.
 */
module InvoiceSteps {
  import opened Common
  import opened SubscriptionEntity
  import opened SubscriptionAccess
  import opened PaymentEntity
  import opened Payments
  import opened PaymentSafety
  import opened PaymentTheorems
  import opened PaymentSteps

  // ---------------------------------------------------------------- claims

  predicate KeyKnown(b: Books, key: string) {
    exists o :: 0 <= o < |b.orders| && b.orders[o].key == key
  }

  /** The step asks for an invoice of an order that can exist. */
  predicate AsksInvoice(step: PaymentStep) {
    step.Prepares? && step.candidate.amount > 0 && step.candidate.days > 0 && step.candidate.status == PaymentPending
  }

  /** The order it asks for: a new one, or the known one with its key if it has the same terms. */
  predicate AsksFor(b: Books, step: PaymentStep, o: int) {
    && AsksInvoice(step)
    && (if !KeyKnown(b, step.candidate.key) then o == |b.orders|
        else
          && OrderByKey(b.orders, step.candidate.key) == Some(o)
          && b.orders[o].user == step.candidate.user && b.orders[o].tariff == step.candidate.tariff
          && b.orders[o].provider == step.candidate.provider && b.orders[o].amount == step.candidate.amount
          && b.orders[o].currency == step.candidate.currency && b.orders[o].days == step.candidate.days)
  }

  /** Nobody has an invoice of the order or may still get one: no attempt, an abandoned claim, or a failed one without invoice. */
  predicate Claimable(b: Books, o: int, now: int) {
    var l := LatestAttempt(b.attempts, o);
    l.None? || (var a := b.attempts[l.value];
      || (a.status == Created && !(a.leaseToken.Some? && a.leaseExpiresAt.Some? && now < a.leaseExpiresAt.value))
      || (a.status == PaymentFailed && a.providerId.None?))
  }

  predicate Claims(b: Books, step: PaymentStep, o: int) {
    AsksFor(b, step, o) && Claimable(b, o, step.now)
  }

  /** The new claim, and the abandoned one that it takes over. */
  ghost predicate ClaimTaken(b: Books, b': Books, step: PaymentStep, o: int, lease: int)
    requires step.Prepares?
  {
    var n := |b.attempts|;
    && |b'.attempts| == n + 1
    && b'.attempts[n] == AttemptRow(o, step.candidate.provider, Created, None, Some(step.now + lease), Some(step.token))
    && (forall a :: 0 <= a < n ==>
          b'.attempts[a] ==
            if LatestAttempt(b.attempts, o) == Some(a) && b.attempts[a].status == Created
            then b.attempts[a].(status := PaymentFailed, leaseExpiresAt := None, leaseToken := None) else b.attempts[a])
  }

  lemma NewOrderUnclaimed(b: Books)
    requires BooksInv(b)
    ensures LatestAttempt(b.attempts, |b.orders|).None?
  {
    assert forall a :: 0 <= a < |b.attempts| ==> AttemptOk(b, b.attempts[a]);
  }

  lemma ClaimExactly(b: Books, o: int, step: PaymentStep, lease: int)
    requires step.Prepares? && 0 <= o < |b.orders| && b.orders[o].provider == step.candidate.provider
    ensures var b' := ClaimInvoice(b, o, step.now, step.token, lease);
      if Claimable(b, o, step.now) then ClaimTaken(b, b', step, o, lease) && b'.orders == b.orders else b' == b
  {
  }

  lemma PrepareExactly(b: Books, step: PaymentStep, lease: int)
    requires BooksInv(b) && step.Prepares?
    ensures var b' := Apply(b, step, lease);
      && b'.orders == (if AsksInvoice(step) && !KeyKnown(b, step.candidate.key) then b.orders + [step.candidate] else b.orders)
      && (forall o :: Claims(b, step, o) ==> ClaimTaken(b, b', step, o, lease))
      && ((forall o :: !Claims(b, step, o)) ==> b'.attempts == b.attempts)
  {
    NewOrderUnclaimed(b);
    hide BooksInv;
    var n := |b.orders|;
    var c := b.(orders := b.orders + [step.candidate]);
    if AsksInvoice(step) {
      var known := OrderByKey(b.orders, step.candidate.key);
      assert known.Some? <==> KeyKnown(b, step.candidate.key);
      if known.Some? {
        if SameCreationIdentity(b.orders[known.value], step.candidate) { ClaimExactly(b, known.value, step, lease); }
        hide ClaimInvoice, OrderByKey, ClaimTaken, Claimable;
        assert forall o :: Claims(b, step, o) ==> o == known.value;
        assert Claims(b, step, known.value) <==>
          SameCreationIdentity(b.orders[known.value], step.candidate) && Claimable(b, known.value, step.now);
      } else {
        ClaimExactly(c, n, step, lease);
        hide ClaimInvoice, OrderByKey, LatestAttempt;
        assert Claims(b, step, n);
      }
    }
  }

  lemma OthersClaimNothing(b: Books, step: PaymentStep, lease: int)
    requires !step.Prepares?
    ensures var b' := Apply(b, step, lease); |b'.orders| == |b.orders| && |b'.attempts| == |b.attempts|
  {
    hide Activate, Withdraw, Lapse, RefundSum, AddTx, LatestAttempt, AttemptByProviderId, SettlementValid, RefundValid, PeriodOf;
  }

  /**
   In every run, a step takes a new claim on the invoice of an order if and only if it asks for that
   order by its key and terms, and nobody has its invoice or may still get it. It creates an
   order exactly when it asks for one under an unknown key.
   */
  lemma ClaimedExactlyWhen(steps: seq<PaymentStep>, step: PaymentStep, lease: int)
    ensures var b, b' := Run(steps, lease), Run(steps + [step], lease);
      && (|b'.attempts| != |b.attempts| <==> exists o :: Claims(b, step, o))
      && (forall o :: Claims(b, step, o) ==> ClaimTaken(b, b', step, o, lease))
      && (|b'.orders| != |b.orders| <==> AsksInvoice(step) && !KeyKnown(b, step.candidate.key))
      && (|b'.orders| != |b.orders| ==> b'.orders == b.orders + [step.candidate])
  {
    RunInv(steps, lease);
    RunSnoc(steps, step, lease);
    hide Run, BooksInv, Apply, Claimable, KeyKnown;
    if step.Prepares? { PrepareExactly(Run(steps, lease), step, lease); } else { OthersClaimNothing(Run(steps, lease), step, lease); }
  }

  // ---------------------------------------------------------------- invoices

  /** The owner of a claim records its invoice, under a provider id that no other attempt has. */
  predicate RecordsInvoice(b: Books, step: PaymentStep, a: int) {
    && step.Finalizes? && step.attempt == a && 0 <= a < |b.attempts|
    && b.attempts[a].status == Created && b.attempts[a].leaseToken == Some(step.token) && step.status != Created
    && forall i :: 0 <= i < |b.attempts| && b.attempts[i].provider == b.attempts[a].provider ==>
         b.attempts[i].providerId != Some(step.providerId)
  }

  /** The owner of a claim gives it up. */
  predicate GivesUp(b: Books, step: PaymentStep, a: int) {
    && step.Fails? && step.attempt == a && 0 <= a < |b.attempts|
    && b.attempts[a].status == Created && b.attempts[a].leaseToken == Some(step.token)
  }

  lemma AddedTx(txs: seq<Tx>, t: Tx)
    ensures HasTx(AddTx(txs, t), t.provider, t.key)
  {
    if !HasTx(txs, t.provider, t.key) { assert (txs + [t])[|txs|] == t; }
  }

  lemma FinalizeExactly(b: Books, step: PaymentStep, lease: int)
    requires BooksInv(b) && step.Finalizes?
    ensures var b' := Apply(b, step, lease);
      if RecordsInvoice(b, step, step.attempt) then
        && b'.attempts == b.attempts[step.attempt := b.attempts[step.attempt].(status := step.status,
             providerId := Some(step.providerId), leaseExpiresAt := None, leaseToken := None)]
        && HasTx(b'.txs, b.attempts[step.attempt].provider, InvoiceKey(step.providerId))
      else b' == b
  {
    assert 0 <= step.attempt < |b.attempts| ==> AttemptOk(b, b.attempts[step.attempt]);
    hide BooksInv, AddTx;
    if RecordsInvoice(b, step, step.attempt) {
      var row := b.attempts[step.attempt];
      AddedTx(b.txs, Tx(row.order, b.orders[row.order].provider, InvoiceTx, InvoiceKey(step.providerId), b.orders[row.order].amount));
    }
    var known := if 0 <= step.attempt < |b.attempts| then AttemptByProviderId(b.attempts, b.attempts[step.attempt].provider, step.providerId)
                 else None;
  }

  lemma FailExactly(b: Books, step: PaymentStep, lease: int)
    requires step.Fails?
    ensures Apply(b, step, lease) ==
      if GivesUp(b, step, step.attempt) then
        b.(attempts := b.attempts[step.attempt := b.attempts[step.attempt].(status := PaymentFailed, leaseExpiresAt := None, leaseToken := None)])
      else b
  {
  }

  lemma IdsKept(b: Books, step: PaymentStep, lease: int, a: int)
    requires !step.Finalizes? && !step.Fails? && 0 <= a < |b.attempts|
    ensures var b' := Apply(b, step, lease); a < |b'.attempts| && b'.attempts[a].providerId == b.attempts[a].providerId
  {
    hide Activate, Withdraw, Lapse, RefundSum, AddTx, AttemptByProviderId, SettlementValid, RefundValid, PeriodOf, OrderByKey,
      SameCreationIdentity, TransitionOf;
  }

  /** In every run, an attempt gets a provider id exactly when the owner of its claim records an unused one. */
  lemma InvoicedExactlyWhen(steps: seq<PaymentStep>, step: PaymentStep, lease: int, a: int)
    requires 0 <= a < |Run(steps, lease).attempts|
    ensures var b, b' := Run(steps, lease), Run(steps + [step], lease);
      && a < |b'.attempts|
      && (b'.attempts[a].providerId != b.attempts[a].providerId <==> RecordsInvoice(b, step, a))
      && (RecordsInvoice(b, step, a) ==>
            && b'.attempts[a].status == step.status && b'.attempts[a].providerId == Some(step.providerId)
            && HasTx(b'.txs, b.attempts[a].provider, InvoiceKey(step.providerId)))
      && (GivesUp(b, step, a) ==> b'.attempts[a].status == PaymentFailed && b'.attempts[a].leaseToken.None?)
  {
    RunInv(steps, lease);
    RunSnoc(steps, step, lease);
    var b := Run(steps, lease);
    hide Run, Apply, BooksInv;
    match step
    case Finalizes(i, token, status, id) => FinalizeExactly(b, step, lease);
    case Fails(i, token) => FailExactly(b, step, lease);
    case _ => IdsKept(b, step, lease, a);
  }
}
