/**
 Payments and the control plane composed: entitlements change only by payment steps, and the
 control plane reads what the books say.
 */
module Shop {
  import opened Common
  import opened VpnEntity
  import opened SubscriptionEntity
  import opened SubscriptionAccess
  import opened Transactions
  import opened ControlPlane
  import opened ControlPlaneSafety
  import PaymentEntity
  import Payments
  import PaymentSafety
  import opened PaymentTheorems
  import PaymentSteps
  import Convergence

  datatype Shop = Shop(books: Payments.Books, world: World)

  datatype ShopStep = Pay(payment: Payments.PaymentStep) | Operate(step: Step)

  const CLOSED := Shop(Payments.NO_BOOKS, EMPTY)

  function Next(shop: Shop, step: ShopStep, lease: int, s: Settings): Shop {
    match step
    case Pay(payment) =>
      var books := Payments.Apply(shop.books, payment, lease);
      Shop(books, Apply(shop.world, EntitlementsChange(Entitlements(books)), s))
    case Operate(st) =>
      if st.EntitlementsChange? then shop else shop.(world := Apply(shop.world, st, s))
  }

  function ShopRun(steps: seq<ShopStep>, lease: int, s: Settings): Shop {
    if steps == [] then CLOSED
    else Next(ShopRun(steps[..|steps| - 1], lease, s), steps[|steps| - 1], lease, s)
  }

  ghost predicate ShopInv(shop: Shop) {
    PaymentSafety.BooksInv(shop.books) && Inv(shop.world) && shop.world.subs == Entitlements(shop.books)
  }

  lemma ApplyKeepsEntitlements(w: World, step: Step, s: Settings)
    requires !step.EntitlementsChange?
    ensures Apply(w, step, s).subs == w.subs
  {
    hide Perform, RevokePlan, ReuseProvisioning, FreshConfig, SelectEndpoint, PlanProvision;
  }

  lemma NextKeepsInv(shop: Shop, step: ShopStep, lease: int, s: Settings)
    requires ShopInv(shop)
    ensures ShopInv(Next(shop, step, lease, s))
  {
    hide PaymentSafety.BooksInv, Inv;
    match step
    case Pay(payment) =>
      var books := Payments.Apply(shop.books, payment, lease);
      PaymentSafety.StepKeepsInv(shop.books, payment, lease);
      SubsGrow(shop.books, payment, lease);
      hide Payments.Apply;
      StepKeepsInv(shop.world, EntitlementsChange(Entitlements(books)), s);
    case Operate(st) =>
      if !st.EntitlementsChange? {
        StepKeepsInv(shop.world, st, s);
        ApplyKeepsEntitlements(shop.world, st, s);
        hide Apply;
      }
  }

  lemma ClosedInv()
    ensures ShopInv(CLOSED)
  {
    PaymentSafety.NoBooksInv();
    hide PaymentSafety.BooksInv;
  }

  lemma {:induction false} ShopRunInv(steps: seq<ShopStep>, lease: int, s: Settings)
    ensures ShopInv(ShopRun(steps, lease, s))
  {
    hide ShopInv, Next;
    if steps == [] {
      ClosedInv();
    } else {
      ShopRunInv(steps[..|steps| - 1], lease, s);
      NextKeepsInv(ShopRun(steps[..|steps| - 1], lease, s), steps[|steps| - 1], lease, s);
    }
  }

  /** Period `p` gives subscription `sub` access at `now`, and a paid order of its owner and tariff stands behind it. */
  ghost predicate PaidAccess(b: Payments.Books, sub: int, now: int, p: int) {
    && 0 <= p < |b.access.periods| && 0 <= sub < |b.access.subs|
    && b.access.periods[p].sub == sub && Contains(b.access.periods[p], now)
    && b.access.periods[p].order.Some? && 0 <= b.access.periods[p].order.value < |b.orders|
    && (var o := b.orders[b.access.periods[p].order.value];
        o.status == PaymentEntity.Paid && o.user == b.access.subs[sub].user && o.tariff == b.access.subs[sub].tariff)
  }

  lemma FundedIsPaid(shop: Shop, sub: int, now: int)
    requires ShopInv(shop) && SubFunded(shop.world, sub, now)
    ensures exists p :: PaidAccess(shop.books, sub, now, p)
  {
    var b := shop.books;
    SameFunding(b.access, sub, now);
    var p :| 0 <= p < |b.access.periods| && b.access.periods[p].sub == sub && Contains(b.access.periods[p], now);
    assert PaymentSafety.AccessOk(b);
    assert PaymentSafety.PeriodOk(b, b.access.periods[p]);
    assert PaidAccess(b, sub, now, p);
  }

  lemma OnePaidAccess(shop: Shop, sub: int, now: int, p: int, q: int)
    requires ShopInv(shop) && PaidAccess(shop.books, sub, now, p) && PaidAccess(shop.books, sub, now, q)
    ensures p == q
  {
    assert AccessInv(shop.books.access);
    OneFundedPeriodAtATime(shop.books.access, p, q, now);
  }

  /** Configuration `i` becomes active. */
  ghost predicate TurnsActive(w: World, w': World, i: int) {
    0 <= i < |w.configs| && i < |w'.configs| && w.configs[i].vpn.status != Active && w'.configs[i].vpn.status == Active
  }

  lemma PaymentsActivateNothing(shop: Shop, payment: Payments.PaymentStep, lease: int, s: Settings)
    ensures Next(shop, Pay(payment), lease, s).world.configs == shop.world.configs
  {
    hide Payments.Apply, Entitlements;
  }

  lemma ActivatingStep(shop: Shop, step: ShopStep, lease: int, s: Settings, i: int)
    requires Inv(shop.world) && TurnsActive(shop.world, Next(shop, step, lease, s).world, i)
    ensures step.Operate? && step.step.WorkerCommits?
    ensures SubFunded(shop.world, shop.world.configs[i].subscription, step.step.now)
  {
    hide Inv, Apply;
    match step
    case Pay(payment) =>
      PaymentsActivateNothing(shop, payment, lease, s);
      hide Next;
    case Operate(st) =>
      StepActivates(shop.world, st, s, i);
      hide SubFunded;
  }

  /**
   Every activation of the composed system happens at a clock reading inside exactly one funded
   period of its subscription, and that period is carried by a PAID order of the same user and tariff.
   */
  lemma ActivationsArePaid(steps: seq<ShopStep>, step: ShopStep, lease: int, s: Settings, i: int)
    requires TurnsActive(ShopRun(steps, lease, s).world, ShopRun(steps + [step], lease, s).world, i)
    ensures step.Operate? && step.step.WorkerCommits?
    ensures var shop := ShopRun(steps, lease, s);
      var sub := shop.world.configs[i].subscription;
      && (exists p :: PaidAccess(shop.books, sub, step.step.now, p))
      && (forall p, q :: PaidAccess(shop.books, sub, step.step.now, p) && PaidAccess(shop.books, sub, step.step.now, q) ==> p == q)
  {
    var shop := ShopRun(steps, lease, s);
    ShopRunInv(steps, lease, s);
    assert (steps + [step])[..|steps|] == steps;
    assert ShopRun(steps + [step], lease, s) == Next(shop, step, lease, s);
    hide ShopRun, Next, SubFunded, PaidAccess, PaymentSafety.BooksInv, Inv;
    ActivatingStep(shop, step, lease, s, i);
    hide ShopInv, TurnsActive;
    var sub, now := shop.world.configs[i].subscription, step.step.now;
    FundedIsPaid(shop, sub, now);
    forall p, q | PaidAccess(shop.books, sub, now, p) && PaidAccess(shop.books, sub, now, q) ensures p == q {
      OnePaidAccess(shop, sub, now, p, q);
    }
  }

  // ---------------------------------------------------------------- activations for ended subscriptions

  lemma ShopSnoc(steps: seq<ShopStep>, step: ShopStep, lease: int, s: Settings)
    ensures ShopRun(steps + [step], lease, s) == Next(ShopRun(steps, lease, s), step, lease, s)
  {
    assert (steps + [step])[..|steps|] == steps;
  }

  /** Step `n` is a payment step that ends subscription `sub` while funded time is left. */
  ghost predicate StrandedBy(steps: seq<ShopStep>, n: int, lease: int, s: Settings, sub: int) {
    && 0 <= n < |steps| && steps[n].Pay?
    && (var b := ShopRun(steps[..n], lease, s).books;
        LapsesInGap(b, steps[n].payment, sub) || exists o :: SwitchesTariff(b, steps[n].payment, sub, o))
  }

  /** Only these steps change entitlements. */
  predicate ChangesAccess(payment: Payments.PaymentStep) {
    payment.Processes? || payment.Settles? || payment.Lapses?
  }

  /** The steps that change entitlements read a clock that is no later than `now`. */
  predicate PaidBy(steps: seq<ShopStep>, now: int) {
    forall n :: 0 <= n < |steps| && steps[n].Pay? && ChangesAccess(steps[n].payment) ==>
      PaymentTheorems.At(steps[n].payment) <= now
  }

  /** A step that strands a subscription ends it. */
  lemma StrandedEnds(b: Payments.Books, payment: Payments.PaymentStep, lease: int, sub: int)
    requires PaymentSafety.BooksInv(b)
    requires LapsesInGap(b, payment, sub) || exists o :: SwitchesTariff(b, payment, sub, o)
    ensures EndedSub(Payments.Apply(b, payment, lease).access, sub)
  {
    hide PaymentSafety.BooksInv, LapsesInGap, SwitchesTariff, Payments.Apply;
    StepStrands(b, payment, lease, sub);
    hide HasFundedAfter;
  }

  /** Where a subscription ends with funded time left, the step is one of the two that strand it. */
  lemma EndsStranded(b: Payments.Books, payment: Payments.PaymentStep, lease: int, sub: int, now: int)
    requires PaymentSafety.BooksInv(b) && 0 <= sub < |b.access.subs| && !EndedSub(b.access, sub)
    requires var a := Payments.Apply(b, payment, lease).access; EndedSub(a, sub) && HasFundedAfter(a, sub, now)
    requires ChangesAccess(payment) ==> PaymentTheorems.At(payment) <= now
    ensures LapsesInGap(b, payment, sub) || exists o :: SwitchesTariff(b, payment, sub, o)
  {
    if !ChangesAccess(payment) { OtherStepsEndNothing(b, payment, lease); }
    hide PaymentSafety.BooksInv, LapsesInGap, SwitchesTariff, Payments.Apply;
    StepStrands(b, payment, lease, sub);
  }

  lemma OtherStepsEndNothing(b: Payments.Books, payment: Payments.PaymentStep, lease: int)
    requires !ChangesAccess(payment)
    ensures Payments.Apply(b, payment, lease).access == b.access
  {
    hide Payments.OrderByKey, Payments.LatestAttempt, Payments.AttemptByProviderId, Payments.AddTx;
  }

  /** One more step: an ended subscription with funded time left was so before, or the step strands it. */
  lemma StrandedStep(p: seq<ShopStep>, step: ShopStep, lease: int, s: Settings, sub: int, now: int)
    requires PaidBy(p + [step], now)
    requires var a := ShopRun(p + [step], lease, s).books.access; EndedSub(a, sub) && HasFundedAfter(a, sub, now)
    ensures var a := ShopRun(p, lease, s).books.access;
      (EndedSub(a, sub) && HasFundedAfter(a, sub, now)) || StrandedBy(p + [step], |p|, lease, s, sub)
  {
    hide ShopRun, HasFundedAfter, LapsesInGap, SwitchesTariff, PaymentSafety.BooksInv, Inv, Payments.Apply, ControlPlane.Apply,
      PaymentTheorems.At, Entitlements;
    assert (p + [step])[..|p|] == p && (p + [step])[|p|] == step;
    ShopSnoc(p, step, lease, s);
    ShopRunInv(p, lease, s);
    var b := ShopRun(p, lease, s).books;
    if step.Pay? {
      StepEndsForGood(b, step.payment, lease);
      if EndedSub(b.access, sub) { EndedGainsNothing(b.access, Payments.Apply(b, step.payment, lease).access, sub, now); }
      else { EndsStranded(b, step.payment, lease, sub, now); }
    }
  }

  /** An ended subscription with funded time left was stranded by a step of the run. */
  lemma {:induction false} EndedWasStranded(steps: seq<ShopStep>, lease: int, s: Settings, sub: int, now: int)
    requires PaidBy(steps, now)
    requires var a := ShopRun(steps, lease, s).books.access; EndedSub(a, sub) && HasFundedAfter(a, sub, now)
    ensures exists n :: StrandedBy(steps, n, lease, s, sub)
    decreases |steps|
  {
    if steps != [] {
      hide ShopRun, EndedSub, HasFundedAfter, LapsesInGap, SwitchesTariff;
      var last := |steps| - 1;
      var p := steps[..last];
      assert steps == p + [steps[last]];
      StrandedStep(p, steps[last], lease, s, sub, now);
      if !StrandedBy(steps, last, lease, s, sub) {
        EndedWasStranded(p, lease, s, sub, now);
        var n :| StrandedBy(p, n, lease, s, sub);
        assert p[..n] == steps[..n] && StrandedBy(steps, n, lease, s, sub);
      }
    }
  }

  /** And a stranded one stays ended. */
  lemma {:induction false} StrandedStaysEnded(steps: seq<ShopStep>, n: int, lease: int, s: Settings, sub: int)
    requires StrandedBy(steps, n, lease, s, sub)
    ensures EndedSub(ShopRun(steps, lease, s).books.access, sub)
    decreases |steps|
  {
    hide ShopRun, LapsesInGap, SwitchesTariff, PaymentSafety.BooksInv, Inv, Payments.Apply, ControlPlane.Apply;
    var last := |steps| - 1;
    var p := steps[..last];
    assert steps == p + [steps[last]];
    ShopSnoc(p, steps[last], lease, s);
    ShopRunInv(p, lease, s);
    var b := ShopRun(p, lease, s).books;
    if n == last {
      StrandedEnds(b, steps[last].payment, lease, sub);
    } else {
      assert p[..n] == steps[..n];
      StrandedStaysEnded(p, n, lease, s, sub);
      if steps[last].Pay? { StepEndsForGood(b, steps[last].payment, lease); }
    }
  }

  /** Funded access at `now` that the control plane sees is funded time after `now` on the books. */
  lemma FundedNow(shop: Shop, sub: int, now: int)
    requires ShopInv(shop) && SubFunded(shop.world, sub, now)
    ensures 0 <= sub < |shop.books.access.subs| && HasFundedAfter(shop.books.access, sub, now)
    ensures !shop.world.subs[sub].active <==> EndedSub(shop.books.access, sub)
  {
    var a := shop.books.access;
    SameFunding(a, sub, now);
    hide ControlPlane.Funded;
    var k :| 0 <= k < |a.periods| && a.periods[k].sub == sub && Contains(a.periods[k], now);
    assert a.periods[k].paid && now < a.periods[k].end;
  }

  lemma ActivatesInShop(shop: Shop, step: ShopStep, lease: int, s: Settings, i: int)
    requires Inv(shop.world)
    ensures TurnsActive(shop.world, Next(shop, step, lease, s).world, i) <==> step.Operate? && Activates(shop.world, step.step, i)
  {
    hide Inv, ControlPlane.Apply, WorkActivates, Payments.Apply, Entitlements;
    match step
    case Pay(payment) => PaymentsActivateNothing(shop, payment, lease, s);
    case Operate(st) =>
      if 0 <= i < |shop.world.configs| && shop.world.configs[i].vpn.status != Active { StepActivates(shop.world, st, s, i); }
  }

  /** Configuration `i` belongs to a subscription that has ended. */
  predicate OfEnded(w: World, i: int) {
    0 <= i < |w.configs| && w.configs[i].subscription in w.subs && !w.subs[w.configs[i].subscription].active
  }

  /** The subscription of configuration `i` was ended, with funded time left, by an earlier payment step. */
  ghost predicate WasStranded(steps: seq<ShopStep>, lease: int, s: Settings, i: int) {
    var w := ShopRun(steps, lease, s).world;
    0 <= i < |w.configs| && exists n :: StrandedBy(steps, n, lease, s, w.configs[i].subscription)
  }

  /**
   A step of the composed system activates a configuration of an ended subscription if and only if it
   is an activating finalization and an earlier payment step ended that subscription with funded time
   left: an expiry in a gap, or a change of tariff.
   */
  lemma EndedActivationExactlyWhen(steps: seq<ShopStep>, step: ShopStep, lease: int, s: Settings, i: int)
    requires step.Operate? && step.step.WorkerCommits? ==> PaidBy(steps, step.step.now)
    ensures var w, w' := ShopRun(steps, lease, s).world, ShopRun(steps + [step], lease, s).world;
      TurnsActive(w, w', i) && OfEnded(w', i)
      <==> step.Operate? && Activates(w, step.step, i) && WasStranded(steps, lease, s, i)
  {
    var shop := ShopRun(steps, lease, s);
    ShopRunInv(steps, lease, s);
    ShopSnoc(steps, step, lease, s);
    hide ShopRun, Inv, PaymentSafety.BooksInv, StrandedBy, SubFunded, PaidBy;
    ActivatesInShop(shop, step, lease, s, i);
    if step.Operate? && Activates(shop.world, step.step, i) {
      var sub, now := shop.world.configs[i].subscription, step.step.now;
      ActivatedIsFunded(shop.world, step.step, s, i);
      hide WorkActivates, ControlPlane.Apply;
      FundedNow(shop, sub, now);
      hide HasFundedAfter, EndedSub;
      if EndedSub(shop.books.access, sub) { EndedWasStranded(steps, lease, s, sub, now); }
      if n :| StrandedBy(steps, n, lease, s, sub) { StrandedStaysEnded(steps, n, lease, s, sub); }
    }
  }

  lemma ActivatedIsFunded(w: World, step: Step, s: Settings, i: int)
    requires Inv(w) && Activates(w, step, i)
    ensures SubFunded(w, w.configs[i].subscription, step.now)
    ensures OfEnded(Apply(w, step, s), i) <==> OfEnded(w, i)
  {
    StepKeepsIdentity(w, step, s, i);
    ApplyKeepsEntitlements(w, step, s);
    hide Inv, ControlPlane.Apply, SubFunded, Funded;
  }

  // ---------------------------------------------------------------- the expiry job

  /** The payment steps of a run. */
  function PaymentsOf(steps: seq<ShopStep>): seq<Payments.PaymentStep> {
    if steps == [] then []
    else
      var last := steps[|steps| - 1];
      PaymentsOf(steps[..|steps| - 1]) + if last.Pay? then [last.payment] else []
  }

  /** The books of a composed run are those of its payment steps alone. */
  lemma {:induction false} BooksArePayments(steps: seq<ShopStep>, lease: int, s: Settings)
    ensures ShopRun(steps, lease, s).books == Payments.Run(PaymentsOf(steps), lease)
  {
    if steps != [] {
      var p, last := steps[..|steps| - 1], steps[|steps| - 1];
      BooksArePayments(p, lease, s);
      if last.Pay? { RunSnoc(PaymentsOf(p), last.payment, lease); }
      assert PaymentsOf(p) + [] == PaymentsOf(p);
      hide Payments.Run, Payments.Apply, ControlPlane.Apply;
    }
  }

  /** What the anomaly query lists, told by the books. */
  lemma ListedOnBooks(shop: Shop, sub: int, now: int)
    requires ShopInv(shop)
    ensures var a := shop.books.access;
      Convergence.ExpireSubscription(shop.world, sub, now) <==>
        0 <= sub < |a.subs| && a.subs[sub].status == SubActive && PaymentSteps.Uncovered(a, sub, now)
  {
    var a := shop.books.access;
    hide PaymentSafety.BooksInv, Inv, Funded, PaymentSteps.Uncovered;
    if 0 <= sub < |a.subs| {
      SameFunding(a, sub, now);
      PaymentSteps.UncoveredIsNotCurrent(a, sub, now);
    }
    hide HasCurrent;
  }

  lemma UncoveredStays(a: Access, i: int, sub: int, now: int)
    requires 0 <= i < |a.subs|
    ensures PaymentSteps.Uncovered(PaymentSteps.EndedAt(a, i, now), sub, now) <==> PaymentSteps.Uncovered(a, sub, now)
  {
  }

  /**
   The expiry job that the reconciler runs for a listed subscription takes it off the list if and only
   if it began by now, which every clock that does not run backwards grants, and leaves every other
   entry of that list as it was.
   */
  lemma LapseClearsAnomalyExactlyWhen(steps: seq<ShopStep>, lease: int, s: Settings, sub: int, now: int, other: int)
    requires Convergence.ExpireSubscription(ShopRun(steps, lease, s).world, sub, now)
    ensures var shop, w' := ShopRun(steps, lease, s), ShopRun(steps + [Pay(Payments.Lapses(sub, now))], lease, s).world;
      && 0 <= sub < |shop.books.access.subs|
      && (!Convergence.ExpireSubscription(w', sub, now) <==> shop.books.access.subs[sub].createdAt <= now)
      && (other != sub ==>
            (Convergence.ExpireSubscription(w', other, now) <==> Convergence.ExpireSubscription(shop.world, other, now)))
  {
    var step := Pay(Payments.Lapses(sub, now));
    var shop, shop' := ShopRun(steps, lease, s), ShopRun(steps + [step], lease, s);
    ShopRunInv(steps, lease, s);
    ShopRunInv(steps + [step], lease, s);
    ShopSnoc(steps, step, lease, s);
    BooksArePayments(steps, lease, s);
    PaymentSteps.LapsesExactlyWhen(PaymentsOf(steps), lease, sub, now);
    RunSnoc(PaymentsOf(steps), Payments.Lapses(sub, now), lease);
    assert shop'.books == Payments.Apply(shop.books, Payments.Lapses(sub, now), lease);
    hide ShopRun, Payments.Run, Payments.Apply, Next, ShopInv, Convergence.ExpireSubscription, PaymentSteps.Uncovered;
    ListedOnBooks(shop, sub, now);
    ListedOnBooks(shop', sub, now);
    ListedOnBooks(shop, other, now);
    ListedOnBooks(shop', other, now);
    UncoveredStays(shop.books.access, sub, other, now);
  }
}
