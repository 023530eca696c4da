/**
 A run of payments and control plane together that activates access for a subscription which a
 change of tariff has ended.
 */
module ShopWitnesses {
  import opened Common
  import opened SubscriptionEntity
  import opened SubscriptionAccess
  import opened Transactions
  import opened ControlPlane
  import opened ControlPlaneSafety
  import opened ControlPlaneWitnesses
  import Payments
  import PaymentSafety
  import PaymentTheorems
  import opened PaymentWitnesses
  import opened Shop

  /** A payment changes the books, and no configuration. */
  lemma PaySnoc(steps: seq<ShopStep>, payment: Payments.PaymentStep, lease: int, s: Settings)
    ensures var shop, shop' := ShopRun(steps, lease, s), ShopRun(steps + [Pay(payment)], lease, s);
      && shop'.books == Payments.Apply(shop.books, payment, lease)
      && shop'.world.configs == shop.world.configs && shop'.world.fleet == shop.world.fleet
  {
    ShopSnoc(steps, Pay(payment), lease, s);
    hide ShopRun, Payments.Apply, PaymentTheorems.Entitlements;
  }

  /** A run of payments alone is a run of the shop. */
  lemma {:induction false} PaymentsOnly(payments: seq<Payments.PaymentStep>, lease: int, s: Settings) returns (steps: seq<ShopStep>)
    requires AtStart(payments)
    ensures PaidBy(steps, 0)
    ensures var shop := ShopRun(steps, lease, s);
      shop.books == Payments.Run(payments, lease) && shop.world.configs == [] && shop.world.fleet == EMPTY.fleet
  {
    hide Payments.Apply, Next, PaymentTheorems.At;
    steps := [];
    if payments != [] {
      var n := |payments| - 1;
      var p := PaymentsOnly(payments[..n], lease, s);
      PaySnoc(p, payments[n], lease, s);
      steps := p + [Pay(payments[n])];
    }
  }

  /** What the control plane sees of the subscription that was bought first. */
  lemma BuyerSees(shop: Shop)
    requires ShopInv(shop) && |shop.books.access.subs| > 0 && |shop.books.access.periods| > 0
    requires shop.books.access.periods[0] == FIRST_PERIOD
    ensures 0 in shop.world.subs && SubFunded(shop.world, 0, 0)
    ensures shop.world.subs[0].active <==> shop.books.access.subs[0].status == SubActive
  {
    var a := shop.books.access;
    assert a.periods[0].sub == 0 && Contains(a.periods[0], 0);
    assert HasCurrent(a, 0, 0);
    PaymentTheorems.SameFunding(a, 0, 0);
    hide HasCurrent, PaymentSafety.BooksInv, Inv, Funded;
  }

  lemma OperateSnoc(steps: seq<ShopStep>, step: Step, lease: int, s: Settings)
    requires !step.EntitlementsChange?
    ensures var shop := ShopRun(steps, lease, s);
      ShopRun(steps + [Operate(step)], lease, s) == shop.(world := Apply(shop.world, step, s))
  {
    ShopSnoc(steps, Operate(step), lease, s);
    hide ShopRun, Apply;
  }

  lemma PaidByMore(steps: seq<ShopStep>, step: Step)
    requires PaidBy(steps, 0)
    ensures PaidBy(steps + [Operate(step)], 0)
  {
    hide PaymentTheorems.At;
  }

  /** The buyer's first configuration is requested. */
  lemma BuyerRequests(onNode: bool, s: Settings) returns (steps: seq<ShopStep>)
    ensures PaidBy(steps, 0)
    ensures var shop := ShopRun(steps, 30, s); shop.books == ONE_PAID && shop.world.configs == [FirstConfig(0, onNode, s)]
  {
    var payments := OnePaidIsReachable();
    var s0 := PaymentsOnly(payments, 30, s);
    hide ShopRun, Payments.Run, PaidBy, FirstConfig;
    var fleet, request := FleetChange(FleetOf(onNode)), FirstRequest(0, onNode);
    OperateSnoc(s0, fleet, 30, s);
    PaidByMore(s0, fleet);
    var s1 := s0 + [Operate(fleet)];
    ShopRunInv(s1, 30, s);
    BuyerSees(ShopRun(s1, 30, s));
    hide ShopInv, Funded;
    RequestCreates(ShopRun(s1, 30, s).world, 0, onNode, s);
    hide Apply;
    OperateSnoc(s1, request, 30, s);
    PaidByMore(s1, request);
    steps := s1 + [Operate(request)];
  }

  /** And dispatched. */
  lemma BuyerInFlight(onNode: bool, s: Settings) returns (steps: seq<ShopStep>)
    ensures PaidBy(steps, 0)
    ensures var shop := ShopRun(steps, 30, s);
      && shop.books == ONE_PAID && |shop.world.configs| == 1
      && shop.world.configs[0].subscription == 0 && InFlight(shop.world.configs[0], onNode)
  {
    var s0 := BuyerRequests(onNode, s);
    hide ShopRun, PaidBy, FirstConfig, Perform, InFlight, SubFunded;
    var dispatch := WorkerCommits(0, FirstDispatch(onNode), 0);
    var w := ShopRun(s0, 30, s).world;
    FirstDispatched(0, onNode, SubFunded(w, w.configs[0].subscription, 0), s);
    OperateSnoc(s0, dispatch, 30, s);
    PaidByMore(s0, dispatch);
    steps := s0 + [Operate(dispatch)];
  }

  lemma FirstPeriodStays()
    ensures var a := Payments.AdminSettle(SWITCH_PREPARED, 1, 0).access;
      |a.subs| > 0 && |a.periods| > 0 && a.periods[0] == FIRST_PERIOD
  {
    assert ActiveOf(SWITCH_PREPARED.access.subs, 1) == Some(0);
  }

  /** The buyer then pays for another tariff, and the first subscription ends with its time still funded. */
  lemma BuyerSwitches(onNode: bool, s: Settings) returns (steps: seq<ShopStep>)
    ensures PaidBy(steps, 0) && StrandedBy(steps, |steps| - 1, 30, s, 0)
    ensures var shop := ShopRun(steps, 30, s);
      && |shop.world.configs| == 1 && shop.world.configs[0].subscription == 0 && InFlight(shop.world.configs[0], onNode)
      && |shop.books.access.subs| > 0 && |shop.books.access.periods| > 0 && shop.books.access.periods[0] == FIRST_PERIOD
  {
    var s0 := BuyerInFlight(onNode, s);
    OtherTariffPrepared();
    SwitchIsReady();
    FirstPeriodStays();
    hide ShopRun, InFlight, PaymentTheorems.SwitchesTariff, Payments.PrepareOrder, Payments.AdminSettle;
    PaySnoc(s0, Payments.Prepares(OTHER_TARIFF, 0, 8), 30, s);
    var s1 := s0 + [Pay(Payments.Prepares(OTHER_TARIFF, 0, 8))];
    var settle := Payments.Settles(1, 0);
    PaySnoc(s1, settle, 30, s);
    steps := s1 + [Pay(settle)];
    assert steps[..|steps| - 1] == s1 && ShopRun(s1, 30, s).books == SWITCH_PREPARED;
  }

  /** The late success activates for the ended subscription, on either path. */
  lemma ActivationForEndedSubscription(onNode: bool, s: Settings) returns (steps: seq<ShopStep>, step: ShopStep)
    ensures step.Operate? && Activates(ShopRun(steps, 30, s).world, step.step, 0) && WasStranded(steps, 30, s, 0)
    ensures var w, w' := ShopRun(steps, 30, s).world, ShopRun(steps + [step], 30, s).world;
      TurnsActive(w, w', 0) && OfEnded(w', 0)
  {
    steps := BuyerSwitches(onNode, s);
    step := Operate(WorkerCommits(0, FirstSuccess(onNode), 0));
    ShopRunInv(steps, 30, s);
    hide ShopRun, ShopInv, InFlight, StrandedBy, PaidBy;
    BuyerSees(ShopRun(steps, 30, s));
    hide SubFunded, Activates, TurnsActive, OfEnded;
    SuccessActivates(ShopRun(steps, 30, s).world, onNode);
    EndedActivationExactlyWhen(steps, step, 30, s, 0);
  }
}
