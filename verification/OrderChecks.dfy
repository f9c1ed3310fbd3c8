/** Why orders are not built: the checks of the order builder, told from what is recorded
    (src/constraint_scanner/trading/order_builder.py). */
module OrderChecks {
  import opened Common
  import opened Checks
  import opened Opportunities
  import opened RiskPolicy
  import opened OrderBuilder

  // ---------------------------------------------------------------- before the legs

  /** The cost the approved notional is compared with: the recorded gross cost if it is positive,
      else what the legs add up to. */
  ghost function OrderedCost(o: Opportunity): real {
    match o.details.pricing
    case Some(Pricing(_, Some(gross), _, _, _)) => if gross > 0.0 then gross else TotalNotional(LegsOf(o.details))
    case _ => 0.0
  }

  /** No gross cost is recorded, or one that is not positive while some leg has no notional. */
  ghost predicate CostMissing(o: Opportunity) {
    match o.details.pricing
    case Some(Pricing(_, Some(gross), _, _, _)) => gross <= 0.0 && exists leg :: leg in LegsOf(o.details) && leg.totalNotional == None
    case _ => true
  }

  /** The share of the cost that is approved, at most all of it. */
  ghost function ApprovedShare(o: Opportunity, decision: RiskDecision): real {
    match decision.maxSizeUsd
    case Some(size) => if size >= OrderedCost(o) then 1.0 else if OrderedCost(o) > 0.0 then size / OrderedCost(o) else 0.0
    case None => 0.0
  }

  ghost function SizingChecks(o: Opportunity, decision: RiskDecision): seq<Check<BuildError>> {
    [ Check(NotApproved, !decision.approved || decision.reason != Approved),
      Check(PricingMissing, o.details.pricing == None),
      Check(LegsMissing, |LegsOf(o.details)| == 0),
      Check(RunIdMissing, decision.simulationRunId == None || decision.simulationRunId == Some("")),
      Check(AmountMissing, CostMissing(o)),
      Check(GrossNotPositive, OrderedCost(o) <= 0.0),
      Check(SizeMissing, decision.maxSizeUsd == None),
      Check(ApprovedNotPositive, exists size :: decision.maxSizeUsd == Some(size) && size <= 0.0) ]
  }

  lemma {:induction false} CostInOrder(o: Opportunity)
    requires o.details.pricing.Some?
    ensures GrossCost(o.details.pricing.value) == if CostMissing(o) then Error(AmountMissing) else Ok(OrderedCost(o))
  {
    LacksExactly(LegsOf(o.details));
    hide LacksNotional, TotalNotional;
  }

  lemma LacksExactly(legs: seq<PricingLeg>)
    ensures LacksNotional(legs) <==> exists leg :: leg in legs && leg.totalNotional == None
  {
    if i :| 0 <= i < |legs| && legs[i].totalNotional.None? {
      assert legs[i] in legs;
    }
  }

  lemma {:induction false} SizingInOrder(o: Opportunity, decision: RiskDecision)
    ensures var sizing, code := Sizing(o, decision), FirstCode(SizingChecks(o, decision));
      && (sizing.Error? <==> code.Some?)
      && (sizing.Error? ==> sizing.error == code.value)
      && (sizing.Ok? ==> sizing.value.0 == OrderedCost(o) && sizing.value.2 == ApprovedShare(o, decision))
  {
    FirstOfEight(SizingChecks(o, decision));
    if o.details.pricing.Some? {
      CostInOrder(o);
    }
    hide FirstCode, GrossCost, CostMissing, OrderedCost;
    if decision.maxSizeUsd.Some? && OrderedCost(o) > 0.0 {
      ShareIsCapped(decision.maxSizeUsd.value, OrderedCost(o));
    }
  }

  lemma ShareIsCapped(size: real, cost: real)
    requires cost > 0.0
    ensures Min(1.0, Min(size, cost) / cost) == if size >= cost then 1.0 else size / cost
  {
  }

  // ---------------------------------------------------------------- leg by leg

  /** The leg asks for this quantity: its own request, or what was filled where none is recorded. */
  ghost predicate AsksFor(leg: PricingLeg, quantity: real) {
    leg.requestedQuantity == Some(quantity) || (leg.requestedQuantity == None && leg.filledQuantity == Some(quantity))
  }

  ghost predicate WholeUnits(amount: real, k: int) {
    k as real == amount * 100_000_000.0
  }

  /** Cut toward zero to whole units of 0.00000001. */
  ghost predicate CutsTo(amount: real, cut: real) {
    && (exists k: int :: WholeUnits(cut, k))
    && if amount >= 0.0 then cut <= amount < cut + 0.00000001 else cut - 0.00000001 < amount <= cut
  }

  ghost function LegChecks(leg: PricingLeg, scale: real): seq<Check<BuildError>> {
    [ Check(MarketMissing, leg.marketId == None),
      Check(PriceMissing, leg.averagePrice == None),
      Check(QuantityNotPositive, !exists q :: AsksFor(leg, q) && q > 0.0),
      Check(QuantityTooSmall, exists q :: AsksFor(leg, q) && Times(q, scale) < 0.00000001),
      Check(LegTooSmall, exists p, q, price, quantity ::
        leg.averagePrice == Some(p) && AsksFor(leg, q) && CutsTo(p, price) && CutsTo(Times(q, scale), quantity) && Times(price, quantity) < 0.01) ]
  }

  ghost function LegsChecks(legs: seq<PricingLeg>, scale: real): seq<Check<BuildError>> {
    if legs == [] then [] else LegsChecks(legs[..|legs| - 1], scale) + LegChecks(legs[|legs| - 1], scale)
  }

  lemma {:induction false} CutExactly(amount: real, cut: real)
    ensures CutsTo(amount, cut) <==> cut == RoundDown(amount)
  {
    RoundDownExactly(amount);
    hide RoundDown;
    var k: int :| IsQuanta(RoundDown(amount), k);
    assert WholeUnits(RoundDown(amount), k);
    if CutsTo(amount, cut) {
      OneCut(amount, cut, RoundDown(amount));
    }
  }

  lemma {:induction false} OneCut(amount: real, cut: real, other: real)
    requires CutsTo(amount, cut) && CutsTo(amount, other)
    ensures cut == other
  {
    var k: int :| WholeUnits(cut, k);
    var m: int :| WholeUnits(other, m);
    hide CutsTo, WholeUnits;
    CloseUnits(cut, other, k, m);
  }

  /** Two amounts in whole units less than one unit apart are equal. */
  lemma CloseUnits(a: real, b: real, k: int, m: int)
    requires WholeUnits(a, k) && WholeUnits(b, m) && -0.00000001 < a - b < 0.00000001
    ensures a == b
  {
    if k > m { FarUnits(a, b, k, m); }
    if m > k { FarUnits(b, a, m, k); }
  }

  lemma FarUnits(a: real, b: real, k: int, m: int)
    requires WholeUnits(a, k) && WholeUnits(b, m) && k > m
    ensures a - b >= 0.00000001
  {
    assert k as real >= m as real + 1.0;
  }

  lemma {:induction false} TooSmallExactly(amount: real)
    ensures RoundDown(amount) <= 0.0 <==> amount < QUANTUM
  {
    RoundDownExactly(amount);
    hide RoundDown;
    if RoundDown(amount) > 0.0 {
      var k: int :| IsQuanta(RoundDown(amount), k);
      assert k >= 1;
    }
  }

  lemma {:induction false} LegInOrder(hash: OrderHash, intent: Intent, leg: PricingLeg, index: nat, scale: real)
    ensures var r, code := LegRequest(hash, intent, leg, index, scale), FirstCode(LegChecks(leg, scale));
      (r.Error? <==> code.Some?) && (r.Error? ==> r.error == code.value)
  {
    FirstOfFive(LegChecks(leg, scale));
    QuantityExactly(leg);
    hide FirstCode, RoundDown, Times, AsksFor, CutsTo;
    if leg.averagePrice.Some? && LegQuantity(leg).Some? {
      var amount := Times(LegQuantity(leg).value, scale);
      assert AsksFor(leg, LegQuantity(leg).value);
      TooSmallExactly(amount);
      LegTooSmallExactly(leg, leg.averagePrice.value, amount, scale);
    }
  }

  lemma {:induction false} QuantityExactly(leg: PricingLeg)
    ensures forall q :: AsksFor(leg, q) <==> LegQuantity(leg) == Some(q)
  {
  }

  lemma {:induction false} LegTooSmallExactly(leg: PricingLeg, p: real, amount: real, scale: real)
    requires leg.averagePrice == Some(p) && LegQuantity(leg).Some? && amount == Times(LegQuantity(leg).value, scale)
    ensures LegChecks(leg, scale)[4].fails <==> Times(RoundDown(p), RoundDown(amount)) < MIN_LEG_NOTIONAL
  {
    QuantityExactly(leg);
    CutExactly(p, RoundDown(p));
    CutExactly(amount, RoundDown(amount));
    forall price, quantity | CutsTo(p, price) && CutsTo(amount, quantity) ensures price == RoundDown(p) && quantity == RoundDown(amount) {
      CutExactly(p, price);
      CutExactly(amount, quantity);
    }
    hide RoundDown, Times, AsksFor, CutsTo;
    assert AsksFor(leg, LegQuantity(leg).value);
  }

  lemma {:induction false} LegsInOrder(hash: OrderHash, intent: Intent, legs: seq<PricingLeg>, scale: real)
    ensures var r, code := LegRequests(hash, intent, legs, scale), FirstCode(LegsChecks(legs, scale));
      (r.Error? <==> code.Some?) && (r.Error? ==> r.error == code.value)
  {
    hide LegRequest, LegChecks;
    if legs != [] {
      var n := |legs| - 1;
      LegsInOrder(hash, intent, legs[..n], scale);
      LegInOrder(hash, intent, legs[n], |legs|, scale);
      FirstCodeJoins(LegsChecks(legs[..n], scale), LegChecks(legs[n], scale));
    }
  }

  // ---------------------------------------------------------------- the whole build

  /** Orders are built exactly when no check fails, and otherwise the build stops with the code of the
      first that does: the approval and the cost first, then every leg in turn, at the approved share. */
  lemma {:induction false} FirstFailingCheckStops(hash: OrderHash, o: Opportunity, decision: RiskDecision, mode: TradingMode, at: Instant)
    ensures var r := BuildOrders(hash, o, decision, mode, at);
      var checks := SizingChecks(o, decision) + LegsChecks(LegsOf(o.details), ApprovedShare(o, decision));
      && (r.Ok? <==> !SomeFails(checks))
      && (forall i: nat :: FirstFails(checks, i) ==> r == Error(checks[i].code))
      && (r.Ok? ==> r.value.gross == OrderedCost(o) && r.value.scale == ApprovedShare(o, decision))
  {
    var sizing, legs := SizingChecks(o, decision), LegsChecks(LegsOf(o.details), ApprovedShare(o, decision));
    SizingInOrder(o, decision);
    LegsInOrder(hash, IntentOf(o, decision, mode, at), LegsOf(o.details), ApprovedShare(o, decision));
    FirstCodeJoins(sizing, legs);
    FirstCodeIsFirst(sizing + legs);
    BasketMinimumIsImplied(hash, o, decision, mode, at);
    hide Sizing, LegRequests, Notional, FirstCode, SomeFails, FirstFails, SizingChecks, LegsChecks, OrderedCost, ApprovedShare, IntentOf;
  }
}
