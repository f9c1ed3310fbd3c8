/** What survives order building for baskets the detectors priced. */
module OrderGuarantees {
  import opened Common
  import opened ExecutablePricing
  import opened BasketPricing
  import opened Templates
  import opened Opportunities
  import opened Detection
  import opened SimulationStore
  import opened Exposure
  import opened RiskPolicy
  import opened OrderBuilder

  function BasketSize(details: Details): real {
    if details.pricing.Some? then OrZero(details.pricing.value.basketQuantity) else 0.0
  }

  /** The basket quantity of the orders: the approved share of the detected one, rounded down. */
  function OrderedQuantity(details: Details, scale: real): real {
    RoundDown(Times(BasketSize(details), scale))
  }

  lemma {:induction false} EqualRequests(legs: seq<PricingLeg>, scale: real, requests: seq<OrderRequest>, quantity: real, s: real)
    requires |requests| == |legs| && s > 0.0
    requires forall i :: 0 <= i < |legs| ==>
      DetectorLeg(legs[i], quantity) && RoundedLeg(legs[i], scale, requests[i]) && requests[i].quantity == s
    ensures Notional(requests) <= Times(PriceTotal(legs), s)
    ensures ScaledCost(legs, scale) == Times(TotalNotional(legs), scale)
    ensures QuantityTotal(requests) == Times(|legs| as real, s)
  {
    hide Times;
    if legs == [] {
      TimesZero(s);
      TimesZero(scale);
    } else {
      var n := |legs| - 1;
      var leg, request := legs[n], requests[n];
      assert DetectorLeg(leg, quantity) && RoundedLeg(leg, scale, request) && request.quantity == s;
      EqualRequests(legs[..n], scale, requests[..n], quantity, s);
      TimesMonotone(request.price, leg.averagePrice.value, s);
      TimesAdds(s, PriceTotal(legs[..n]), leg.averagePrice.value);
      TimesAdds(s, n as real, 1.0);
      TimesOne(s);
      TimesAdds(scale, TotalNotional(legs[..n]), leg.totalNotional.value);
      TimesAssociates(leg.averagePrice.value, quantity, scale);
    }
  }

  /** Orders built from detector-produced pricing, for any approval: every leg is bought in one
      common positive quantity; the rounded total stays within the approved notional and falls
      short of it by less than one quantum per unit of price and of quantity; and one dollar per
      basket exceeds the total by at least the detected profit rate. */
  lemma {:induction false} DetectorOrders(hash: OrderHash, o: Opportunity, decision: RiskDecision, mode: TradingMode, at: Instant)
    requires DetectorPricing(o.details) && BuildOrders(hash, o, decision, mode, at).Ok?
    ensures var b := BuildOrders(hash, o, decision, mode, at).value;
      var legs := LegsOf(o.details);
      var s := OrderedQuantity(o.details, b.scale);
      && s > 0.0
      && |b.requests| == |legs|
      && (forall i :: 0 <= i < |legs| ==>
            b.requests[i].side == Buy && b.requests[i].quantity == s && b.requests[i].tokenId == legs[i].tokenId)
      && b.gross == UnresolvedNotional(o)
      && b.roundedTotal <= b.approved <= Min(decision.maxSizeUsd.value, UnresolvedNotional(o))
      && b.approved < b.roundedTotal + Times(QUANTUM, PriceTotal(legs) + Times(|legs| as real, s))
      && s - b.roundedTotal >= Times(1.0 - PriceTotal(legs), s) > 0.0
  {
    hide Times, RoundDown, RoundedLeg, BuildOrders, Notional, ScaledCost, PriceTotal, TotalNotional, LegRequest, DetectorLeg;
    BuiltOrders(hash, o, decision, mode, at);
    var b := BuildOrders(hash, o, decision, mode, at).value;
    var legs, quantity := LegsOf(o.details), BasketSize(o.details);
    var s := OrderedQuantity(o.details, b.scale);
    GrossIsUnresolved(hash, o, decision, mode, at);
    forall i | 0 <= i < |legs| ensures b.requests[i].quantity == s && b.requests[i].side == Buy {
      assert DetectorLeg(legs[i], quantity) && RoundedLeg(legs[i], b.scale, b.requests[i]);
      RequestQuantity(hash, o, decision, mode, at, i);
    }
    assert s > 0.0 by { assert RoundedLeg(legs[0], b.scale, b.requests[0]); PositiveRequest(legs[0], b.scale, b.requests[0]); }
    EqualRequests(legs, b.scale, b.requests, quantity, s);
    forall i | 0 <= i < |legs| ensures b.requests[i].tokenId == legs[i].tokenId {
      PositiveRequest(legs[i], b.scale, b.requests[i]);
    }
    TimesAdds(s, 1.0 - PriceTotal(legs), PriceTotal(legs));
    TimesOne(s);
    TimesSign(1.0 - PriceTotal(legs), s);
  }

  lemma PositiveRequest(leg: PricingLeg, scale: real, request: OrderRequest)
    requires RoundedLeg(leg, scale, request)
    ensures request.quantity > 0.0 && request.tokenId == leg.tokenId
  {
  }

  lemma GrossIsUnresolved(hash: OrderHash, o: Opportunity, decision: RiskDecision, mode: TradingMode, at: Instant)
    requires DetectorPricing(o.details) && BuildOrders(hash, o, decision, mode, at).Ok?
    ensures BuildOrders(hash, o, decision, mode, at).value.gross == UnresolvedNotional(o) == TotalNotional(LegsOf(o.details))
  {
    hide LegRequests, Notional, DetectorLeg, PriceTotal, Times;
  }

  lemma RequestQuantity(hash: OrderHash, o: Opportunity, decision: RiskDecision, mode: TradingMode, at: Instant, i: nat)
    requires DetectorPricing(o.details) && BuildOrders(hash, o, decision, mode, at).Ok? && i < |LegsOf(o.details)|
    ensures var b := BuildOrders(hash, o, decision, mode, at).value;
      |b.requests| == |LegsOf(o.details)| && b.requests[i].quantity == OrderedQuantity(o.details, b.scale) && b.requests[i].side == Buy
  {
    hide LegRequests, Notional, PriceTotal, TotalNotional, RoundedLeg, Times, RoundDown, Sizing, GrossCost;
    var b := BuildOrders(hash, o, decision, mode, at).value;
    RequestsByLeg(hash, IntentOf(o, decision, mode, at), LegsOf(o.details), b.scale);
    assert DetectorLeg(LegsOf(o.details)[i], BasketSize(o.details));
  }

  // ---------------------------------------------------------------- profit in every state

  /** What the ordered tokens pay in one state. */
  function RequestPayout(requests: seq<OrderRequest>, state: State): real {
    if requests == [] then 0.0
    else
      var last := requests[|requests| - 1];
      RequestPayout(requests[..|requests| - 1], state) + Times(GetOrZero(state, last.tokenId), last.quantity)
  }

  lemma {:induction false} PayoutOfEqualRequests(members: seq<Member>, requests: seq<OrderRequest>, state: State, s: real)
    requires |members| == |requests|
    requires forall i :: 0 <= i < |members| ==> requests[i].tokenId == members[i].tokenId && requests[i].quantity == s
    ensures RequestPayout(requests, state) == Times(MemberTotal(members, state), s)
  {
    hide Times;
    if members == [] {
      TimesZero(s);
    } else {
      var n := |members| - 1;
      PayoutOfEqualRequests(members[..n], requests[..n], state, s);
      TimesAdds(s, MemberTotal(members[..n], state), GetOrZero(state, members[n].tokenId));
    }
  }

  lemma FindingLegsAreMembers(hash: KeyHash, settings: Settings, context: Context, books: Books, confidence: real)
    requires DetectCombinatorial(hash, settings, context, books, confidence).Found?
    ensures var legs := LegsOf(DetectCombinatorial(hash, settings, context, books, confidence).finding.details);
      |legs| == |context.members| && forall i :: 0 <= i < |legs| ==> legs[i].tokenId == context.members[i].tokenId
  {
    hide Times, MaxBasketQuantity, BasketCost, Evaluate, AllFullyFilled;
  }

  /** Guaranteed profit survives scaling and rounding: whatever an approval grants of a finding,
      if orders are built at all, then in every state of the constraint the ordered tokens pay
      the common quantity, which exceeds the orders' total by at least the quantity times the
      finding's profit per basket. */
  lemma {:induction false} OrdersProfitInEveryState(keys: KeyHash, settings: Settings, context: Context, books: Books, confidence: real,
                                 hash: OrderHash, o: Opportunity, decision: RiskDecision, mode: TradingMode, at: Instant)
    requires DetectCombinatorial(keys, settings, context, books, confidence).Found?
    requires o.details.pricing == DetectCombinatorial(keys, settings, context, books, confidence).finding.details.pricing
    requires o.details.grossPayoffs == DetectCombinatorial(keys, settings, context, books, confidence).finding.details.grossPayoffs
    requires BuildOrders(hash, o, decision, mode, at).Ok?
    ensures var f := DetectCombinatorial(keys, settings, context, books, confidence).finding;
      var b := BuildOrders(hash, o, decision, mode, at).value;
      var s := OrderedQuantity(o.details, b.scale);
      forall state :: state in f.states ==>
        && RequestPayout(b.requests, state) == s
        && RequestPayout(b.requests, state) - b.roundedTotal >= Times(f.expectedValueUsd / BasketSize(f.details), s) > 0.0
  {
    hide Times, DetectCombinatorial, BuildOrders, OrderedQuantity, MemberTotal, PriceTotal, TotalNotional, DetectorPricing, DetectorLeg, StatePayout;
    FindingIsArbitrage(keys, settings, context, books, confidence);
    FindingLegsAreMembers(keys, settings, context, books, confidence);
    ValidWhenFound(keys, settings, context, books, confidence);
    var f := DetectCombinatorial(keys, settings, context, books, confidence).finding;
    SamePricing(f.details, o.details);
    DetectorOrders(hash, o, decision, mode, at);
    var b := BuildOrders(hash, o, decision, mode, at).value;
    var s := OrderedQuantity(o.details, b.scale);
    RateOfQuantity(1.0 - PriceTotal(LegsOf(f.details)), BasketSize(f.details));
    forall state | state in f.states ensures RequestPayout(b.requests, state) == s {
      EveryStatePaysOrders(context, b.requests, state, s);
    }
  }

  lemma SamePricing(a: Details, b: Details)
    requires DetectorPricing(a) && b.pricing == a.pricing && b.grossPayoffs == a.grossPayoffs
    ensures DetectorPricing(b) && LegsOf(b) == LegsOf(a) && BasketSize(b) == BasketSize(a) > 0.0
    ensures a.pricing.Some? && a.pricing.value.legs.Some? && a.pricing.value.basketQuantity.Some?
  {
  }

  /** One unit of every member's token pays one dollar per unit in every state. */
  lemma EveryStatePaysOrders(context: Context, requests: seq<OrderRequest>, state: State, s: real)
    requires Valid(context) && state in States(context)
    requires |requests| == |context.members|
    requires forall i :: 0 <= i < |requests| ==> requests[i].tokenId == context.members[i].tokenId && requests[i].quantity == s
    ensures RequestPayout(requests, state) == s
  {
    hide MemberTotal, RequestPayout, Valid, Times, WinnerTakesAll;
    var k :| 0 <= k < |States(context)| && States(context)[k] == state;
    EachStatePaysOneToken(context, k);
    PayoutOfEqualRequests(context.members, requests, state, s);
    TimesOne(s);
  }

  lemma ValidWhenFound(hash: KeyHash, settings: Settings, context: Context, books: Books, confidence: real)
    requires DetectCombinatorial(hash, settings, context, books, confidence).Found?
    ensures Valid(context)
  {
  }

  lemma RateOfQuantity(rate: real, quantity: real)
    requires quantity > 0.0
    ensures Times(rate, quantity) / quantity == rate
  {
  }

  // ---------------------------------------------------------------- the policy's own approvals

  /** Every leg clears the minimum leg notional after rounding at full size. */
  ghost predicate MeaningfulLegs(legs: seq<PricingLeg>, quantity: real) {
    forall i :: 0 <= i < |legs| ==> Times(RoundDown(OrZero(legs[i].averagePrice)), RoundDown(quantity)) >= MIN_LEG_NOTIONAL
  }

  /** An approval of the risk gate is never scaled: detector-priced opportunities are ordered at
      their full gross cost, and orders are built exactly when the approved run id is not empty,
      the basket quantity is at least one quantum and every leg clears the minimum notional. */
  lemma {:induction false} PolicyApprovalsBuildExactly(settings: RiskSettings, controls: Controls, simulation: Option<SimulatedExecution>,
                                    current: ExposureState, hash: OrderHash, o: Opportunity, mode: TradingMode, at: Instant)
    requires DetectorPricing(o.details)
    requires EvaluateRisk(settings, controls, o, simulation, current, at).approved
    ensures var d := EvaluateRisk(settings, controls, o, simulation, current, at);
      var r := BuildOrders(hash, o, d, mode, at);
      && (r.Ok? ==> r.value.scale == 1.0 && r.value.approved == UnresolvedNotional(o))
      && (r.Ok? <==> d.simulationRunId.value != "" && RoundDown(BasketSize(o.details)) > 0.0
                     && MeaningfulLegs(LegsOf(o.details), BasketSize(o.details)))
  {
    hide Times, RoundDown, EvaluateRisk, Notional, TotalNotional, PriceTotal, LegRequests;
    var d := EvaluateRisk(settings, controls, o, simulation, current, at);
    ApprovedAtFullSize(settings, controls, o, simulation, current, at);
    ScaleReachesApproved(UnresolvedNotional(o), UnresolvedNotional(o));
    BasketMinimumIsImplied(hash, o, d, mode, at);
    if d.simulationRunId.value != "" {
      assert Sizing(o, d) == Ok((UnresolvedNotional(o), UnresolvedNotional(o), 1.0));
      FullSizeRequests(hash, IntentOf(o, d, mode, at), LegsOf(o.details), BasketSize(o.details));
    }
  }

  lemma {:induction false} FullSizeRequests(hash: OrderHash, intent: Intent, legs: seq<PricingLeg>, quantity: real)
    requires quantity > 0.0 && forall i :: 0 <= i < |legs| ==> DetectorLeg(legs[i], quantity)
    ensures LegRequests(hash, intent, legs, 1.0).Ok? <==> (legs == [] || RoundDown(quantity) > 0.0) && MeaningfulLegs(legs, quantity)
  {
    hide Times, RoundDown;
    TimesOne(quantity);
    if legs != [] {
      var n := |legs| - 1;
      assert DetectorLeg(legs[n], quantity);
      FullSizeRequests(hash, intent, legs[..n], quantity);
    }
  }
}
