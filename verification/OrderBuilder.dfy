/** Order intents for one approved opportunity
    (src/constraint_scanner/trading/order_builder.py). */
module OrderBuilder {
  import opened Common
  import opened Opportunities
  import opened RiskPolicy

  const QUANTA_PER_UNIT: real := 100_000_000.0
  const QUANTUM: real := 0.00000001
  const MIN_LEG_NOTIONAL: real := 0.01
  const MIN_BASKET_NOTIONAL: real := 0.01

  datatype OrderIdInput = OrderIdInput(
    mode: TradingMode, opportunityId: int, runId: string, tokenId: int, index: nat, submittedAt: Instant)

  /** The hash behind client order ids, an unknown function of what it hashes. */
  type OrderHash = OrderIdInput -> string

  datatype OrderRequest = OrderRequest(
    clientOrderId: string, marketId: int, tokenId: int, side: Side, price: real, quantity: real, mode: TradingMode)

  datatype BuildError =
    | NotApproved | PricingMissing | LegsMissing | RunIdMissing | AmountMissing | GrossNotPositive | SizeMissing
    | ApprovedNotPositive | MarketMissing | PriceMissing | QuantityNotPositive | QuantityTooSmall | LegTooSmall | BasketTooSmall

  datatype Result<T> = Ok(value: T) | Error(error: BuildError)

  datatype Orders = Orders(
    requests: seq<OrderRequest>, simulationRunId: string, gross: real, approved: real, scale: real, roundedTotal: real)

  /** What all orders of one attempt share. */
  datatype Intent = Intent(mode: TradingMode, opportunityId: int, runId: string, submittedAt: Instant)

  function Truncate(x: real): int {
    if x >= 0.0 then x.Floor else -(-x).Floor
  }

  /** `quantize` with ROUND_DOWN: truncation toward zero to whole quanta. */
  function RoundDown(amount: real): real {
    Truncate(amount * QUANTA_PER_UNIT) as real / QUANTA_PER_UNIT
  }

  predicate LacksNotional(legs: seq<PricingLeg>) {
    exists i :: 0 <= i < |legs| && legs[i].totalNotional.None?
  }

  function GrossCost(pricing: Pricing): Result<real> {
    var legs := if pricing.legs.Some? then pricing.legs.value else [];
    if pricing.grossBuyCost.None? then Error(AmountMissing)
    else if pricing.grossBuyCost.value > 0.0 then Ok(pricing.grossBuyCost.value)
    else if LacksNotional(legs) then Error(AmountMissing)
    else Ok(TotalNotional(legs))
  }

  /** The quantity a leg asks for; the filled quantity stands in where it is absent. */
  function LegQuantity(leg: PricingLeg): Option<real> {
    if leg.requestedQuantity.Some? then leg.requestedQuantity else leg.filledQuantity
  }

  function LegRequest(hash: OrderHash, intent: Intent, leg: PricingLeg, index: nat, scale: real): Result<OrderRequest> {
    if leg.marketId.None? then Error(MarketMissing)
    else if leg.averagePrice.None? then Error(PriceMissing)
    else if OrZero(LegQuantity(leg)) <= 0.0 then Error(QuantityNotPositive)
    else
      var quantity := RoundDown(Times(LegQuantity(leg).value, scale));
      if quantity <= 0.0 then Error(QuantityTooSmall)
      else
        var price := RoundDown(leg.averagePrice.value);
        if Times(price, quantity) < MIN_LEG_NOTIONAL then Error(LegTooSmall)
        else
          var id := hash(OrderIdInput(intent.mode, intent.opportunityId, intent.runId, leg.tokenId, index, intent.submittedAt));
          Ok(OrderRequest(id, leg.marketId.value, leg.tokenId, leg.side, price, quantity, intent.mode))
  }

  /** One request per leg, numbered from one; the first leg that cannot be ordered fails them all. */
  function LegRequests(hash: OrderHash, intent: Intent, legs: seq<PricingLeg>, scale: real): Result<seq<OrderRequest>> {
    if legs == [] then Ok([])
    else
      var init := LegRequests(hash, intent, legs[..|legs| - 1], scale);
      if init.Error? then init
      else
        var last := LegRequest(hash, intent, legs[|legs| - 1], |legs|, scale);
        if last.Error? then Error(last.error) else Ok(init.value + [last.value])
  }

  function Notional(requests: seq<OrderRequest>): real {
    if requests == [] then 0.0
    else Notional(requests[..|requests| - 1]) + Times(requests[|requests| - 1].price, requests[|requests| - 1].quantity)
  }

  /** What is settled before the legs are looked at: gross cost, approved notional and scale. */
  function Sizing(o: Opportunity, decision: RiskDecision): (r: Result<(real, real, real)>)
    ensures r.Ok? ==> r.value.0 > 0.0 && r.value.1 > 0.0 && LegsOf(o.details) != [] && decision.simulationRunId.Some?
  {
    if !decision.IsApproval() then Error(NotApproved)
    else if o.details.pricing.None? then Error(PricingMissing)
    else if LegsOf(o.details) == [] then Error(LegsMissing)
    else if decision.simulationRunId.None? || decision.simulationRunId.value == "" then Error(RunIdMissing)
    else
      var gross := GrossCost(o.details.pricing.value);
      if gross.Error? then Error(gross.error)
      else if gross.value <= 0.0 then Error(GrossNotPositive)
      else if decision.maxSizeUsd.None? then Error(SizeMissing)
      else
        var approved := Min(decision.maxSizeUsd.value, gross.value);
        if approved <= 0.0 then Error(ApprovedNotPositive)
        else Ok((gross.value, approved, Min(1.0, approved / gross.value)))
  }

  function IntentOf(o: Opportunity, decision: RiskDecision, mode: TradingMode, at: Instant): Intent {
    Intent(mode, o.id, if decision.simulationRunId.Some? then decision.simulationRunId.value else "", at)
  }

  function BuildOrders(hash: OrderHash, o: Opportunity, decision: RiskDecision, mode: TradingMode, at: Instant): Result<Orders> {
    var sizing := Sizing(o, decision);
    if sizing.Error? then Error(sizing.error)
    else
      var (gross, approved, scale) := sizing.value;
      var requests := LegRequests(hash, IntentOf(o, decision, mode, at), LegsOf(o.details), scale);
      if requests.Error? then Error(requests.error)
      else if Notional(requests.value) < MIN_BASKET_NOTIONAL then Error(BasketTooSmall)
      else Ok(Orders(requests.value, decision.simulationRunId.value, gross, approved, scale, Notional(requests.value)))
  }

  lemma {:induction false} FirstErrorWins(hash: OrderHash, intent: Intent, legs: seq<PricingLeg>, n: nat, scale: real)
    requires n <= |legs| && LegRequests(hash, intent, legs[..n], scale).Error?
    ensures LegRequests(hash, intent, legs, scale) == LegRequests(hash, intent, legs[..n], scale)
  {
    if n == |legs| {
      assert legs[..n] == legs;
    } else {
      var init := legs[..|legs| - 1];
      assert init[..n] == legs[..n];
      FirstErrorWins(hash, intent, init, n, scale);
    }
  }

  method BuildOrderRequests(hash: OrderHash, o: Opportunity, decision: RiskDecision, mode: TradingMode, at: Instant)
    returns (r: Result<Orders>)
    ensures r == BuildOrders(hash, o, decision, mode, at)
  {
    hide Times, LegRequest, Sizing, IntentOf;
    var sizing := Sizing(o, decision);
    if sizing.Error? {
      return Error(sizing.error);
    }
    var (gross, approved, scale) := sizing.value;
    var legs, intent := LegsOf(o.details), IntentOf(o, decision, mode, at);
    var requests: seq<OrderRequest>, total := [], 0.0;
    for i := 0 to |legs|
      invariant LegRequests(hash, intent, legs[..i], scale) == Ok(requests)
      invariant total == Notional(requests)
    {
      assert legs[..i + 1][..i] == legs[..i];
      var request := LegRequest(hash, intent, legs[i], i + 1, scale);
      if request.Error? {
        FirstErrorWins(hash, intent, legs, i + 1, scale);
        return Error(request.error);
      }
      assert (requests + [request.value])[..|requests|] == requests;
      requests := requests + [request.value];
      total := total + Times(request.value.price, request.value.quantity);
    }
    assert legs[..|legs|] == legs;
    if total < MIN_BASKET_NOTIONAL {
      return Error(BasketTooSmall);
    }
    r := Ok(Orders(requests, decision.simulationRunId.value, gross, approved, scale, total));
  }

  // ---------------------------------------------------------------- rounding

  predicate IsQuanta(amount: real, k: int) {
    amount * QUANTA_PER_UNIT == k as real
  }

  /** A multiple of the quantum. */
  ghost predicate OnGrid(amount: real) {
    exists k: int :: IsQuanta(amount, k)
  }

  lemma TruncateBounds(x: real)
    ensures x >= 0.0 ==> 0.0 <= Truncate(x) as real <= x < Truncate(x) as real + 1.0
    ensures x <= 0.0 ==> Truncate(x) as real - 1.0 < x <= Truncate(x) as real <= 0.0
    ensures x == x.Floor as real ==> Truncate(x) == x.Floor
  {
  }

  /** Rounding down stays on the grid and on its side of zero, loses less than one quantum and
      keeps what is on the grid already. */
  lemma {:induction false} RoundDownExactly(amount: real)
    ensures OnGrid(RoundDown(amount))
    ensures amount >= 0.0 ==> 0.0 <= RoundDown(amount) <= amount < RoundDown(amount) + QUANTUM
    ensures amount <= 0.0 ==> RoundDown(amount) - QUANTUM < amount <= RoundDown(amount) <= 0.0
    ensures OnGrid(amount) ==> RoundDown(amount) == amount
  {
    TruncateBounds(amount * QUANTA_PER_UNIT);
    assert IsQuanta(RoundDown(amount), Truncate(amount * QUANTA_PER_UNIT));
    hide Truncate;
    if OnGrid(amount) {
      var k: int :| IsQuanta(amount, k);
      assert (amount * QUANTA_PER_UNIT).Floor == k;
    }
  }

  /** The request a leg turns into: its tokens, and amounts just below the exact ones. */
  ghost predicate RoundedLeg(leg: PricingLeg, scale: real, request: OrderRequest) {
    && leg.averagePrice.Some? && LegQuantity(leg).Some? && LegQuantity(leg).value > 0.0
    && request.tokenId == leg.tokenId && Some(request.marketId) == leg.marketId && request.side == leg.side
    && 0.0 < request.price <= leg.averagePrice.value < request.price + QUANTUM
    && 0.0 < request.quantity <= Times(LegQuantity(leg).value, scale) < request.quantity + QUANTUM
    && Times(request.price, request.quantity) >= MIN_LEG_NOTIONAL
  }

  lemma LegIsRounded(hash: OrderHash, intent: Intent, leg: PricingLeg, index: nat, scale: real)
    requires LegRequest(hash, intent, leg, index, scale).Ok?
    ensures RoundedLeg(leg, scale, LegRequest(hash, intent, leg, index, scale).value)
  {
    hide Times, RoundDown;
    var request := LegRequest(hash, intent, leg, index, scale).value;
    RoundDownExactly(leg.averagePrice.value);
    RoundDownExactly(Times(LegQuantity(leg).value, scale));
    PositiveFactor(request.price, request.quantity);
  }

  lemma PositiveFactor(price: real, quantity: real)
    requires quantity > 0.0 && Times(price, quantity) >= MIN_LEG_NOTIONAL
    ensures price > 0.0
  {
  }

  lemma {:induction false} RequestsByLeg(hash: OrderHash, intent: Intent, legs: seq<PricingLeg>, scale: real)
    requires LegRequests(hash, intent, legs, scale).Ok?
    ensures var requests := LegRequests(hash, intent, legs, scale).value;
      && |requests| == |legs|
      && forall i :: 0 <= i < |legs| ==>
           LegRequest(hash, intent, legs[i], i + 1, scale) == Ok(requests[i]) && RoundedLeg(legs[i], scale, requests[i])
  {
    hide LegRequest, RoundedLeg;
    if legs != [] {
      RequestsByLeg(hash, intent, legs[..|legs| - 1], scale);
      LegIsRounded(hash, intent, legs[|legs| - 1], |legs|, scale);
    }
  }

  /** What the legs would cost at the approved scale without rounding. */
  function ScaledCost(legs: seq<PricingLeg>, scale: real): real {
    if legs == [] then 0.0
    else
      var last := legs[|legs| - 1];
      ScaledCost(legs[..|legs| - 1], scale) + Times(OrZero(last.averagePrice), Times(OrZero(LegQuantity(last)), scale))
  }

  function QuantityTotal(requests: seq<OrderRequest>): real {
    if requests == [] then 0.0 else QuantityTotal(requests[..|requests| - 1]) + requests[|requests| - 1].quantity
  }

  lemma SmallProduct(loss: real, amount: real)
    requires 0.0 <= loss < QUANTUM && amount > 0.0
    ensures 0.0 <= Times(loss, amount) < Times(QUANTUM, amount)
  {
  }

  lemma RoundedProduct(price: real, quantity: real, exactPrice: real, exactQuantity: real)
    requires 0.0 < price <= exactPrice < price + QUANTUM
    requires 0.0 < quantity <= exactQuantity < quantity + QUANTUM
    ensures Times(price, quantity) <= Times(exactPrice, exactQuantity) < Times(price, quantity) + Times(QUANTUM, exactPrice + quantity)
  {
    var lostPrice, lostQuantity := exactPrice - price, exactQuantity - quantity;
    assert Times(exactPrice, exactQuantity) == Times(price, quantity) + Times(lostPrice, quantity) + Times(exactPrice, lostQuantity) by {
      hide Times;
      TimesAdds(exactPrice, quantity, lostQuantity);
      TimesAdds(quantity, price, lostPrice);
    }
    SmallProduct(lostPrice, quantity);
    SmallProduct(lostQuantity, exactPrice);
    hide Times;
    TimesCommutes(exactPrice, lostQuantity);
    TimesAdds(QUANTUM, exactPrice, quantity);
  }

  /** Rounding never raises the total, and loses less than one quantum per unit of price and of
      quantity. */
  lemma {:induction false} RoundingIsBounded(legs: seq<PricingLeg>, scale: real, requests: seq<OrderRequest>)
    requires |requests| == |legs| && forall i :: 0 <= i < |legs| ==> RoundedLeg(legs[i], scale, requests[i])
    ensures Notional(requests) <= ScaledCost(legs, scale) <= Notional(requests) + Times(QUANTUM, PriceTotal(legs) + QuantityTotal(requests))
    ensures legs != [] ==> ScaledCost(legs, scale) < Notional(requests) + Times(QUANTUM, PriceTotal(legs) + QuantityTotal(requests))
    ensures legs != [] ==> Notional(requests) >= MIN_LEG_NOTIONAL
  {
    hide Times;
    if legs == [] {
      TimesZero(QUANTUM);
    } else {
      var n := |legs| - 1;
      RoundingIsBounded(legs[..n], scale, requests[..n]);
      var leg, request := legs[n], requests[n];
      assert RoundedLeg(leg, scale, request);
      RoundedProduct(request.price, request.quantity, leg.averagePrice.value, Times(LegQuantity(leg).value, scale));
      TimesAdds(QUANTUM, PriceTotal(legs[..n]) + QuantityTotal(requests[..n]), leg.averagePrice.value + request.quantity);
      if n > 0 {
        assert Notional(requests[..n]) >= MIN_LEG_NOTIONAL;
      } else {
        assert Notional(requests[..n]) == 0.0;
      }
    }
  }

  // ---------------------------------------------------------------- successful builds

  lemma ScaleReachesApproved(gross: real, approved: real)
    requires 0.0 < approved <= gross
    ensures 0.0 < approved / gross <= 1.0
    ensures Min(1.0, approved / gross) == approved / gross
    ensures Times(gross, approved / gross) == approved
    ensures approved == gross ==> approved / gross == 1.0
  {
    assert approved / gross > 0.0;
    assert gross * (approved / gross) == approved;
  }

  /** Every successful build, whatever the pricing: one rounded request per leg, within the
      approved notional's scale of the exact cost of the legs. The check of the basket's minimum
      notional never fails once every leg passed its own. */
  lemma BuiltOrders(hash: OrderHash, o: Opportunity, decision: RiskDecision, mode: TradingMode, at: Instant)
    requires BuildOrders(hash, o, decision, mode, at).Ok?
    ensures var b := BuildOrders(hash, o, decision, mode, at).value;
      && var legs := LegsOf(o.details);
      && decision.IsApproval() && decision.maxSizeUsd.Some? && decision.simulationRunId == Some(b.simulationRunId) && b.simulationRunId != ""
      && |b.requests| == |legs| > 0
      && (forall i :: 0 <= i < |legs| ==>
            && RoundedLeg(legs[i], b.scale, b.requests[i])
            && b.requests[i].mode == mode
            && b.requests[i].clientOrderId == hash(OrderIdInput(mode, o.id, b.simulationRunId, legs[i].tokenId, i + 1, at)))
      && 0.0 < b.approved == Min(decision.maxSizeUsd.value, b.gross) && 0.0 < b.scale <= 1.0
      && Times(b.gross, b.scale) == b.approved
      && b.roundedTotal == Notional(b.requests) >= MIN_BASKET_NOTIONAL
      && b.roundedTotal <= ScaledCost(legs, b.scale) < b.roundedTotal + Times(QUANTUM, PriceTotal(legs) + QuantityTotal(b.requests))
  {
    BuiltFromSizing(hash, o, decision, mode, at);
    hide *;
    var b := BuildOrders(hash, o, decision, mode, at).value;
    BuiltRequests(hash, o, decision, mode, at, b);
    ScaleReachesApproved(b.gross, b.approved);
  }

  lemma BuiltRequests(hash: OrderHash, o: Opportunity, decision: RiskDecision, mode: TradingMode, at: Instant, b: Orders)
    requires LegsOf(o.details) != [] && decision.simulationRunId == Some(b.simulationRunId)
    requires LegRequests(hash, IntentOf(o, decision, mode, at), LegsOf(o.details), b.scale) == Ok(b.requests)
    ensures var legs := LegsOf(o.details);
      && |b.requests| == |legs| > 0
      && (forall i :: 0 <= i < |legs| ==>
            && RoundedLeg(legs[i], b.scale, b.requests[i])
            && b.requests[i].mode == mode
            && b.requests[i].clientOrderId == hash(OrderIdInput(mode, o.id, b.simulationRunId, legs[i].tokenId, i + 1, at)))
      && Notional(b.requests) <= ScaledCost(legs, b.scale) < Notional(b.requests) + Times(QUANTUM, PriceTotal(legs) + QuantityTotal(b.requests))
  {
    hide Times, RoundedLeg, LegRequests, LegRequest, Notional, ScaledCost, LegsOf;
    var legs := LegsOf(o.details);
    RequestsByLeg(hash, IntentOf(o, decision, mode, at), legs, b.scale);
    RoundingIsBounded(legs, b.scale, b.requests);
    forall i | 0 <= i < |legs|
      ensures b.requests[i].mode == mode
      ensures b.requests[i].clientOrderId == hash(OrderIdInput(mode, o.id, b.simulationRunId, legs[i].tokenId, i + 1, at))
    {
      RequestIds(hash, IntentOf(o, decision, mode, at), legs[i], i + 1, b.scale);
    }
  }

  lemma BuiltFromSizing(hash: OrderHash, o: Opportunity, decision: RiskDecision, mode: TradingMode, at: Instant)
    requires BuildOrders(hash, o, decision, mode, at).Ok?
    ensures var b := BuildOrders(hash, o, decision, mode, at).value;
      && LegsOf(o.details) != []
      && decision.IsApproval() && decision.maxSizeUsd.Some? && decision.simulationRunId == Some(b.simulationRunId) && b.simulationRunId != ""
      && 0.0 < b.approved == Min(decision.maxSizeUsd.value, b.gross) <= b.gross
      && b.scale == Min(1.0, b.approved / b.gross)
      && LegRequests(hash, IntentOf(o, decision, mode, at), LegsOf(o.details), b.scale) == Ok(b.requests)
      && b.roundedTotal == Notional(b.requests) >= MIN_BASKET_NOTIONAL
  {
    hide LegRequests, Notional, GrossCost;
  }

  lemma RequestIds(hash: OrderHash, intent: Intent, leg: PricingLeg, index: nat, scale: real)
    requires LegRequest(hash, intent, leg, index, scale).Ok?
    ensures var request := LegRequest(hash, intent, leg, index, scale).value;
      && request.mode == intent.mode
      && request.clientOrderId == hash(OrderIdInput(intent.mode, intent.opportunityId, intent.runId, leg.tokenId, index, intent.submittedAt))
  {
    hide Times, RoundDown;
  }

  /** The basket's minimum-notional check cannot be the one that fails. */
  lemma BasketMinimumIsImplied(hash: OrderHash, o: Opportunity, decision: RiskDecision, mode: TradingMode, at: Instant)
    ensures BuildOrders(hash, o, decision, mode, at) != Error(BasketTooSmall)
  {
    hide Times, RoundedLeg, LegRequest;
    var sizing := Sizing(o, decision);
    if sizing.Ok? {
      var legs, intent, scale := LegsOf(o.details), IntentOf(o, decision, mode, at), sizing.value.2;
      var requests := LegRequests(hash, intent, legs, scale);
      if requests.Ok? {
        RequestsByLeg(hash, intent, legs, scale);
        RoundingIsBounded(legs, scale, requests.value);
      } else {
        NoBasketError(hash, intent, legs, scale);
      }
    }
  }

  lemma {:induction false} NoBasketError(hash: OrderHash, intent: Intent, legs: seq<PricingLeg>, scale: real)
    ensures LegRequests(hash, intent, legs, scale) != Error(BasketTooSmall)
  {
    if legs != [] { NoBasketError(hash, intent, legs[..|legs| - 1], scale); }
  }
}
