/** Opportunity rows and the parts of their JSON details that later stages read back
    (src/constraint_scanner/db/models.py, detection/combinatorial.py). */
module Opportunities {
  import opened Common

  datatype PricingLeg = PricingLeg(
    marketId: Option<int>, tokenId: int, side: Side, requestedQuantity: Option<real>, filledQuantity: Option<real>,
    averagePrice: Option<real>, totalNotional: Option<real>)

  datatype Pricing = Pricing(
    basketQuantity: Option<real>, grossBuyCost: Option<real>, netCost: Option<real>, netEdgePct: Option<real>,
    legs: Option<seq<PricingLeg>>)

  datatype Lifecycle = Lifecycle(
    persistenceKey: string, firstSeenAt: Instant, lastSeenAt: Instant, closedAt: Option<Instant>,
    persistenceMs: int, seenCount: int)

  datatype Details = Details(
    pricing: Option<Pricing>, grossPayoffs: Option<seq<real>>, confidence: Option<real>, memberCount: Option<nat>,
    lifecycle: Option<Lifecycle>)

  datatype Status = Open | Closed

  datatype Opportunity = Opportunity(
    id: int, constraintId: int, groupId: Option<int>, marketId: Option<int>, tokenId: Option<int>,
    persistenceKey: string, detectedAt: Instant, firstSeenAt: Instant, lastSeenAt: Instant, closedAt: Option<Instant>,
    status: Status, score: real, edgeBps: Option<real>, expectedValueUsd: real, details: Details)

  /** `str(value)` and back is the identity; a missing amount reads as zero. */
  function OrZero(amount: Option<real>): real {
    if amount.Some? then amount.value else 0.0
  }

  /** The pricing legs of an opportunity, none when its details lack them. */
  function LegsOf(details: Details): seq<PricingLeg> {
    if details.pricing.Some? && details.pricing.value.legs.Some? then details.pricing.value.legs.value else []
  }

  function TotalNotional(legs: seq<PricingLeg>): real {
    if legs == [] then 0.0 else TotalNotional(legs[..|legs| - 1]) + OrZero(legs[|legs| - 1].totalNotional)
  }

  function PriceTotal(legs: seq<PricingLeg>): real {
    if legs == [] then 0.0 else PriceTotal(legs[..|legs| - 1]) + OrZero(legs[|legs| - 1].averagePrice)
  }

  /** A leg as a detector writes it for a basket of `quantity` units. */
  ghost predicate DetectorLeg(leg: PricingLeg, quantity: real) {
    && leg.marketId.Some?
    && leg.side == Buy
    && leg.requestedQuantity == Some(quantity)
    && leg.filledQuantity == Some(quantity)
    && leg.averagePrice.Some?
    && leg.totalNotional == Some(Times(leg.averagePrice.value, quantity))
  }

  /** Detector-produced pricing: a basket of distinct bought tokens, all filled in the same
      positive quantity, whose notionals add up to the gross cost and which pays one dollar per
      unit in every state, at a profit. */
  ghost predicate DetectorPricing(details: Details) {
    && details.pricing.Some?
    && details.grossPayoffs.Some?
    && details.grossPayoffs.value != []
    && (forall g :: g in details.grossPayoffs.value ==> g == 1.0)
    && var p := details.pricing.value;
    && p.legs.Some? && p.basketQuantity.Some? && p.grossBuyCost.Some?
    && var legs, quantity := p.legs.value, p.basketQuantity.value;
    && legs != []
    && quantity > 0.0
    && (forall i, j :: 0 <= i < j < |legs| ==> legs[i].tokenId != legs[j].tokenId)
    && (forall i :: 0 <= i < |legs| ==> DetectorLeg(legs[i], quantity))
    && p.grossBuyCost.value == TotalNotional(legs) == Times(PriceTotal(legs), quantity)
    && p.netCost == p.grossBuyCost
    && p.grossBuyCost.value > 0.0
    && 0.0 < PriceTotal(legs) < 1.0
  }

  lemma {:induction false} DetectorNotional(legs: seq<PricingLeg>, quantity: real)
    requires forall i :: 0 <= i < |legs| ==> DetectorLeg(legs[i], quantity)
    ensures TotalNotional(legs) == Times(PriceTotal(legs), quantity)
  {
    hide Times;
    if legs == [] {
      TimesZero(quantity);
    } else {
      var n := |legs| - 1;
      DetectorNotional(legs[..n], quantity);
      TimesAdds(quantity, PriceTotal(legs[..n]), legs[n].averagePrice.value);
    }
  }
}
