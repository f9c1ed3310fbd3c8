/** What the simulator guarantees beyond a single verdict: the order of its profit bounds, and its
    agreement with the detector on unchanged books. */
module SimulationGuarantees {
  import opened Common
  import opened Sorting
  import opened ExecutablePricing
  import opened BasketPricing
  import opened Templates
  import opened Opportunities
  import opened Detection
  import opened FillModel
  import opened Simulation

  // ---------------------------------------------------------------- order of the bounds

  /** No fill of up to `n` levels is slipped by more than all of its value. The charge is linear in
      the number of levels, so the first level and the last decide. */
  predicate WithinValue(slippage: SlippageAssumptions, n: nat)
    requires n >= 1
  {
    slippage.baseBps <= 10000.0 && slippage.baseBps + Times(slippage.perExtraLevelBps, (n - 1) as real) <= 10000.0
  }

  ghost predicate NonNegativeBids(books: Books, tokenId: int) {
    tokenId in books ==> forall l :: l in books[tokenId].bids ==> l.price >= 0.0
  }

  /** Selling any quantity of the token back into its bids is worth at least nothing. */
  ghost predicate BenignBids(slippage: SlippageAssumptions, books: Books, tokenId: int) {
    && NonNegativeBids(books, tokenId)
    && (tokenId in books && books[tokenId].bids != [] ==> WithinValue(slippage, |books[tokenId].bids|))
  }

  /** The bids of every bought token of an opportunity are benign; other tokens and sides are free. */
  ghost predicate BenignOpportunity(slippage: SlippageAssumptions, details: Details, books: Books) {
    forall l :: l in LegsOf(details) && l.side == Buy ==> BenignBids(slippage, books, l.tokenId)
  }

  lemma {:induction false} WalkNotionalNonNegative(levels: seq<BookLevel>, q: real)
    requires forall l :: l in levels ==> l.price >= 0.0
    ensures WalkLevels(levels, q).notional >= 0.0
    ensures |WalkLevels(levels, q).slices| <= |levels|
  {
    hide Times;
    if q > 0.0 && levels != [] {
      assert levels[0] in levels;
      if levels[0].size <= 0.0 {
        WalkNotionalNonNegative(levels[1..], q);
      } else {
        var m := Min(levels[0].size, q);
        WalkNotionalNonNegative(levels[1..], q - m);
        TimesSign(levels[0].price, m);
      }
    }
  }

  lemma RecoveryNonNegative(slippage: SlippageAssumptions, books: Books, tokenId: int, quantity: real)
    requires BenignBids(slippage, books, tokenId)
    ensures ApplySlippage(TokenFill(books, tokenId, Sell, quantity), Sell, slippage).adjustedNotional >= 0.0
  {
    if tokenId in books {
      var bids := books[tokenId].bids;
      var f := WeightedFill(bids, quantity, Sell);
      if f.filled > 0.0 {
        forall l | l in SortedLevels(bids, Sell) ensures l.price >= 0.0 {
          SortedMembers(bids, Sell, l);
        }
        WalkNotionalNonNegative(SortedLevels(bids, Sell), quantity);
        SortLength(bids, Sell);
        SlicesAccountForFill(bids, quantity, Sell);
        assert f.consumed != [];
        AppliedBpsWithin(slippage, |f.consumed|, |bids|);
        NonNegativeProceeds(f.average.value, f.filled, AppliedBps(|f.consumed|, slippage));
      }
    }
  }

  lemma SortLength(levels: seq<BookLevel>, side: Side)
    ensures |SortedLevels(levels, side)| == |levels|
  {
    ByPriceIsOrder(side);
    SortSorted(ByPrice(side), levels);
    assert |multiset(SortedLevels(levels, side))| == |multiset(levels)|;
  }

  lemma AppliedBpsWithin(slippage: SlippageAssumptions, levels: nat, available: nat)
    requires 1 <= levels <= available && WithinValue(slippage, available)
    ensures AppliedBps(levels, slippage) <= 10000.0
  {
    hide Times;
    var few, many, per := (levels - 1) as real, (available - 1) as real, slippage.perExtraLevelBps;
    TimesCommutes(few, per);
    TimesCommutes(many, per);
    if per >= 0.0 {
      TimesMonotone(few, many, per);
    } else {
      TimesMonotone(per, 0.0, few);
      TimesZero(few);
    }
  }

  lemma NonNegativeProceeds(average: real, filled: real, bps: real)
    requires filled > 0.0 && Times(average, filled) >= 0.0 && bps <= 10000.0
    ensures Times(Times(average, 1.0 - bps / 10000.0), filled) >= 0.0
  {
    var keep := 1.0 - bps / 10000.0;
    assert keep >= 0.0;
    hide Times;
    TimesAssociates(average, keep, filled);
    TimesCommutes(keep, filled);
    TimesAssociates(average, filled, keep);
    TimesSign(Times(average, filled), keep);
  }

  lemma ResidualsOrdered(settings: SimulationSettings, books: Books, leg: SimulatedLeg, completed: real)
    requires leg.side == Buy ==> BenignBids(settings.slippage, books, leg.tokenId)
    ensures var r := ResidualValuation(settings, books, leg, completed);
      r.downsideValue <= r.expectedValue && r.matched + r.excess == leg.fill.filled && r.excess >= 0.0
  {
    hide ApplySlippage, TokenFill, Times;
    var matched := Min(leg.fill.filled, Times(leg.unitsPerBasket, completed));
    if leg.side == Buy {
      RecoveryNonNegative(settings.slippage, books, leg.tokenId, Max(leg.fill.filled - matched, 0.0));
    }
  }

  lemma {:induction false} ResidualSumsOrdered(residuals: seq<Residual>)
    requires forall r :: r in residuals ==> r.downsideValue <= r.expectedValue
    ensures DownsideResidual(residuals) <= ExpectedResidual(residuals)
  {
    if residuals != [] {
      ResidualSumsOrdered(residuals[..|residuals| - 1]);
      assert residuals[|residuals| - 1] in residuals;
    }
  }

  lemma Interpolation(low: real, high: real, p: real)
    requires low <= high && 0.0 <= p <= 1.0
    ensures low <= low + Times(high - low, p) <= high
  {
    TimesSign(high - low, p);
    TimesSign(high - low, 1.0 - p);
    TimesAdds(high - low, p, 1.0 - p);
    TimesOne(high - low);
  }

  /** For any mix of bought and sold legs: the fill probability is a probability, the profit bounds
      are ordered, every fill is split into a matched and a non-negative excess part, and the
      completed quantity is the largest one that all legs support. */
  lemma {:induction false} ProfitBoundsAreOrdered(settings: SimulationSettings, details: Details, books: Books, at: Instant)
    requires BenignOpportunity(settings.slippage, details, books)
    ensures var r := SimulationOf(settings, details, books, at);
      && 0.0 <= r.fillProbability <= 1.0
      && r.downsideBound <= r.expectedPnl <= r.baseCase
      && |r.residuals| == |r.legs|
      && (forall i :: 0 <= i < |r.legs| ==>
            r.residuals[i].matched + r.residuals[i].excess == r.legs[i].fill.filled && r.residuals[i].excess >= 0.0)
      && (r.legs != [] ==>
            && Supports(ForFillModel(r.legs), r.completed)
            && (forall other :: Supports(ForFillModel(r.legs), other) ==> other <= r.completed)
            && (exists i :: 0 <= i < |r.legs| && r.residuals[i].excess == 0.0))
  {
    var r := SimulationOf(settings, details, books, at);
    if r.legs != [] {
      ConcludedFrom(settings, details, books, at);
      ResidualsAreSound(settings, details, books, at);
      hide *;
      ConcludedBounds(settings, books, OrZero(details.pricing.value.basketQuantity), PayoutFloor(details.grossPayoffs.value), r.legs);
    }
  }

  /** What holds of a conclusion whose residuals are sound. */
  lemma ConcludedBounds(settings: SimulationSettings, books: Books, basket: real, payoutFloor: real, legs: seq<SimulatedLeg>)
    requires basket > 0.0 && legs != []
    requires var r := Conclude(settings, books, basket, payoutFloor, legs);
      |r.residuals| == |legs| && forall i :: 0 <= i < |legs| ==>
        r.residuals[i].downsideValue <= r.residuals[i].expectedValue && legs[i].unitsPerBasket > 0.0
    ensures var r := Conclude(settings, books, basket, payoutFloor, legs);
      && 0.0 <= r.fillProbability <= 1.0
      && r.downsideBound <= r.expectedPnl <= r.baseCase
      && Supports(ForFillModel(legs), r.completed)
      && (forall other :: Supports(ForFillModel(legs), other) ==> other <= r.completed)
      && (exists i :: 0 <= i < |legs| && r.residuals[i].excess == 0.0)
  {
    hide ResidualValuation, AdjustedNotional, Assess, Times, ClassifyFragility, Supports;
    var r := Conclude(settings, books, basket, payoutFloor, legs);
    ResidualSumsOrdered(r.residuals);
    ProbabilityRange(basket, ForFillModel(legs), settings.fill);
    Interpolation(r.downsideBound, r.baseCase, r.fillProbability);
    SomeLegIsUsedUp(settings, books, basket, legs, r.completed);
    CompletedIsLargestSupported(basket, ForFillModel(legs), settings.fill);
  }

  lemma SomeLegIsUsedUp(settings: SimulationSettings, books: Books, basket: real, legs: seq<SimulatedLeg>, completed: real)
    requires basket > 0.0 && legs != [] && forall i :: 0 <= i < |legs| ==> legs[i].unitsPerBasket > 0.0
    requires completed == Assess(basket, ForFillModel(legs), settings.fill).completed
    ensures exists i :: 0 <= i < |legs| && Residuals(settings, books, legs, completed)[i].excess == 0.0
  {
    hide ResidualValuation, Assess, Times, Supports;
    var fillLegs := ForFillModel(legs);
    CompletedIsLargestSupported(basket, fillLegs, settings.fill);
    var k :| 0 <= k < |fillLegs| && Times(fillLegs[k].unitsPerBasket, completed) == fillLegs[k].filled;
    NoExcessNoResidual(settings, books, legs[k], completed);
    assert Residuals(settings, books, legs, completed)[k].excess == 0.0;
  }

  lemma ConcludedFrom(settings: SimulationSettings, details: Details, books: Books, at: Instant)
    requires SimulationOf(settings, details, books, at).legs != []
    ensures var r := SimulationOf(settings, details, books, at);
      && details.pricing.Some? && details.pricing.value.legs.Some? && details.grossPayoffs.Some?
      && var basket := OrZero(details.pricing.value.basketQuantity);
      && basket > 0.0
      && r.legs == SimulateLegs(settings, books, at, basket, details.pricing.value.legs.value)
      && r == Conclude(settings, books, basket, PayoutFloor(details.grossPayoffs.value), r.legs)
  {
    hide SimulateLegs, Assess, AdjustedNotional, Residuals, Times, ClassifyFragility;
  }

  /** Every residual of a simulation splits its fill and is bounded by its expected value. */
  lemma ResidualsAreSound(settings: SimulationSettings, details: Details, books: Books, at: Instant)
    requires BenignOpportunity(settings.slippage, details, books)
    requires SimulationOf(settings, details, books, at).legs != []
    ensures var r := SimulationOf(settings, details, books, at);
      && |r.residuals| == |r.legs|
      && (forall i :: 0 <= i < |r.legs| ==>
            && r.residuals[i].matched + r.residuals[i].excess == r.legs[i].fill.filled && r.residuals[i].excess >= 0.0
            && r.residuals[i].downsideValue <= r.residuals[i].expectedValue
            && r.legs[i].unitsPerBasket > 0.0)
  {
    ConcludedFrom(settings, details, books, at);
    var r := SimulationOf(settings, details, books, at);
    var basket := OrZero(details.pricing.value.basketQuantity);
    hide SimulationOf, ResidualValuation, AdjustedNotional, Assess, Times, ClassifyFragility, SimulateLegs, BenignBids, ComesFrom;
    SimulatedLegsAreSound(settings, books, at, basket, details.pricing.value.legs.value);
    SimulatedLegsComeFrom(settings, books, at, basket, details.pricing.value.legs.value);
    forall i | 0 <= i < |r.legs|
      ensures r.residuals[i].matched + r.residuals[i].excess == r.legs[i].fill.filled && r.residuals[i].excess >= 0.0
      ensures r.residuals[i].downsideValue <= r.residuals[i].expectedValue
      ensures r.legs[i].unitsPerBasket > 0.0
    {
      assert r.legs[i] in r.legs;
      BoughtIsBenign(settings.slippage, details, books, r.legs[i]);
      ResidualsOrdered(settings, books, r.legs[i], r.completed);
      assert SoundLeg(settings, books, basket, r.legs[i]);
    }
  }

  lemma BoughtIsBenign(slippage: SlippageAssumptions, details: Details, books: Books, s: SimulatedLeg)
    requires BenignOpportunity(slippage, details, books) && ComesFrom(LegsOf(details), s)
    ensures s.side == Buy ==> BenignBids(slippage, books, s.tokenId)
  {
  }

  ghost predicate ComesFrom(legs: seq<PricingLeg>, s: SimulatedLeg) {
    exists l :: l in legs && l.tokenId == s.tokenId && l.side == s.side
  }

  lemma {:induction false} SimulatedLegsComeFrom(settings: SimulationSettings, books: Books, at: Instant, basket: real, legs: seq<PricingLeg>)
    requires basket > 0.0
    ensures forall s :: s in SimulateLegs(settings, books, at, basket, legs) ==> ComesFrom(legs, s)
  {
    hide TokenFill, ApplySlippage;
    if legs != [] {
      var init, last := legs[..|legs| - 1], legs[|legs| - 1];
      SimulatedLegsComeFrom(settings, books, at, basket, init);
      forall s | s in SimulateLegs(settings, books, at, basket, legs) ensures ComesFrom(legs, s) {
        if s in SimulateLegs(settings, books, at, basket, init) {
          var l :| l in init && l.tokenId == s.tokenId && l.side == s.side;
          assert l in legs;
        } else {
          assert last in legs && s == SimulateLeg(settings, books, at, basket, last);
        }
      }
    }
  }

  lemma ProbabilityRange(requested: real, legs: seq<FillModelLeg>, assumptions: FillAssumptions)
    ensures 0.0 <= Assess(requested, legs, assumptions).fillProbability <= 1.0
  {
    hide RawProbability;
  }

  // ---------------------------------------------------------------- agreement with the detector

  /** A detector's leg whose book still yields the fill the detector recorded. */
  ghost predicate UnchangedLeg(books: Books, leg: PricingLeg, quantity: real) {
    && DetectorLeg(leg, quantity)
    && leg.tokenId in books
    && var f := TokenFill(books, leg.tokenId, Buy, quantity);
       f.filled == quantity && f.notional == leg.totalNotional.value
  }

  /** What slippage takes off the profit of bought legs. */
  function SlippageCharge(legs: seq<SimulatedLeg>): real {
    if legs == [] then 0.0
    else
      var last := legs[|legs| - 1];
      SlippageCharge(legs[..|legs| - 1]) + Times(last.fill.notional, last.slippage.appliedBps / 10000.0)
  }

  lemma {:induction false} AdjustedCostOfUnchangedLegs(settings: SimulationSettings, books: Books, at: Instant, quantity: real, legs: seq<PricingLeg>)
    requires quantity > 0.0
    requires forall i :: 0 <= i < |legs| ==> UnchangedLeg(books, legs[i], quantity)
    ensures var simulated := SimulateLegs(settings, books, at, quantity, legs);
      && |simulated| == |legs|
      && (forall i :: 0 <= i < |legs| ==> simulated[i] == SimulateLeg(settings, books, at, quantity, legs[i]))
      && AdjustedNotional(simulated, Buy) == TotalNotional(legs) + SlippageCharge(simulated)
      && AdjustedNotional(simulated, Sell) == 0.0
  {
    hide Times, SimulateLeg, UnchangedLeg, AdjustedNotional, SlippageCharge;
    if legs == [] {
      NoLegsNoCost();
    } else {
      var n := |legs| - 1;
      AdjustedCostOfUnchangedLegs(settings, books, at, quantity, legs[..n]);
      assert UnchangedLeg(books, legs[n], quantity);
      UnchangedLegCost(settings, books, at, quantity, legs[n]);
      var init, last := SimulateLegs(settings, books, at, quantity, legs[..n]), SimulateLeg(settings, books, at, quantity, legs[n]);
      assert SimulateLegs(settings, books, at, quantity, legs) == init + [last];
      hide SimulateLegs;
      OneMoreLeg(init, last);
    }
  }

  lemma NoLegsNoCost()
    ensures AdjustedNotional([], Buy) == AdjustedNotional([], Sell) == SlippageCharge([]) == 0.0
  {
  }

  lemma OneMoreLeg(init: seq<SimulatedLeg>, last: SimulatedLeg)
    ensures AdjustedNotional(init + [last], Buy)
         == AdjustedNotional(init, Buy) + if last.side == Buy then last.slippage.adjustedNotional else 0.0
    ensures AdjustedNotional(init + [last], Sell)
         == AdjustedNotional(init, Sell) + if last.side == Sell then last.slippage.adjustedNotional else 0.0
    ensures SlippageCharge(init + [last]) == SlippageCharge(init) + Times(last.fill.notional, last.slippage.appliedBps / 10000.0)
  {
    hide Times;
    assert (init + [last])[..|init|] == init;
  }

  lemma UnchangedLegCost(settings: SimulationSettings, books: Books, at: Instant, quantity: real, leg: PricingLeg)
    requires quantity > 0.0 && UnchangedLeg(books, leg, quantity)
    ensures OrZero(leg.requestedQuantity) > 0.0
    ensures var s := SimulateLeg(settings, books, at, quantity, leg);
      && s.side == Buy
      && s.slippage.adjustedNotional == OrZero(leg.totalNotional) + Times(s.fill.notional, s.slippage.appliedBps / 10000.0)
  {
    hide Times, ApplySlippage, TokenFill;
    var s := SimulateLeg(settings, books, at, quantity, leg);
    TokenFillFacts(books, leg.tokenId, Buy, quantity);
    SlippageIsShareOfNotional(s.fill, Buy, settings.slippage);
  }

  lemma FindingLegsAreUnchanged(hash: KeyHash, detection: Settings, context: Context, books: Books, confidence: real)
    requires DetectCombinatorial(hash, detection, context, books, confidence).Found?
    ensures var p := DetectCombinatorial(hash, detection, context, books, confidence).finding.details.pricing.value;
      && p.legs.Some? && p.basketQuantity.Some?
      && forall i :: 0 <= i < |p.legs.value| ==> UnchangedLeg(books, p.legs.value[i], p.basketQuantity.value)
  {
    hide Times, MaxBasketQuantity, LegLimit, WeightedFill, Evaluate, MemberTotal, AllFullyFilled, GrossNotional, Fills;
    var members, legs := context.members, BasketLegs(context.members);
    var quantity := MaxBasketQuantity(books, legs);
    var fills := Fills(books, legs, quantity);
    FindingIsArbitrage(hash, detection, context, books, confidence);
    FillsByToken(books, legs, quantity);
    var priced := PricingLegs(members, fills, quantity);
    forall i | 0 <= i < |priced| ensures UnchangedLeg(books, priced[i], quantity) {
      MemberFill(books, members, i, quantity);
      assert legs[i].tokenId == members[i].tokenId;
      assert fills[members[i].tokenId] == LegFill(books, legs[i], quantity);
      TimesOne(quantity);
      MaxBasketQuantityIsLeast(books, legs);
      LimitNeedsBook(books, legs[i]);
    }
  }

  /** Every quote behind the legs is between zero and the stale limit old. */
  ghost predicate FreshQuotes(settings: SimulationSettings, books: Books, legs: seq<PricingLeg>, at: Instant) {
    forall i :: 0 <= i < |legs| ==>
      legs[i].tokenId in books
      && 0 <= ElapsedSeconds(books[legs[i].tokenId].observedAt, at) <= settings.fill.staleQuoteSeconds
  }

  /** Fresh quotes, legs that consume similar numbers of levels, and thresholds a certain fill meets. */
  ghost predicate CalmMarket(settings: SimulationSettings, books: Books, legs: seq<PricingLeg>, simulated: seq<SimulatedLeg>, at: Instant) {
    && FreshQuotes(settings, books, legs, at)
    && settings.fill.asymmetryRatioThreshold >= 0.0
    && simulated != []
    && MaxLevels(ForFillModel(simulated)) - MinLevels(ForFillModel(simulated)) < settings.fill.asymmetryLevelGapThreshold
    && settings.robustThreshold <= 1.0
  }

  lemma StaleExactly(settings: SimulationSettings, books: Books, at: Instant, quantity: real, legs: seq<PricingLeg>, simulated: seq<SimulatedLeg>)
    requires quantity > 0.0 && |simulated| == |legs|
    requires forall i :: 0 <= i < |legs| ==> simulated[i] == SimulateLeg(settings, books, at, quantity, legs[i])
    ensures !AnyStale(ForFillModel(simulated)) <==> FreshQuotes(settings, books, legs, at)
    ensures !AnyStale(ForFillModel(simulated)) ==> !AnyMistimed(ForFillModel(simulated)) && !AnyUnquoted(ForFillModel(simulated))
  {
    hide ApplySlippage, TokenFill;
    var f := ForFillModel(simulated);
    assert forall i :: 0 <= i < |legs| ==> f[i].stale == Stale(QuoteAge(books, legs[i].tokenId, at), settings);
    if !FreshQuotes(settings, books, legs, at) {
      var i :| 0 <= i < |legs| && !(legs[i].tokenId in books
        && 0 <= ElapsedSeconds(books[legs[i].tokenId].observedAt, at) <= settings.fill.staleQuoteSeconds);
      assert f[i].stale;
    }
  }

  /** Simulating a finding on the very books it was detected on: the three profit figures coincide
      and equal the detected edge less slippage, and the verdict is ROBUST exactly when that is
      positive, the quotes are fresh, the legs consume similar numbers of levels and the
      thresholds can be met by a certain fill. */
  lemma {:induction false} SimulatorAgreesWithDetector(hash: KeyHash, detection: Settings, context: Context, books: Books, confidence: real,
                                    settings: SimulationSettings, lifecycle: Option<Lifecycle>, at: Instant)
    requires DetectCombinatorial(hash, detection, context, books, confidence).Found?
    ensures var f := DetectCombinatorial(hash, detection, context, books, confidence).finding;
      var r := SimulationOf(settings, f.details.(lifecycle := lifecycle), books, at);
      && r.legs != []
      && r.downsideBound == r.expectedPnl == r.baseCase == f.expectedValueUsd - SlippageCharge(r.legs)
      && (r.classification == Robust <==>
            SlippageCharge(r.legs) < f.expectedValueUsd && CalmMarket(settings, books, LegsOf(f.details), r.legs, at))
      && (r.classification == Robust ==> r.fillProbability == 1.0)
  {
    hide Times, DetectCombinatorial, Conclude, AdjustedNotional, SimulateLegs, SlippageCharge, FreshQuotes, MaxLevels, MinLevels;
    var f := DetectCombinatorial(hash, detection, context, books, confidence).finding;
    FindingIsArbitrage(hash, detection, context, books, confidence);
    FindingLegsAreUnchanged(hash, detection, context, books, confidence);
    var pricing := f.details.pricing.value;
    var quantity, legs := pricing.basketQuantity.value, pricing.legs.value;
    AdjustedCostOfUnchangedLegs(settings, books, at, quantity, legs);
    var simulated := SimulateLegs(settings, books, at, quantity, legs);
    AllPayoffsOne(f.details.grossPayoffs.value);
    SimulatedLegsAreSound(settings, books, at, quantity, legs);
    FullFills(settings, books, at, quantity, legs, simulated);
    TimesOne(quantity);
    TimesAdds(quantity, 1.0 - PriceTotal(legs), PriceTotal(legs));
    StaleExactly(settings, books, at, quantity, legs, simulated);
    ConcludeOnFullFills(settings, books, quantity, 1.0, simulated);
  }

  /** The result of a simulation in which every leg filled in full. */
  lemma ConcludeOnFullFills(settings: SimulationSettings, books: Books, basket: real, payoutFloor: real, legs: seq<SimulatedLeg>)
    requires basket > 0.0 && legs != []
    requires forall l :: l in legs ==> SoundLeg(settings, books, basket, l) && l.fill.filled == l.fill.desired
    requires !AnyStale(ForFillModel(legs)) ==> !AnyMistimed(ForFillModel(legs)) && !AnyUnquoted(ForFillModel(legs))
    ensures var r := Conclude(settings, books, basket, payoutFloor, legs);
      && r.legs == legs
      && r.downsideBound == r.expectedPnl == r.baseCase
         == Times(payoutFloor, basket) - (AdjustedNotional(legs, Buy) - AdjustedNotional(legs, Sell))
      && (r.classification == Robust <==>
            && r.expectedPnl > 0.0
            && !AnyStale(ForFillModel(legs))
            && settings.fill.asymmetryRatioThreshold >= 0.0
            && MaxLevels(ForFillModel(legs)) - MinLevels(ForFillModel(legs)) < settings.fill.asymmetryLevelGapThreshold
            && settings.robustThreshold <= 1.0)
      && (r.classification == Robust ==> r.fillProbability == 1.0)
  {
    hide Times, Assess, AdjustedNotional, ResidualValuation, MaxLevels, MinLevels, SoundLeg;
    hide AnyStale, AnyMistimed, AnyUnquoted;
    var r := Conclude(settings, books, basket, payoutFloor, legs);
    FullFillsComplete(settings, books, basket, legs);
    ZeroResiduals(r.residuals);
    TimesZero(r.fillProbability);
    FullFillVerdict(settings, basket, ForFillModel(legs));
  }

  lemma {:induction false} NoSlippageNoCharge(settings: SimulationSettings, books: Books, basket: real, legs: seq<SimulatedLeg>)
    requires settings.slippage.baseBps == settings.slippage.perExtraLevelBps == 0.0
    requires forall l :: l in legs ==> SoundLeg(settings, books, basket, l)
    ensures SlippageCharge(legs) == 0.0
  {
    hide Times, TokenFill;
    if legs != [] {
      var n := |legs| - 1;
      assert legs[n] in legs;
      NoSlippageNoCharge(settings, books, basket, legs[..n]);
      TimesZero((if |legs[n].fill.consumed| > 1 then |legs[n].fill.consumed| - 1 else 0) as real);
      TimesZero(legs[n].fill.notional);
    }
  }

  /** Without slippage the simulator reproduces the detected edge to the cent. */
  lemma {:induction false} UnslippedSimulationReproducesEdge(hash: KeyHash, detection: Settings, context: Context, books: Books, confidence: real,
                                          settings: SimulationSettings, lifecycle: Option<Lifecycle>, at: Instant)
    requires DetectCombinatorial(hash, detection, context, books, confidence).Found?
    requires settings.slippage.baseBps == settings.slippage.perExtraLevelBps == 0.0
    ensures var f := DetectCombinatorial(hash, detection, context, books, confidence).finding;
      var r := SimulationOf(settings, f.details.(lifecycle := lifecycle), books, at);
      && r.downsideBound == r.expectedPnl == r.baseCase == f.expectedValueUsd
      && (r.classification == Robust <==> CalmMarket(settings, books, LegsOf(f.details), r.legs, at))
  {
    hide Times, DetectCombinatorial, SimulationOf, SimulateLegs, CalmMarket, SlippageCharge;
    var f := DetectCombinatorial(hash, detection, context, books, confidence).finding;
    var r := SimulationOf(settings, f.details.(lifecycle := lifecycle), books, at);
    SimulatorAgreesWithDetector(hash, detection, context, books, confidence, settings, lifecycle, at);
    FindingIsArbitrage(hash, detection, context, books, confidence);
    var pricing := f.details.pricing.value;
    SimulatedLegsAreSound(settings, books, at, pricing.basketQuantity.value, pricing.legs.value);
    ResultKeepsLegs(settings, f.details.(lifecycle := lifecycle), books, at);
    NoSlippageNoCharge(settings, books, pricing.basketQuantity.value, r.legs);
  }

  lemma ResultKeepsLegs(settings: SimulationSettings, details: Details, books: Books, at: Instant)
    requires SimulationOf(settings, details, books, at).legs != []
    ensures details.pricing.Some? && details.pricing.value.legs.Some? && OrZero(details.pricing.value.basketQuantity) > 0.0
    ensures SimulationOf(settings, details, books, at).legs
         == SimulateLegs(settings, books, at, OrZero(details.pricing.value.basketQuantity), details.pricing.value.legs.value)
  {
  }

  lemma AllPayoffsOne(payoffs: seq<real>)
    requires payoffs != [] && forall g :: g in payoffs ==> g == 1.0
    ensures PayoutFloor(payoffs) == 1.0
  {
  }

  lemma FullFills(settings: SimulationSettings, books: Books, at: Instant, quantity: real, legs: seq<PricingLeg>, simulated: seq<SimulatedLeg>)
    requires quantity > 0.0 && |simulated| == |legs|
    requires forall i :: 0 <= i < |legs| ==>
      UnchangedLeg(books, legs[i], quantity) && simulated[i] == SimulateLeg(settings, books, at, quantity, legs[i])
    ensures forall l :: l in simulated ==> l.fill.filled == l.fill.desired
  {
    hide ApplySlippage, TokenFill, Times;
    forall i | 0 <= i < |simulated| ensures simulated[i].fill.filled == simulated[i].fill.desired {
      TokenFillFacts(books, legs[i].tokenId, Buy, quantity);
      assert UnchangedLeg(books, legs[i], quantity);
    }
  }

  /** Probability and flags of an assessment in which every leg filled in full. */
  lemma FullFillVerdict(settings: SimulationSettings, basket: real, legs: seq<FillModelLeg>)
    requires basket > 0.0 && legs != []
    requires Assess(basket, legs, settings.fill).completed == basket
    requires Assess(basket, legs, settings.fill).completionRatio == 1.0
    requires Assess(basket, legs, settings.fill).ratioGap == 0.0
    requires forall i :: 0 <= i < |legs| ==> legs[i].filled == legs[i].requested
    requires !AnyStale(legs) ==> !AnyMistimed(legs) && !AnyUnquoted(legs)
    ensures var a := Assess(basket, legs, settings.fill);
      var calm := !AnyStale(legs) && settings.fill.asymmetryRatioThreshold >= 0.0
                  && MaxLevels(legs) - MinLevels(legs) < settings.fill.asymmetryLevelGapThreshold;
      && (calm ==> a.fillProbability == 1.0 && a.flags == {})
      && (!calm ==> StaleQuote in a.flags || LegAsymmetry in a.flags)
  {
    hide Times, MaxLevels, MinLevels, AnyStale, AnyMistimed, AnyUnquoted;
    assert !AnyShort(legs);
  }

  // ---------------------------------------------------------------- the exact condition on slippage

  ghost predicate OrderedBounds(r: SimulationResult) {
    r.downsideBound <= r.expectedPnl <= r.baseCase
  }

  /** The bids of every bought token are not negative and at most `n` levels deep. */
  ghost predicate TameBids(details: Details, books: Books, n: nat) {
    forall l :: l in LegsOf(details) && l.side == Buy && l.tokenId in books ==>
      NonNegativeBids(books, l.tokenId) && |books[l.tokenId].bids| <= n
  }

  lemma FewerLevelsWithin(slippage: SlippageAssumptions, few: nat, many: nat)
    requires 1 <= few <= many && WithinValue(slippage, many)
    ensures WithinValue(slippage, few)
  {
    AppliedBpsWithin(slippage, few, many);
  }

  lemma TameIsBenign(slippage: SlippageAssumptions, details: Details, books: Books, n: nat)
    requires n >= 1 && WithinValue(slippage, n) && TameBids(details, books, n)
    ensures BenignOpportunity(slippage, details, books)
  {
    hide WithinValue;
    forall l | l in LegsOf(details) && l.side == Buy ensures BenignBids(slippage, books, l.tokenId) {
      if l.tokenId in books && books[l.tokenId].bids != [] {
        FewerLevelsWithin(slippage, |books[l.tokenId].bids|, n);
      }
    }
  }

  /** The bounds are ordered for every opportunity, on all books with non-negative bids of at most
      `n` levels, exactly when the configuration never charges more than the whole value of a sale
      into such bids. */
  lemma BoundsAreOrderedExactly(settings: SimulationSettings, n: nat)
    requires n >= 1
    ensures (forall details: Details, books: Books, at: Instant :: TameBids(details, books, n) ==>
              OrderedBounds(SimulationOf(settings, details, books, at)))
      <==> WithinValue(settings.slippage, n)
  {
    if WithinValue(settings.slippage, n) {
      forall details: Details, books: Books, at: Instant | TameBids(details, books, n)
        ensures OrderedBounds(SimulationOf(settings, details, books, at))
      {
        hide SimulationOf, WithinValue, TameBids;
        TameIsBenign(settings.slippage, details, books, n);
        ProfitBoundsAreOrdered(settings, details, books, at);
      }
    } else {
      hide SimulationOf, TameBids;
      var k := if settings.slippage.baseBps > 10000.0 then 1 else n;
      assert AppliedBps(k, settings.slippage) > 10000.0 by { TimesZero(settings.slippage.perExtraLevelBps); }
      OverchargedSale(settings, k);
      assert TameBids(Leftover(k), ThinBook(k), n) by { LeftoverIsTame(k, n); }
    }
  }

  /** `k` bids of one unit at one dollar. */
  function Units(k: nat): seq<BookLevel> {
    seq(k, _ => BookLevel(1.0, 1.0))
  }

  /** A book that sells `k` units at one dollar and buys them back one by one. */
  function ThinBook(k: nat): Books {
    map[1 := BookSnapshot(1, 0, Units(k), [BookLevel(1.0, k as real)])]
  }

  /** A basket of `k` units of two tokens, of which only the first has a book: nothing completes and
      `k` bought units are left over. */
  function Leftover(k: nat): Details {
    Details(Some(Pricing(Some(1.0), None, None, None,
                         Some([PricingLeg(None, 1, Buy, Some(k as real), None, None, None),
                               PricingLeg(None, 2, Buy, Some(k as real), None, None, None)]))),
            Some([1.0]), None, None, None)
  }

  lemma LeftoverIsTame(k: nat, n: nat)
    requires k <= n
    ensures TameBids(Leftover(k), ThinBook(k), n)
  {
  }

  lemma {:induction false} WalkUnits(k: nat)
    ensures var w := WalkLevels(Units(k), k as real);
      w.filled == k as real && w.notional == k as real && |w.slices| == k
  {
    if k > 0 {
      WalkUnits(k - 1);
      assert Units(k)[1..] == Units(k - 1);
      TimesOne(1.0);
    }
  }

  lemma SelfRatio(x: real)
    requires x != 0.0
    ensures x / x == 1.0 && x / 1.0 == x
  {
  }

  lemma SaleOfUnits(k: nat)
    requires k >= 1
    ensures var f := WeightedFill(Units(k), k as real, Sell);
      f.filled == f.desired == k as real && f.average == Some(1.0) && |f.consumed| == k
  {
    SortIdentity(ByPrice(Sell), Units(k));
    WalkUnits(k);
    SelfRatio(k as real);
    hide WalkLevels, Units;
  }

  lemma PurchaseOfUnits(k: nat)
    requires k >= 1
    ensures var f := WeightedFill([BookLevel(1.0, k as real)], k as real, Buy);
      f.filled == f.desired == k as real && f.side == Buy
  {
    var asks := [BookLevel(1.0, k as real)];
    FilledQuantityExact(asks, k as real, Buy);
    FillKeepsRequest(asks, k as real, Buy);
    assert asks[1..] == [] && Depth(asks) == k as real;
  }

  lemma ChargedSale(k: nat, bps: real)
    requires k >= 1 && bps > 10000.0
    ensures Times(Times(1.0, 1.0 - bps / 10000.0), k as real) < 0.0
  {
    var keep := 1.0 - bps / 10000.0;
    assert keep < 0.0;
    TimesOne(keep);
    assert keep * (k as real) < 0.0;
  }

  /** The two legs of the leftover basket: one fills in full, the other not at all. */
  lemma LeftoverLegs(settings: SimulationSettings, k: nat) returns (first: SimulatedLeg, second: SimulatedLeg)
    requires k >= 1
    ensures SimulateLegs(settings, ThinBook(k), 0, 1.0, LegsOf(Leftover(k))) == [first, second]
    ensures first.tokenId == 1 && first.side == second.side == Buy
    ensures first.fill.filled == first.unitsPerBasket == second.unitsPerBasket == k as real && second.fill.filled == 0.0
  {
    var books, legs, q := ThinBook(k), LegsOf(Leftover(k)), k as real;
    PurchaseOfUnits(k);
    SelfRatio(q);
    hide WeightedFill, ApplySlippage, Units;
    first := SimulateLeg(settings, books, 0, 1.0, legs[0]);
    second := SimulateLeg(settings, books, 0, 1.0, legs[1]);
    assert legs[..1] == [legs[0]] && [legs[0]][..0] == [];
    assert SimulateLegs(settings, books, 0, 1.0, [legs[0]]) == [first];
    assert SimulateLegs(settings, books, 0, 1.0, legs) == [first, second];
  }

  lemma RecoveredAtLoss(settings: SimulationSettings, k: nat, leg: SimulatedLeg)
    requires k >= 1 && AppliedBps(k, settings.slippage) > 10000.0
    requires leg.tokenId == 1 && leg.side == Buy && leg.fill.filled == k as real
    ensures var r := ResidualValuation(settings, ThinBook(k), leg, 0.0);
      r.expectedValue < 0.0 && r.downsideValue == 0.0
  {
    TimesZero(leg.unitsPerBasket);
    SaleOfUnits(k);
    ChargedSale(k, AppliedBps(k, settings.slippage));
    hide WeightedFill, AppliedBps, Units, Times;
    assert TokenFill(ThinBook(k), 1, Sell, k as real) == WeightedFill(Units(k), k as real, Sell);
  }

  /** With nothing completed and a loss on the one residual, the base case is the lower bound. */
  lemma LossOnResidual(settings: SimulationSettings, books: Books, first: SimulatedLeg, second: SimulatedLeg)
    requires first.ForFillModel().BasketCapacity() == 1.0 && second.ForFillModel().BasketCapacity() == 0.0
    requires ResidualValuation(settings, books, first, 0.0).expectedValue < 0.0
    requires ResidualValuation(settings, books, first, 0.0).downsideValue == 0.0
    requires ResidualValuation(settings, books, second, 0.0).expectedValue == 0.0
    requires ResidualValuation(settings, books, second, 0.0).downsideValue == 0.0
    ensures var r := Conclude(settings, books, 1.0, 1.0, [first, second]);
      r.baseCase < r.downsideBound && !OrderedBounds(r)
  {
    hide Assess, AdjustedNotional, Times, ClassifyFragility, ResidualValuation;
    HalfFilled(ForFillModel([first, second]), settings.fill);
    var recovered, none := ResidualValuation(settings, books, first, 0.0), ResidualValuation(settings, books, second, 0.0);
    assert Residuals(settings, books, [first, second], 0.0) == [recovered, none];
    TwoResiduals(recovered, none);
  }

  lemma LeftoverConcludes(settings: SimulationSettings, k: nat, first: SimulatedLeg, second: SimulatedLeg)
    requires SimulateLegs(settings, ThinBook(k), 0, 1.0, LegsOf(Leftover(k))) == [first, second]
    ensures SimulationOf(settings, Leftover(k), ThinBook(k), 0) == Conclude(settings, ThinBook(k), 1.0, 1.0, [first, second])
  {
    hide SimulateLegs, Conclude;
  }

  lemma CapacityOfFull(leg: SimulatedLeg, k: nat)
    requires k >= 1 && leg.fill.filled == leg.unitsPerBasket == k as real
    ensures leg.ForFillModel().BasketCapacity() == 1.0
  {
    SelfRatio(k as real);
  }

  lemma NothingBought(settings: SimulationSettings, k: nat, leg: SimulatedLeg)
    requires leg.fill.filled == 0.0 && leg.unitsPerBasket == k as real
    ensures leg.ForFillModel().BasketCapacity() == 0.0
    ensures var r := ResidualValuation(settings, ThinBook(k), leg, 0.0);
      r.expectedValue == r.downsideValue == 0.0
  {
    TimesZero(leg.unitsPerBasket);
    NoExcessNoResidual(settings, ThinBook(k), leg, 0.0);
  }

  /** Slipped by more than its value, a leftover bought unit is recovered at a loss, and the base
      case falls below the downside bound. */
  lemma OverchargedSale(settings: SimulationSettings, k: nat)
    requires k >= 1 && AppliedBps(k, settings.slippage) > 10000.0
    ensures var r := SimulationOf(settings, Leftover(k), ThinBook(k), 0);
      r.baseCase < r.downsideBound && !OrderedBounds(r)
  {
    hide *;
    var first, second := LeftoverLegs(settings, k);
    LeftoverConcludes(settings, k, first, second);
    RecoveredAtLoss(settings, k, first);
    NothingBought(settings, k, second);
    CapacityOfFull(first, k);
    LossOnResidual(settings, ThinBook(k), first, second);
  }

  /** A charge of twice the value of a sale. */
  const EXCESSIVE_CHARGE: SimulationSettings :=
    SimulationSettings(SlippageAssumptions(20000.0, 0.0), FillAssumptions(15, 0.6, 0.2, 2, 0.85), 0.95)

  lemma ExcessiveChargeApplies()
    ensures AppliedBps(1, EXCESSIVE_CHARGE.slippage) > 10000.0
  {
    TimesZero(0.0);
  }

  /** One concrete case: twice the value charged on a single bid. */
  lemma ExcessiveSlippageReversesTheBounds()
    ensures var r := SimulationOf(EXCESSIVE_CHARGE, Leftover(1), ThinBook(1), 0);
      r.baseCase < r.downsideBound
  {
    hide *;
    ExcessiveChargeApplies();
    OverchargedSale(EXCESSIVE_CHARGE, 1);
  }

  lemma HalfFilled(legs: seq<FillModelLeg>, assumptions: FillAssumptions)
    requires |legs| == 2 && legs[0].BasketCapacity() == 1.0 && legs[1].BasketCapacity() == 0.0
    ensures Assess(1.0, legs, assumptions).completed == 0.0
  {
    assert Capacities(legs) == [1.0, 0.0];
    assert [1.0, 0.0][..1] == [1.0];
  }

  lemma TwoResiduals(a: Residual, b: Residual)
    ensures ExpectedResidual([a, b]) == a.expectedValue + b.expectedValue
    ensures DownsideResidual([a, b]) == a.downsideValue + b.downsideValue
  {
    assert [a, b][..1] == [a] && [a][..0] == [];
    assert ExpectedResidual([a]) == a.expectedValue && DownsideResidual([a]) == a.downsideValue;
  }
}
