/** Stress simulation of a stored opportunity against later books
    (src/constraint_scanner/simulation/engine.py). */
module Simulation {
  import opened Common
  import opened ExecutablePricing
  import opened BasketPricing
  import opened Opportunities
  import opened FillModel

  datatype SimulationSettings = SimulationSettings(
    slippage: SlippageAssumptions, fill: FillAssumptions, robustThreshold: real)

  datatype SimulatedLeg = SimulatedLeg(
    tokenId: int, side: Side, unitsPerBasket: real, fill: FillComputation, slippage: SlippageResult,
    quoteAge: Option<int>, stale: bool, mistimed: bool)
  {
    function ForFillModel(): FillModelLeg {
      FillModelLeg(fill.desired, fill.filled, unitsPerBasket, quoteAge, stale, mistimed, |fill.consumed|)
    }
  }

  datatype Residual = Residual(matched: real, excess: real, expectedValue: real, downsideValue: real)

  datatype SimulationResult = SimulationResult(
    classification: Classification, fillProbability: real, expectedPnl: real, downsideBound: real, baseCase: real,
    completed: real, netCost: real, flags: set<Flag>, legs: seq<SimulatedLeg>, residuals: seq<Residual>)

  /** Whole seconds between two instants, truncated toward zero. */
  function ElapsedSeconds(from: Instant, to: Instant): int {
    if to >= from then (to - from) / MICROSECONDS_PER_SECOND else -((from - to) / MICROSECONDS_PER_SECOND)
  }

  function QuoteAge(books: Books, tokenId: int, at: Instant): Option<int> {
    if tokenId in books then Some(ElapsedSeconds(books[tokenId].observedAt, at)) else None
  }

  /** A quote counts as mistimed exactly when its book lies at least one whole second in the
      future: truncation forgives anything closer. */
  lemma MistimedExactly(books: Books, tokenId: int, at: Instant)
    requires tokenId in books
    ensures QuoteAge(books, tokenId, at).value < 0 <==> books[tokenId].observedAt - at >= MICROSECONDS_PER_SECOND
  {
  }

  predicate Mistimed(age: Option<int>) { age.Some? && age.value < 0 }

  predicate Stale(age: Option<int>, settings: SimulationSettings) {
    age.None? || age.value < 0 || age.value > settings.fill.staleQuoteSeconds
  }

  function SimulateLeg(settings: SimulationSettings, books: Books, at: Instant, basket: real, leg: PricingLeg): SimulatedLeg
    requires basket > 0.0
  {
    var requested := OrZero(leg.requestedQuantity);
    var fill := TokenFill(books, leg.tokenId, leg.side, requested);
    var age := QuoteAge(books, leg.tokenId, at);
    SimulatedLeg(leg.tokenId, leg.side, requested / basket, fill, ApplySlippage(fill, leg.side, settings.slippage),
                 age, Stale(age, settings), Mistimed(age))
  }

  /** The legs that ask for a positive quantity, in order; the others are skipped. */
  function SimulateLegs(settings: SimulationSettings, books: Books, at: Instant, basket: real, legs: seq<PricingLeg>): seq<SimulatedLeg>
    requires basket > 0.0
  {
    if legs == [] then []
    else
      var init, last := SimulateLegs(settings, books, at, basket, legs[..|legs| - 1]), legs[|legs| - 1];
      if OrZero(last.requestedQuantity) <= 0.0 then init else init + [SimulateLeg(settings, books, at, basket, last)]
  }

  function ForFillModel(legs: seq<SimulatedLeg>): seq<FillModelLeg> {
    seq(|legs|, i requires 0 <= i < |legs| => legs[i].ForFillModel())
  }

  function AdjustedNotional(legs: seq<SimulatedLeg>, side: Side): real {
    if legs == [] then 0.0
    else
      var last := legs[|legs| - 1];
      AdjustedNotional(legs[..|legs| - 1], side) + if last.side == side then last.slippage.adjustedNotional else 0.0
  }

  /** What the units of a leg beyond the completed baskets are worth: bought units are sold back
      into the bids, sold units are bought back from the asks and, past them, at one dollar. */
  function ResidualValuation(settings: SimulationSettings, books: Books, leg: SimulatedLeg, completed: real): Residual {
    var matched := Min(leg.fill.filled, Times(leg.unitsPerBasket, completed));
    var excess := Max(leg.fill.filled - matched, 0.0);
    if excess <= 0.0 then Residual(matched, excess, 0.0, 0.0)
    else if leg.side == Buy then
      var recovery := TokenFill(books, leg.tokenId, Sell, excess);
      Residual(matched, excess, ApplySlippage(recovery, Sell, settings.slippage).adjustedNotional, 0.0)
    else
      var cover := TokenFill(books, leg.tokenId, Buy, excess);
      var cost := ApplySlippage(cover, Buy, settings.slippage).adjustedNotional + cover.Unfilled();
      Residual(matched, excess, -cost, -cost)
  }

  function Residuals(settings: SimulationSettings, books: Books, legs: seq<SimulatedLeg>, completed: real): seq<Residual> {
    seq(|legs|, i requires 0 <= i < |legs| => ResidualValuation(settings, books, legs[i], completed))
  }

  function ExpectedResidual(residuals: seq<Residual>): real {
    if residuals == [] then 0.0 else ExpectedResidual(residuals[..|residuals| - 1]) + residuals[|residuals| - 1].expectedValue
  }

  function DownsideResidual(residuals: seq<Residual>): real {
    if residuals == [] then 0.0 else DownsideResidual(residuals[..|residuals| - 1]) + residuals[|residuals| - 1].downsideValue
  }

  const INVALID_RESULT: SimulationResult :=
    SimulationResult(NonExecutable, 0.0, 0.0, 0.0, 0.0, 0.0, 0.0, {InvalidOpportunityPayload}, [], [])

  function PayoutFloor(payoffs: seq<real>): real {
    if payoffs == [] then 0.0 else Least(payoffs)
  }

  /** The result once the legs have been simulated. */
  function Conclude(settings: SimulationSettings, books: Books, basket: real, payoutFloor: real, legs: seq<SimulatedLeg>): SimulationResult {
    var assessment := Assess(basket, ForFillModel(legs), settings.fill);
    var netCost := AdjustedNotional(legs, Buy) - AdjustedNotional(legs, Sell);
    var guaranteed := Times(payoutFloor, assessment.completed);
    var residuals := Residuals(settings, books, legs, assessment.completed);
    var baseCase := guaranteed + ExpectedResidual(residuals) - netCost;
    var downside := guaranteed + DownsideResidual(residuals) - netCost;
    var expected := downside + Times(baseCase - downside, assessment.fillProbability);
    var flags := assessment.flags + Flagged(NegativeExpectedPnl, expected <= 0.0);
    SimulationResult(
      ClassifyFragility(expected, downside, assessment.fillProbability, flags, settings.robustThreshold),
      assessment.fillProbability, expected, downside, baseCase, assessment.completed, netCost, flags, legs, residuals)
  }

  function SimulationOf(settings: SimulationSettings, details: Details, books: Books, at: Instant): SimulationResult {
    if details.pricing.None? || details.pricing.value.legs.None? || details.grossPayoffs.None? then INVALID_RESULT
    else
      var basket := OrZero(details.pricing.value.basketQuantity);
      var payoutFloor := PayoutFloor(details.grossPayoffs.value);
      if basket <= 0.0 || payoutFloor <= 0.0 then INVALID_RESULT
      else
        var legs := SimulateLegs(settings, books, at, basket, details.pricing.value.legs.value);
        if legs == [] then INVALID_RESULT else Conclude(settings, books, basket, payoutFloor, legs)
  }

  method Simulate(settings: SimulationSettings, details: Details, books: Books, at: Instant) returns (r: SimulationResult)
    ensures r == SimulationOf(settings, details, books, at)
  {
    hide Assess, ResidualValuation, AdjustedNotional, Times, SimulateLeg, ClassifyFragility;
    if details.pricing.None? || details.pricing.value.legs.None? || details.grossPayoffs.None? {
      return INVALID_RESULT;
    }
    var basket := OrZero(details.pricing.value.basketQuantity);
    var payoutFloor := PayoutFloor(details.grossPayoffs.value);
    if basket <= 0.0 || payoutFloor <= 0.0 {
      return INVALID_RESULT;
    }
    var rawLegs := details.pricing.value.legs.value;
    var legs: seq<SimulatedLeg> := [];
    var fillLegs: seq<FillModelLeg> := [];
    for i := 0 to |rawLegs|
      invariant legs == SimulateLegs(settings, books, at, basket, rawLegs[..i])
      invariant fillLegs == ForFillModel(legs)
    {
      assert rawLegs[..i + 1][..i] == rawLegs[..i] && rawLegs[..i + 1][i] == rawLegs[i];
      if OrZero(rawLegs[i].requestedQuantity) > 0.0 {
        var leg := SimulateLeg(settings, books, at, basket, rawLegs[i]);
        legs := legs + [leg];
        fillLegs := fillLegs + [leg.ForFillModel()];
      }
    }
    assert rawLegs[..|rawLegs|] == rawLegs;
    if legs == [] {
      return INVALID_RESULT;
    }
    var assessment := AssessBasketFill(basket, fillLegs, settings.fill);
    var netCost := AdjustedNotional(legs, Buy) - AdjustedNotional(legs, Sell);
    var guaranteed := Times(payoutFloor, assessment.completed);
    var residuals := Residuals(settings, books, legs, assessment.completed);
    var baseCase := guaranteed + ExpectedResidual(residuals) - netCost;
    var downside := guaranteed + DownsideResidual(residuals) - netCost;
    var expected := downside + Times(baseCase - downside, assessment.fillProbability);
    var flags := assessment.flags;
    if expected <= 0.0 {
      flags := flags + {NegativeExpectedPnl};
    }
    assert flags == assessment.flags + Flagged(NegativeExpectedPnl, expected <= 0.0);
    var classification := ClassifyFragility(expected, downside, assessment.fillProbability, flags, settings.robustThreshold);
    r := SimulationResult(classification, assessment.fillProbability, expected, downside, baseCase,
                          assessment.completed, netCost, flags, legs, residuals);
  }

  // ---------------------------------------------------------------- facts about the legs

  lemma TokenFillFacts(books: Books, tokenId: int, side: Side, quantity: real)
    requires quantity >= 0.0
    ensures var f := TokenFill(books, tokenId, side, quantity);
      && f.desired == quantity
      && 0.0 <= f.filled <= quantity
      && (f.average.Some? <==> f.filled > 0.0)
      && (f.average.Some? ==> Times(f.average.value, f.filled) == f.notional)
      && (f.average.None? ==> f.notional == 0.0)
  {
    if tokenId in books {
      var levels := LevelsForSide(books[tokenId], side);
      FilledQuantityExact(levels, quantity, side);
      SlicesAccountForFill(levels, quantity, side);
      FillKeepsRequest(levels, quantity, side);
      DepthNonNegative(levels);
    }
  }

  /** What is known of every simulated leg, whatever opportunity it comes from. */
  ghost predicate SoundLeg(settings: SimulationSettings, books: Books, basket: real, leg: SimulatedLeg) {
    && leg.fill == TokenFill(books, leg.tokenId, leg.side, leg.fill.desired)
    && leg.slippage == ApplySlippage(leg.fill, leg.side, settings.slippage)
    && leg.fill.desired > 0.0
    && 0.0 <= leg.fill.filled <= leg.fill.desired
    && leg.unitsPerBasket > 0.0
    && Times(leg.unitsPerBasket, basket) == leg.fill.desired
  }

  lemma SimulatedLegIsSound(settings: SimulationSettings, books: Books, at: Instant, basket: real, leg: PricingLeg)
    requires basket > 0.0 && OrZero(leg.requestedQuantity) > 0.0
    ensures SoundLeg(settings, books, basket, SimulateLeg(settings, books, at, basket, leg))
  {
    hide Times, WeightedFill;
    var requested := OrZero(leg.requestedQuantity);
    TokenFillFacts(books, leg.tokenId, leg.side, requested);
    QuotientTimes(requested, basket);
    PositiveQuotient(requested, basket);
  }

  lemma PositiveQuotient(a: real, b: real)
    requires a > 0.0 && b > 0.0
    ensures a / b > 0.0
  {
  }

  lemma {:induction false} SimulatedLegsAreSound(settings: SimulationSettings, books: Books, at: Instant, basket: real, legs: seq<PricingLeg>)
    requires basket > 0.0
    ensures forall l :: l in SimulateLegs(settings, books, at, basket, legs) ==> SoundLeg(settings, books, basket, l)
  {
    hide SoundLeg, SimulateLeg;
    if legs != [] {
      SimulatedLegsAreSound(settings, books, at, basket, legs[..|legs| - 1]);
      var last := legs[|legs| - 1];
      if OrZero(last.requestedQuantity) > 0.0 {
        SimulatedLegIsSound(settings, books, at, basket, last);
      }
    }
  }

  // ---------------------------------------------------------------- robustness

  /** A leg whose excess is gone has no residual value either way. */
  lemma NoExcessNoResidual(settings: SimulationSettings, books: Books, leg: SimulatedLeg, completed: real)
    requires leg.fill.filled <= Times(leg.unitsPerBasket, completed)
    ensures ResidualValuation(settings, books, leg, completed) == Residual(leg.fill.filled, 0.0, 0.0, 0.0)
  {
  }

  lemma {:induction false} ZeroResiduals(residuals: seq<Residual>)
    requires forall r :: r in residuals ==> r.expectedValue == r.downsideValue == 0.0
    ensures ExpectedResidual(residuals) == DownsideResidual(residuals) == 0.0
  {
    if residuals != [] {
      ZeroResiduals(residuals[..|residuals| - 1]);
      assert residuals[|residuals| - 1] in residuals;
    }
  }

  lemma FullLeg(settings: SimulationSettings, books: Books, basket: real, leg: SimulatedLeg)
    requires basket > 0.0 && SoundLeg(settings, books, basket, leg) && leg.fill.filled == leg.fill.desired
    ensures leg.ForFillModel().BasketCapacity() == basket && leg.ForFillModel().CompletionRatio() == 1.0
    ensures ResidualValuation(settings, books, leg, basket) == Residual(leg.fill.filled, 0.0, 0.0, 0.0)
  {
    hide ApplySlippage, TokenFill;
    FullCapacity(leg.fill.filled, leg.unitsPerBasket, basket);
    hide Times;
    NoExcessNoResidual(settings, books, leg, basket);
  }

  lemma FullCapacity(filled: real, units: real, basket: real)
    requires units > 0.0 && Times(units, basket) == filled && filled > 0.0
    ensures filled / units == basket && filled / filled == 1.0
  {
  }

  lemma ConstantSequence(xs: seq<real>, c: real)
    requires xs != [] && forall i :: 0 <= i < |xs| ==> xs[i] == c
    ensures Least(xs) == Greatest(xs) == c
  {
  }

  /** When every leg fills in full, the whole requested basket completes and nothing is left over. */
  lemma {:induction false} FullFillsComplete(settings: SimulationSettings, books: Books, basket: real, legs: seq<SimulatedLeg>)
    requires basket > 0.0 && legs != []
    requires forall l :: l in legs ==> SoundLeg(settings, books, basket, l) && l.fill.filled == l.fill.desired
    ensures var a := Assess(basket, ForFillModel(legs), settings.fill);
      && a.completed == basket && a.completionRatio == 1.0 && a.ratioGap == 0.0
      && (forall r :: r in Residuals(settings, books, legs, basket) ==> r.excess == r.expectedValue == r.downsideValue == 0.0)
  {
    hide Times, SoundLeg, ResidualValuation, MaxLevels, MinLevels, RawProbability;
    var fillLegs := ForFillModel(legs);
    forall i | 0 <= i < |legs|
      ensures Capacities(fillLegs)[i] == basket && Ratios(fillLegs)[i] == 1.0
      ensures Residuals(settings, books, legs, basket)[i] == Residual(legs[i].fill.filled, 0.0, 0.0, 0.0)
    {
      assert legs[i] in legs;
      FullLeg(settings, books, basket, legs[i]);
    }
    ConstantSequence(Capacities(fillLegs), basket);
    ConstantSequence(Ratios(fillLegs), 1.0);
  }

  lemma RobustHasNoShortLeg(settings: SimulationSettings, books: Books, basket: real, payoutFloor: real, legs: seq<SimulatedLeg>)
    requires basket > 0.0 && legs != []
    requires Conclude(settings, books, basket, payoutFloor, legs).classification == Robust
    ensures !AnyShort(ForFillModel(legs))
    ensures var r := Conclude(settings, books, basket, payoutFloor, legs);
      r.expectedPnl > 0.0 && settings.robustThreshold <= r.fillProbability
  {
    hide Times, AdjustedNotional, ResidualValuation, RawProbability, AnyShort, AnyStale, AnyMistimed, AnyUnquoted, MaxLevels, MinLevels;
    assert ShallowMiss !in Assess(basket, ForFillModel(legs), settings.fill).flags;
  }

  /** A ROBUST verdict certifies profit on the books it was computed on, for any mix of bought and
      sold legs: every leg fills its whole request, the requested baskets complete, nothing is
      left over, and the payout floor of the basket exceeds its slippage-adjusted cost. */
  lemma {:induction false} RobustCertifiesProfit(settings: SimulationSettings, details: Details, books: Books, at: Instant)
    requires SimulationOf(settings, details, books, at).classification == Robust
    ensures var r := SimulationOf(settings, details, books, at);
      && details.pricing.Some? && details.grossPayoffs.Some? && r.legs != []
      && var basket := OrZero(details.pricing.value.basketQuantity);
      && (forall l :: l in r.legs ==> l.fill.filled == l.fill.desired > 0.0)
      && r.completed == basket > 0.0
      && (forall v :: v in r.residuals ==> v.excess == v.expectedValue == v.downsideValue == 0.0)
      && r.netCost == AdjustedNotional(r.legs, Buy) - AdjustedNotional(r.legs, Sell)
      && r.baseCase == r.expectedPnl == r.downsideBound == Times(PayoutFloor(details.grossPayoffs.value), basket) - r.netCost
      && r.expectedPnl > 0.0
      && settings.robustThreshold <= r.fillProbability
  {
    hide Times, AdjustedNotional, SimulateLegs, ResidualValuation, Assess, ClassifyFragility;
    var r := SimulationOf(settings, details, books, at);
    var basket := OrZero(details.pricing.value.basketQuantity);
    RobustHasNoShortLeg(settings, books, basket, PayoutFloor(details.grossPayoffs.value), r.legs);
    SimulatedLegsAreSound(settings, books, at, basket, details.pricing.value.legs.value);
    var fillLegs := ForFillModel(r.legs);
    forall l | l in r.legs ensures l.fill.filled == l.fill.desired > 0.0 {
      var i :| 0 <= i < |r.legs| && r.legs[i] == l;
      assert !(fillLegs[i].filled < fillLegs[i].requested);
      assert SoundLeg(settings, books, basket, l);
    }
    FullFillsComplete(settings, books, basket, r.legs);
    ZeroResiduals(r.residuals);
    TimesZero(r.fillProbability);
  }
}
