/** What a simulation computes, amount by amount and in instants, for every kind of leg and fill
    (src/constraint_scanner/simulation/engine.py, slippage.py, fragility.py). */
module SimulationAmounts {
  import opened Common
  import opened ExecutablePricing
  import opened BasketPricing
  import opened Opportunities
  import opened FillModel
  import opened Simulation
  import opened SimulationGuarantees

  // ---------------------------------------------------------------- quotes

  /** The quote behind a token is unusable at `at`: there is no book, its book lies at least one
      second in the future, or it is a whole second or more past the limit; a negative limit allows
      no quote. */
  ghost predicate UnusableQuote(books: Books, tokenId: int, at: Instant, limitSeconds: int) {
    || tokenId !in books || limitSeconds < 0
    || books[tokenId].observedAt - at >= 1_000_000
    || at - books[tokenId].observedAt >= (limitSeconds + 1) * 1_000_000
  }

  ghost predicate FutureQuote(books: Books, tokenId: int, at: Instant) {
    tokenId in books && books[tokenId].observedAt - at >= 1_000_000
  }

  /** A simulated leg is stale exactly when its quote is unusable, and mistimed exactly when it lies
      in the future. */
  lemma QuoteIsStaleExactly(settings: SimulationSettings, books: Books, at: Instant, basket: real, leg: PricingLeg)
    requires basket > 0.0
    ensures var s := SimulateLeg(settings, books, at, basket, leg);
      && (s.stale <==> UnusableQuote(books, leg.tokenId, at, settings.fill.staleQuoteSeconds))
      && (s.mistimed <==> FutureQuote(books, leg.tokenId, at))
      && (s.quoteAge.None? <==> leg.tokenId !in books)
  {
    hide TokenFill, ApplySlippage;
  }

  /** A simulated leg as the engine derives it from a pricing leg. */
  ghost predicate DerivedLeg(settings: SimulationSettings, books: Books, at: Instant, basket: real, s: SimulatedLeg) {
    && s.fill == TokenFill(books, s.tokenId, s.side, s.fill.desired)
    && s.fill.desired > 0.0
    && Times(s.unitsPerBasket, basket) == s.fill.desired
    && (s.stale <==> UnusableQuote(books, s.tokenId, at, settings.fill.staleQuoteSeconds))
    && (s.mistimed <==> FutureQuote(books, s.tokenId, at))
    && (s.quoteAge.None? <==> s.tokenId !in books)
  }

  lemma {:induction false} LegsAreDerived(settings: SimulationSettings, books: Books, at: Instant, basket: real, legs: seq<PricingLeg>)
    requires basket > 0.0
    ensures forall s :: s in SimulateLegs(settings, books, at, basket, legs) ==> DerivedLeg(settings, books, at, basket, s)
  {
    hide DerivedLeg, SimulateLeg;
    if legs != [] {
      LegsAreDerived(settings, books, at, basket, legs[..|legs| - 1]);
      var last := legs[|legs| - 1];
      if OrZero(last.requestedQuantity) > 0.0 {
        LegIsDerived(settings, books, at, basket, last);
      }
    }
  }

  lemma {:induction false} LegIsDerived(settings: SimulationSettings, books: Books, at: Instant, basket: real, leg: PricingLeg)
    requires basket > 0.0 && OrZero(leg.requestedQuantity) > 0.0
    ensures DerivedLeg(settings, books, at, basket, SimulateLeg(settings, books, at, basket, leg))
  {
    QuoteIsStaleExactly(settings, books, at, basket, leg);
    SimulatedLegIsSound(settings, books, at, basket, leg);
    hide Times, TokenFill, ApplySlippage, UnusableQuote, FutureQuote, QuoteAge, Stale, Mistimed;
  }

  function AsksForSome(): PricingLeg -> bool {
    (leg: PricingLeg) => leg.requestedQuantity.Some? && leg.requestedQuantity.value > 0.0
  }

  /** The simulated legs are, in order, those pricing legs that ask for something. */
  ghost predicate SameRequests(legs: seq<PricingLeg>, simulated: seq<SimulatedLeg>) {
    var asked := Filter(AsksForSome(), legs);
    && |simulated| == |asked|
    && forall i :: 0 <= i < |asked| ==>
         && simulated[i].tokenId == asked[i].tokenId && simulated[i].side == asked[i].side
         && asked[i].requestedQuantity == Some(simulated[i].fill.desired)
  }

  lemma RequestIsKept(settings: SimulationSettings, books: Books, at: Instant, basket: real, leg: PricingLeg)
    requires basket > 0.0 && OrZero(leg.requestedQuantity) > 0.0
    ensures var s := SimulateLeg(settings, books, at, basket, leg);
      s.tokenId == leg.tokenId && s.side == leg.side && leg.requestedQuantity == Some(s.fill.desired)
  {
    hide WeightedFill, ApplySlippage;
    if leg.tokenId in books { FillKeepsRequest(LevelsForSide(books[leg.tokenId], leg.side), leg.requestedQuantity.value, leg.side); }
  }

  lemma {:induction false} RequestsAreKept(settings: SimulationSettings, books: Books, at: Instant, basket: real, legs: seq<PricingLeg>)
    requires basket > 0.0
    ensures SameRequests(legs, SimulateLegs(settings, books, at, basket, legs))
  {
    hide SimulateLeg;
    if legs != [] {
      var init, last := legs[..|legs| - 1], legs[|legs| - 1];
      RequestsAreKept(settings, books, at, basket, init);
      FilterSplit(AsksForSome(), init, [last]);
      assert legs == init + [last] && [last][1..] == [];
      assert Filter(AsksForSome(), init) + [] == Filter(AsksForSome(), init);
      if OrZero(last.requestedQuantity) > 0.0 { RequestIsKept(settings, books, at, basket, last); }
    }
  }

  // ---------------------------------------------------------------- slippage

  /** The charge on a fill: the base, and the extra once per level after the first. */
  lemma {:induction false} ChargeIsExact(fill: FillComputation, side: Side, slippage: SlippageAssumptions)
    requires fill.average.Some? && fill.filled > 0.0 && fill.consumed != []
    ensures var s := ApplySlippage(fill, side, slippage);
      && s.appliedBps == slippage.baseBps + Times(slippage.perExtraLevelBps, (|fill.consumed| - 1) as real)
      && s.adjustedPrice.Some?
      && s.adjustedNotional == Times(s.adjustedPrice.value, fill.filled)
      && s.adjustedPrice.value
         == fill.average.value + (if side == Buy then Times(fill.average.value, s.appliedBps / 10000.0) else -Times(fill.average.value, s.appliedBps / 10000.0))
  {
    var bps := AppliedBps(|fill.consumed|, slippage) / 10000.0;
    hide Times;
    TimesAdds(fill.average.value, 1.0, bps);
    TimesAdds(fill.average.value, 1.0, -bps);
    TimesAdds(fill.average.value, bps, -bps);
    TimesOne(fill.average.value);
    TimesZero(fill.average.value);
  }

  /** Nothing filled, nothing charged. */
  lemma NothingCharged(fill: FillComputation, side: Side, slippage: SlippageAssumptions)
    requires fill.average.None? || fill.filled <= 0.0
    ensures ApplySlippage(fill, side, slippage) == SlippageResult(0.0, None, 0.0)
  {
  }

  // ---------------------------------------------------------------- residuals and profit

  /** The residual of one leg after `completed` baskets: what exceeds them is sold back if it was
      bought, and otherwise bought back as far as the asks reach and at one dollar beyond. */
  ghost predicate ResidualOf(settings: SimulationSettings, books: Books, leg: SimulatedLeg, completed: real, r: Residual) {
    var used := Times(leg.unitsPerBasket, completed);
    if leg.fill.filled <= used then r == Residual(leg.fill.filled, 0.0, 0.0, 0.0)
    else
      var excess := leg.fill.filled - used;
      var fill := TokenFill(books, leg.tokenId, if leg.side == Buy then Sell else Buy, excess);
      var value := ApplySlippage(fill, if leg.side == Buy then Sell else Buy, settings.slippage).adjustedNotional;
      && r.matched == used && r.excess == excess
      && if leg.side == Buy then r.expectedValue == value && r.downsideValue == 0.0
         else r.expectedValue == r.downsideValue == -(value + (excess - fill.filled))
  }

  lemma {:induction false} ResidualIsExact(settings: SimulationSettings, books: Books, leg: SimulatedLeg, completed: real)
    ensures ResidualOf(settings, books, leg, completed, ResidualValuation(settings, books, leg, completed))
  {
    hide ApplySlippage, WeightedFill, Times;
    var excess := leg.fill.filled - Times(leg.unitsPerBasket, completed);
    FilledAsAsked(books, leg.tokenId, excess);
  }

  lemma FilledAsAsked(books: Books, tokenId: int, quantity: real)
    ensures TokenFill(books, tokenId, Buy, quantity).desired == quantity
  {
    if tokenId in books { FillKeepsRequest(LevelsForSide(books[tokenId], Buy), quantity, Buy); }
  }

  /** The sum of one amount over a list, in any of the program's sums. */
  ghost predicate SumsTo<T>(items: seq<T>, amount: T -> real, total: real) {
    exists partial: seq<real> ::
      && |partial| == |items| + 1 && partial[0] == 0.0 && partial[|items|] == total
      && forall i :: 0 <= i < |items| ==> partial[i + 1] == partial[i] + amount(items[i])
  }

  lemma SumExtends<T>(items: seq<T>, last: T, amount: T -> real, total: real)
    requires SumsTo(items, amount, total)
    ensures SumsTo(items + [last], amount, total + amount(last))
  {
    var partial: seq<real> :| |partial| == |items| + 1 && partial[0] == 0.0 && partial[|items|] == total
      && forall i :: 0 <= i < |items| ==> partial[i + 1] == partial[i] + amount(items[i]);
    var more := partial + [total + amount(last)];
    assert forall i :: 0 <= i < |items + [last]| ==> more[i + 1] == more[i] + amount((items + [last])[i]);
    assert |more| == |items + [last]| + 1 && more[0] == 0.0 && more[|items + [last]|] == total + amount(last);
  }

  lemma SumOfNothing<T>(amount: T -> real)
    ensures SumsTo([], amount, 0.0)
  {
    var partial := [0.0];
    assert |partial| == 1 && partial[0] == 0.0;
  }

  function SignedCost(): SimulatedLeg -> real {
    (leg: SimulatedLeg) => if leg.side == Buy then leg.slippage.adjustedNotional else -leg.slippage.adjustedNotional
  }

  function ExpectedOf(): Residual -> real {
    (r: Residual) => r.expectedValue
  }

  function DownsideOf(): Residual -> real {
    (r: Residual) => r.downsideValue
  }

  lemma {:induction false} NetCostSums(legs: seq<SimulatedLeg>)
    ensures SumsTo(legs, SignedCost(), AdjustedNotional(legs, Buy) - AdjustedNotional(legs, Sell))
  {
    if legs == [] {
      SumOfNothing(SignedCost());
    } else {
      var init, last := legs[..|legs| - 1], legs[|legs| - 1];
      NetCostSums(init);
      SumExtends(init, last, SignedCost(), AdjustedNotional(init, Buy) - AdjustedNotional(init, Sell));
      assert legs == init + [last];
    }
  }

  lemma {:induction false} ResidualSums(residuals: seq<Residual>)
    ensures SumsTo(residuals, ExpectedOf(), ExpectedResidual(residuals))
    ensures SumsTo(residuals, DownsideOf(), DownsideResidual(residuals))
  {
    if residuals == [] {
      SumOfNothing(ExpectedOf());
      SumOfNothing(DownsideOf());
    } else {
      var init, last := residuals[..|residuals| - 1], residuals[|residuals| - 1];
      ResidualSums(init);
      SumExtends(init, last, ExpectedOf(), ExpectedResidual(init));
      SumExtends(init, last, DownsideOf(), DownsideResidual(init));
      assert residuals == init + [last];
    }
  }

  /** The lowest payoff of a list, zero for none. */
  ghost predicate IsFloor(payoffs: seq<real>, floor: real) {
    if payoffs == [] then floor == 0.0 else floor in payoffs && forall p :: p in payoffs ==> floor <= p
  }

  /** The profit figures of a simulation in terms of its legs: payoff of the completed baskets, plus
      the residuals at their expected or their downside value, minus the net cost; the expected
      profit lies between the two as far as the fill probability says. */
  ghost predicate ProfitFigures(settings: SimulationSettings, books: Books, floor: real, r: SimulationResult) {
    && |r.residuals| == |r.legs|
    && (forall i :: 0 <= i < |r.legs| ==> ResidualOf(settings, books, r.legs[i], r.completed, r.residuals[i]))
    && SumsTo(r.legs, SignedCost(), r.netCost)
    && (exists expected, downside ::
          && SumsTo(r.residuals, ExpectedOf(), expected) && SumsTo(r.residuals, DownsideOf(), downside)
          && r.baseCase == Times(floor, r.completed) + expected - r.netCost
          && r.downsideBound == Times(floor, r.completed) + downside - r.netCost)
    && r.expectedPnl == r.downsideBound + Times(r.baseCase - r.downsideBound, r.fillProbability)
  }

  lemma {:induction false} FiguresAreExact(settings: SimulationSettings, books: Books, basket: real, floor: real, legs: seq<SimulatedLeg>)
    ensures var r := Conclude(settings, books, basket, floor, legs); ProfitFigures(settings, books, floor, r) && r.legs == legs
  {
    ConcludedParts(settings, books, basket, floor, legs);
    var r := Conclude(settings, books, basket, floor, legs);
    hide Conclude, SumsTo, ResidualOf, ResidualValuation, Times, AdjustedNotional, ExpectedResidual, DownsideResidual;
    forall i | 0 <= i < |legs| ensures ResidualOf(settings, books, legs[i], r.completed, r.residuals[i]) {
      ResidualIsExact(settings, books, legs[i], r.completed);
    }
    NetCostSums(legs);
    ResidualSums(r.residuals);
    assert SumsTo(r.residuals, ExpectedOf(), ExpectedResidual(r.residuals)) && SumsTo(r.residuals, DownsideOf(), DownsideResidual(r.residuals));
  }

  lemma {:induction false} ConcludedParts(settings: SimulationSettings, books: Books, basket: real, floor: real, legs: seq<SimulatedLeg>)
    ensures var r := Conclude(settings, books, basket, floor, legs);
      && r.legs == legs && r.residuals == Residuals(settings, books, legs, r.completed)
      && r.netCost == AdjustedNotional(legs, Buy) - AdjustedNotional(legs, Sell)
      && r.baseCase == Times(floor, r.completed) + ExpectedResidual(r.residuals) - r.netCost
      && r.downsideBound == Times(floor, r.completed) + DownsideResidual(r.residuals) - r.netCost
      && r.expectedPnl == r.downsideBound + Times(r.baseCase - r.downsideBound, r.fillProbability)
  {
    hide Residuals, Times, AdjustedNotional, ExpectedResidual, DownsideResidual, Assess, ClassifyFragility;
  }

  // ---------------------------------------------------------------- the verdict

  /** No basket can be executed at a profit: a profit figure or the probability is not positive, a
      book is missing or in the future, or nothing completes. */
  ghost predicate Hopeless(books: Books, at: Instant, r: SimulationResult) {
    || r.expectedPnl <= 0.0 || r.downsideBound <= 0.0 || r.fillProbability <= 0.0 || r.completed <= 0.0
    || (exists s :: s in r.legs && (s.tokenId !in books || FutureQuote(books, s.tokenId, at)))
  }

  /** A doubt short of that: too low a probability, an unusable quote, a short leg, baskets that only
      complete in part, or uneven legs. */
  ghost predicate Doubtful(settings: SimulationSettings, books: Books, at: Instant, basket: real, r: SimulationResult) {
    || r.fillProbability < settings.robustThreshold
    || (exists s :: s in r.legs && UnusableQuote(books, s.tokenId, at, settings.fill.staleQuoteSeconds))
    || (exists s :: s in r.legs && s.fill.filled < s.fill.desired)
    || 0.0 < r.completed < basket
    || SomeUneven(ForFillModel(r.legs), settings.fill)
  }

  /** A complete simulation in terms of pricing, books and time: legs, fill probability, flags, profit
      figures and verdict. */
  ghost predicate Simulates(settings: SimulationSettings, details: Details, books: Books, at: Instant, r: SimulationResult) {
    && details.pricing.Some? && details.pricing.value.legs.Some? && details.grossPayoffs.Some?
    && var basket := OrZero(details.pricing.value.basketQuantity);
    && basket > 0.0
    && SameRequests(details.pricing.value.legs.value, r.legs)
    && (forall s :: s in r.legs ==> DerivedLeg(settings, books, at, basket, s))
    && (exists floor :: IsFloor(details.grossPayoffs.value, floor) && ProfitFigures(settings, books, floor, r))
    && (var p := Discounted(basket, r.completed, ForFillModel(r.legs), settings.fill);
        r.fillProbability == if p < 0.0 then 0.0 else if p > 1.0 then 1.0 else p)
    && (forall flag :: flag in r.flags <==>
          if flag == NegativeExpectedPnl then r.expectedPnl <= 0.0
          else Raised(flag, basket, ForFillModel(r.legs), settings.fill, r.completed))
    && (r.classification == NonExecutable <==> Hopeless(books, at, r))
    && (r.classification == Robust <==> !Hopeless(books, at, r) && !Doubtful(settings, books, at, basket, r))
  }

  lemma {:induction false} ConcludedFlags(settings: SimulationSettings, books: Books, basket: real, floor: real, legs: seq<SimulatedLeg>)
    requires basket > 0.0 && legs != []
    ensures var r := Conclude(settings, books, basket, floor, legs);
      && (var p := Discounted(basket, r.completed, ForFillModel(legs), settings.fill);
          r.fillProbability == if p < 0.0 then 0.0 else if p > 1.0 then 1.0 else p)
      && (forall flag :: flag in r.flags <==>
            if flag == NegativeExpectedPnl then r.expectedPnl <= 0.0
            else Raised(flag, basket, ForFillModel(legs), settings.fill, r.completed))
  {
    AssessmentIsExact(basket, ForFillModel(legs), settings.fill);
    hide Assess, Raised, Discounted, ResidualValuation, AdjustedNotional, Times, ClassifyFragility, HoldsBaskets;
    var r := Conclude(settings, books, basket, floor, legs);
    assert !Raised(NegativeExpectedPnl, basket, ForFillModel(legs), settings.fill, r.completed) by { NotAFillFlag(basket, legs, settings.fill, r.completed); }
  }

  lemma NotAFillFlag(basket: real, legs: seq<SimulatedLeg>, assumptions: FillAssumptions, completed: real)
    ensures !Raised(NegativeExpectedPnl, basket, ForFillModel(legs), assumptions, completed)
  {
  }

  /** The classification read off the flags of a conclusion. */
  lemma {:induction false} ConcludedVerdict(settings: SimulationSettings, books: Books, basket: real, floor: real, legs: seq<SimulatedLeg>)
    ensures var r := Conclude(settings, books, basket, floor, legs);
      && (r.classification == NonExecutable <==>
            || r.expectedPnl <= 0.0 || r.downsideBound <= 0.0 || r.fillProbability <= 0.0
            || MissingBook in r.flags || TimingMismatch in r.flags || NonExecutableDepth in r.flags || NegativeExpectedPnl in r.flags)
      && (r.classification == Robust <==>
            && r.classification != NonExecutable && r.fillProbability >= settings.robustThreshold
            && StaleQuote !in r.flags && ShallowMiss !in r.flags && PartialFill !in r.flags && LegAsymmetry !in r.flags)
  {
    hide Assess, ResidualValuation, AdjustedNotional, Times;
  }

  lemma {:induction false} LegFlags(settings: SimulationSettings, books: Books, at: Instant, basket: real, legs: seq<SimulatedLeg>, completed: real)
    requires forall s :: s in legs ==> DerivedLeg(settings, books, at, basket, s)
    ensures var f := ForFillModel(legs);
      && (Raised(StaleQuote, basket, f, settings.fill, completed) <==>
            exists s :: s in legs && UnusableQuote(books, s.tokenId, at, settings.fill.staleQuoteSeconds))
      && (Raised(TimingMismatch, basket, f, settings.fill, completed) <==> exists s :: s in legs && FutureQuote(books, s.tokenId, at))
      && (Raised(MissingBook, basket, f, settings.fill, completed) <==> exists s :: s in legs && s.tokenId !in books)
      && (Raised(ShallowMiss, basket, f, settings.fill, completed) <==> exists s :: s in legs && s.fill.filled < s.fill.desired)
  {
    hide UnusableQuote, FutureQuote, TokenFill, Times;
    var f := ForFillModel(legs);
    forall i | 0 <= i < |legs|
      ensures f[i].stale <==> UnusableQuote(books, legs[i].tokenId, at, settings.fill.staleQuoteSeconds)
      ensures f[i].mistimed <==> FutureQuote(books, legs[i].tokenId, at)
      ensures f[i].quoteAge.None? <==> legs[i].tokenId !in books
      ensures f[i].filled == legs[i].fill.filled && f[i].requested == legs[i].fill.desired
    {
      assert legs[i] in legs;
    }
    hide DerivedLeg;
    assert forall s :: s in legs <==> exists i :: 0 <= i < |legs| && legs[i] == s;
  }

  /** Every simulation that is not refused outright computes exactly this. */
  lemma {:induction false} SimulationIsExact(settings: SimulationSettings, details: Details, books: Books, at: Instant)
    requires SimulationOf(settings, details, books, at).legs != []
    ensures Simulates(settings, details, books, at, SimulationOf(settings, details, books, at))
  {
    ConcludedFrom(settings, details, books, at);
    var basket, floor := OrZero(details.pricing.value.basketQuantity), PayoutFloor(details.grossPayoffs.value);
    var r := SimulationOf(settings, details, books, at);
    FloorIsUnique(details.grossPayoffs.value);
    LegsAreDerived(settings, books, at, basket, details.pricing.value.legs.value);
    RequestsAreKept(settings, books, at, basket, details.pricing.value.legs.value);
    hide *;
    FiguresAreExact(settings, books, basket, floor, r.legs);
    ConcludedFlags(settings, books, basket, floor, r.legs);
    ConcludedVerdict(settings, books, basket, floor, r.legs);
    VerdictOfLegs(settings, books, at, basket, r);
    AllParts(settings, details, books, at, r, floor);
  }

  lemma {:induction false} AllParts(settings: SimulationSettings, details: Details, books: Books, at: Instant, r: SimulationResult, floor: real)
    requires details.pricing.Some? && details.pricing.value.legs.Some? && details.grossPayoffs.Some?
    requires OrZero(details.pricing.value.basketQuantity) > 0.0 && SameRequests(details.pricing.value.legs.value, r.legs)
    requires var basket := OrZero(details.pricing.value.basketQuantity);
      && (forall s :: s in r.legs ==> DerivedLeg(settings, books, at, basket, s))
      && IsFloor(details.grossPayoffs.value, floor) && ProfitFigures(settings, books, floor, r)
      && (var p := Discounted(basket, r.completed, ForFillModel(r.legs), settings.fill);
          r.fillProbability == if p < 0.0 then 0.0 else if p > 1.0 then 1.0 else p)
      && (forall flag :: flag in r.flags <==>
            if flag == NegativeExpectedPnl then r.expectedPnl <= 0.0
            else Raised(flag, basket, ForFillModel(r.legs), settings.fill, r.completed))
      && (r.classification == NonExecutable <==> Hopeless(books, at, r))
      && (r.classification == Robust <==> !Hopeless(books, at, r) && !Doubtful(settings, books, at, basket, r))
    ensures Simulates(settings, details, books, at, r)
  {
    hide DerivedLeg, IsFloor, ProfitFigures, Discounted, Raised, Hopeless, Doubtful, SameRequests;
  }

  lemma {:induction false} VerdictOfLegs(settings: SimulationSettings, books: Books, at: Instant, basket: real, r: SimulationResult)
    requires basket > 0.0
    requires forall s :: s in r.legs ==> DerivedLeg(settings, books, at, basket, s)
    requires forall flag :: flag in r.flags <==>
      if flag == NegativeExpectedPnl then r.expectedPnl <= 0.0
      else Raised(flag, basket, ForFillModel(r.legs), settings.fill, r.completed)
    requires r.classification == NonExecutable <==>
      || r.expectedPnl <= 0.0 || r.downsideBound <= 0.0 || r.fillProbability <= 0.0
      || MissingBook in r.flags || TimingMismatch in r.flags || NonExecutableDepth in r.flags || NegativeExpectedPnl in r.flags
    requires r.classification == Robust <==>
      && r.classification != NonExecutable && r.fillProbability >= settings.robustThreshold
      && StaleQuote !in r.flags && ShallowMiss !in r.flags && PartialFill !in r.flags && LegAsymmetry !in r.flags
    ensures r.classification == NonExecutable <==> Hopeless(books, at, r)
    ensures r.classification == Robust <==> !Hopeless(books, at, r) && !Doubtful(settings, books, at, basket, r)
  {
    LegFlags(settings, books, at, basket, r.legs, r.completed);
    DepthFlagsOf(settings, basket, r.legs, r.completed);
    hide DerivedLeg, Raised, UnusableQuote, FutureQuote, SomeUneven;
    assert Hopeless(books, at, r) <==>
      || r.expectedPnl <= 0.0 || r.downsideBound <= 0.0 || r.fillProbability <= 0.0 || r.completed <= 0.0
      || (exists s :: s in r.legs && s.tokenId !in books) || (exists s :: s in r.legs && FutureQuote(books, s.tokenId, at));
  }

  lemma DepthFlagsOf(settings: SimulationSettings, basket: real, legs: seq<SimulatedLeg>, completed: real)
    ensures var f := ForFillModel(legs);
      && (Raised(PartialFill, basket, f, settings.fill, completed) <==> 0.0 < completed < basket)
      && (Raised(NonExecutableDepth, basket, f, settings.fill, completed) <==> completed <= 0.0)
      && (Raised(LegAsymmetry, basket, f, settings.fill, completed) <==> SomeUneven(f, settings.fill))
  {
    hide SomeUneven;
  }

  /** When a simulation is refused outright: pricing, legs or payoffs are missing, the basket or the
      payoff floor is not positive, or no leg asks for anything. */
  lemma {:induction false} RefusedExactly(settings: SimulationSettings, details: Details, books: Books, at: Instant)
    ensures var r := SimulationOf(settings, details, books, at);
      (r.legs == [] <==>
        || details.pricing.None? || details.pricing.value.legs.None? || details.grossPayoffs.None?
        || OrZero(details.pricing.value.basketQuantity) <= 0.0
        || (exists floor :: IsFloor(details.grossPayoffs.value, floor) && floor <= 0.0)
        || (forall l :: l in details.pricing.value.legs.value ==> OrZero(l.requestedQuantity) <= 0.0))
    ensures var r := SimulationOf(settings, details, books, at);
      r.legs == [] ==> r.classification == NonExecutable && r.flags == {InvalidOpportunityPayload} && r.fillProbability == r.expectedPnl == 0.0
  {
    if details.pricing.Some? && details.pricing.value.legs.Some? && details.grossPayoffs.Some? {
      FloorIsUnique(details.grossPayoffs.value);
      assert IsFloor(details.grossPayoffs.value, PayoutFloor(details.grossPayoffs.value));
      var basket := OrZero(details.pricing.value.basketQuantity);
      if basket > 0.0 { SomeLegAsks(settings, books, at, basket, details.pricing.value.legs.value); }
    }
    hide SimulateLegs, PayoutFloor, IsFloor, Assess, ResidualValuation, AdjustedNotional, Times, ClassifyFragility;
  }

  lemma FloorIsUnique(payoffs: seq<real>)
    ensures forall floor :: IsFloor(payoffs, floor) <==> floor == PayoutFloor(payoffs)
  {
  }

  lemma {:induction false} SomeLegAsks(settings: SimulationSettings, books: Books, at: Instant, basket: real, legs: seq<PricingLeg>)
    requires basket > 0.0
    ensures SimulateLegs(settings, books, at, basket, legs) == [] <==> forall l :: l in legs ==> OrZero(l.requestedQuantity) <= 0.0
  {
    hide SimulateLeg;
    if legs != [] {
      SomeLegAsks(settings, books, at, basket, legs[..|legs| - 1]);
      assert forall l :: l in legs <==> l in legs[..|legs| - 1] || l == legs[|legs| - 1];
    }
  }
}
