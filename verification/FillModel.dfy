/** Slippage, basket completion and classification
    (src/constraint_scanner/simulation/slippage.py, fill_model.py, fragility.py). */
module FillModel {
  import opened Common
  import opened ExecutablePricing

  datatype Classification = NonExecutable | Fragile | Robust

  datatype Flag =
    | InvalidOpportunityPayload | InvalidRequestedQuantity | MissingBook | TimingMismatch | StaleQuote
    | ShallowMiss | PartialFill | LegAsymmetry | NonExecutableDepth | NegativeExpectedPnl

  // ---------------------------------------------------------------- slippage

  datatype SlippageAssumptions = SlippageAssumptions(baseBps: real, perExtraLevelBps: real)

  datatype SlippageResult = SlippageResult(appliedBps: real, adjustedPrice: Option<real>, adjustedNotional: real)

  function AppliedBps(levels: nat, assumptions: SlippageAssumptions): real {
    var extra := if levels > 1 then levels - 1 else 0;
    assumptions.baseBps + Times(assumptions.perExtraLevelBps, extra as real)
  }

  function ApplySlippage(fill: FillComputation, side: Side, assumptions: SlippageAssumptions): SlippageResult {
    if fill.average.None? || fill.filled <= 0.0 then SlippageResult(0.0, None, 0.0)
    else
      var bps := AppliedBps(|fill.consumed|, assumptions);
      var adjustment := if side == Sell then 1.0 - bps / 10000.0 else 1.0 + bps / 10000.0;
      var price := Times(fill.average.value, adjustment);
      SlippageResult(bps, Some(price), Times(price, fill.filled))
  }

  /** Slippage moves the notional of a fill against the order by the applied share. */
  lemma SlippageIsShareOfNotional(fill: FillComputation, side: Side, assumptions: SlippageAssumptions)
    requires fill.average.Some? ==> Times(fill.average.value, fill.filled) == fill.notional
    requires fill.average.None? ==> fill.notional == 0.0
    requires fill.filled >= 0.0 && (fill.average.Some? <==> fill.filled > 0.0)
    ensures var slip := ApplySlippage(fill, side, assumptions);
      Signed(side, slip.adjustedNotional) == Signed(side, fill.notional) + Times(fill.notional, slip.appliedBps / 10000.0)
  {
    if fill.average.Some? {
      var share := AppliedBps(|fill.consumed|, assumptions) / 10000.0;
      hide Times, AppliedBps;
      var p, q := fill.average.value, fill.filled;
      TimesAdds(p, 1.0, share);
      TimesAdds(p, 1.0, -share);
      TimesAdds(p, share, -share);
      TimesOne(p);
      TimesZero(p);
      TimesAdds(q, p, Times(p, share));
      TimesAdds(q, p, Times(p, -share));
      TimesAdds(q, Times(p, share), Times(p, -share));
      TimesZero(q);
      TimesAssociates(p, share, q);
      TimesAssociates(p, q, share);
      TimesCommutes(q, share);
    } else {
      TimesZero(ApplySlippage(fill, side, assumptions).appliedBps / 10000.0);
    }
  }

  // ---------------------------------------------------------------- basket completion

  datatype FillAssumptions = FillAssumptions(
    staleQuoteSeconds: int, staleQuoteFactor: real, asymmetryRatioThreshold: real,
    asymmetryLevelGapThreshold: int, asymmetryFactor: real)

  datatype FillModelLeg = FillModelLeg(
    requested: real, filled: real, unitsPerBasket: real, quoteAge: Option<int>, stale: bool, mistimed: bool, levels: nat)
  {
    function CompletionRatio(): real {
      if requested <= 0.0 then 0.0 else filled / requested
    }

    function BasketCapacity(): real {
      if unitsPerBasket <= 0.0 then 0.0 else filled / unitsPerBasket
    }
  }

  datatype Assessment = Assessment(
    completed: real, completionRatio: real, fillProbability: real, flags: set<Flag>, ratioGap: real, levelGap: int)

  function Capacities(legs: seq<FillModelLeg>): seq<real> {
    seq(|legs|, i requires 0 <= i < |legs| => legs[i].BasketCapacity())
  }

  function Ratios(legs: seq<FillModelLeg>): seq<real> {
    seq(|legs|, i requires 0 <= i < |legs| => legs[i].CompletionRatio())
  }

  function MaxLevels(legs: seq<FillModelLeg>): int
    requires legs != []
  {
    var last := legs[|legs| - 1].levels;
    if |legs| == 1 then last
    else
      var rest := MaxLevels(legs[..|legs| - 1]);
      if last > rest then last else rest
  }

  function MinLevels(legs: seq<FillModelLeg>): int
    requires legs != []
  {
    var last := legs[|legs| - 1].levels;
    if |legs| == 1 then last
    else
      var rest := MinLevels(legs[..|legs| - 1]);
      if last < rest then last else rest
  }

  predicate AnyStale(legs: seq<FillModelLeg>) { exists i :: 0 <= i < |legs| && legs[i].stale }

  predicate AnyMistimed(legs: seq<FillModelLeg>) { exists i :: 0 <= i < |legs| && legs[i].mistimed }

  predicate AnyShort(legs: seq<FillModelLeg>) { exists i :: 0 <= i < |legs| && legs[i].filled < legs[i].requested }

  predicate AnyUnquoted(legs: seq<FillModelLeg>) { exists i :: 0 <= i < |legs| && legs[i].quoteAge.None? }

  predicate Asymmetric(legs: seq<FillModelLeg>, assumptions: FillAssumptions)
    requires legs != []
  {
    || Greatest(Ratios(legs)) - Least(Ratios(legs)) > assumptions.asymmetryRatioThreshold
    || MaxLevels(legs) - MinLevels(legs) >= assumptions.asymmetryLevelGapThreshold
  }

  function Flagged(flag: Flag, raised: bool): set<Flag> {
    if raised then {flag} else {}
  }

  function QuoteFlags(legs: seq<FillModelLeg>): set<Flag> {
    Flagged(StaleQuote, AnyStale(legs)) + Flagged(TimingMismatch, AnyMistimed(legs)) + Flagged(MissingBook, AnyUnquoted(legs))
  }

  function DepthFlags(requested: real, completed: real, legs: seq<FillModelLeg>): set<Flag> {
    Flagged(ShallowMiss, AnyShort(legs)) + Flagged(PartialFill, 0.0 < completed < requested)
    + Flagged(NonExecutableDepth, completed <= 0.0)
  }

  function RawProbability(ratio: real, legs: seq<FillModelLeg>, assumptions: FillAssumptions): real
    requires legs != []
  {
    var aged := if AnyStale(legs) then Times(ratio, assumptions.staleQuoteFactor) else ratio;
    var timed := if AnyMistimed(legs) then 0.0 else aged;
    if Asymmetric(legs, assumptions) then Times(timed, assumptions.asymmetryFactor) else timed
  }

  function Assess(requested: real, legs: seq<FillModelLeg>, assumptions: FillAssumptions): Assessment {
    if requested <= 0.0 || legs == [] then Assessment(0.0, 0.0, 0.0, {InvalidRequestedQuantity}, 0.0, 0)
    else
      var completed := Least(Capacities(legs));
      var ratio := completed / requested;
      Assessment(
        completed, ratio, Max(0.0, Min(RawProbability(ratio, legs, assumptions), 1.0)),
        QuoteFlags(legs) + DepthFlags(requested, completed, legs) + Flagged(LegAsymmetry, Asymmetric(legs, assumptions)),
        Greatest(Ratios(legs)) - Least(Ratios(legs)), MaxLevels(legs) - MinLevels(legs))
  }

  // ---------------------------------------------------------------- the assessment, leg by leg

  /** The baskets one leg holds enough for. */
  ghost predicate HoldsBaskets(leg: FillModelLeg, baskets: real) {
    if leg.unitsPerBasket <= 0.0 then baskets == 0.0 else baskets * leg.unitsPerBasket == leg.filled
  }

  /** The share of its request that a leg filled. */
  ghost predicate FilledShare(leg: FillModelLeg, share: real) {
    if leg.requested <= 0.0 then share == 0.0 else share * leg.requested == leg.filled
  }

  /** Two legs differ by more than the allowed share, or by the allowed number of levels. */
  ghost predicate Uneven(a: FillModelLeg, b: FillModelLeg, assumptions: FillAssumptions) {
    || (exists x, y :: FilledShare(a, x) && FilledShare(b, y) && x - y > assumptions.asymmetryRatioThreshold)
    || a.levels - b.levels >= assumptions.asymmetryLevelGapThreshold
  }

  ghost predicate SomeUneven(legs: seq<FillModelLeg>, assumptions: FillAssumptions) {
    exists i, j :: 0 <= i < |legs| && 0 <= j < |legs| && Uneven(legs[i], legs[j], assumptions)
  }

  /** The probability before it is cut to [0, 1]: the completed share, times the stale factor if some
      quote is stale and the asymmetry factor if some legs are uneven; zero if some quote is mistimed. */
  ghost function Discounted(requested: real, completed: real, legs: seq<FillModelLeg>, assumptions: FillAssumptions): real
    requires requested > 0.0
  {
    if exists i :: 0 <= i < |legs| && legs[i].mistimed then 0.0
    else
      var ageFactor := if exists i :: 0 <= i < |legs| && legs[i].stale then assumptions.staleQuoteFactor else 1.0;
      var evenFactor := if SomeUneven(legs, assumptions) then assumptions.asymmetryFactor else 1.0;
      Times(Times(completed / requested, ageFactor), evenFactor)
  }

  /** When one flag is raised. */
  ghost predicate Raised(flag: Flag, requested: real, legs: seq<FillModelLeg>, assumptions: FillAssumptions, completed: real) {
    match flag
    case StaleQuote => exists i :: 0 <= i < |legs| && legs[i].stale
    case TimingMismatch => exists i :: 0 <= i < |legs| && legs[i].mistimed
    case MissingBook => exists i :: 0 <= i < |legs| && legs[i].quoteAge.None?
    case ShallowMiss => exists i :: 0 <= i < |legs| && legs[i].filled < legs[i].requested
    case PartialFill => 0.0 < completed < requested
    case NonExecutableDepth => completed <= 0.0
    case LegAsymmetry => SomeUneven(legs, assumptions)
    case InvalidOpportunityPayload => false
    case InvalidRequestedQuantity => false
    case NegativeExpectedPnl => false
  }

  /** What an assessment says, in terms of the legs. */
  ghost predicate Assesses(requested: real, legs: seq<FillModelLeg>, assumptions: FillAssumptions, r: Assessment) {
    if requested <= 0.0 || legs == [] then
      r.completed == r.completionRatio == r.fillProbability == r.ratioGap == 0.0 && r.levelGap == 0 && r.flags == {InvalidRequestedQuantity}
    else
      && (forall i, baskets :: 0 <= i < |legs| && HoldsBaskets(legs[i], baskets) ==> r.completed <= baskets)
      && (exists i :: 0 <= i < |legs| && HoldsBaskets(legs[i], r.completed))
      && Times(r.completionRatio, requested) == r.completed
      && (var p := Discounted(requested, r.completed, legs, assumptions);
          r.fillProbability == if p < 0.0 then 0.0 else if p > 1.0 then 1.0 else p)
      && (forall flag :: flag in r.flags <==> Raised(flag, requested, legs, assumptions, r.completed))
  }

  lemma {:induction false} LevelExtremes(legs: seq<FillModelLeg>)
    requires legs != []
    ensures forall i :: 0 <= i < |legs| ==> MinLevels(legs) <= legs[i].levels <= MaxLevels(legs)
    ensures exists i :: 0 <= i < |legs| && legs[i].levels == MaxLevels(legs)
    ensures exists i :: 0 <= i < |legs| && legs[i].levels == MinLevels(legs)
  {
    var n := |legs| - 1;
    if n > 0 {
      LevelExtremes(legs[..n]);
      var i :| 0 <= i < n && legs[..n][i].levels == MaxLevels(legs[..n]);
      var j :| 0 <= j < n && legs[..n][j].levels == MinLevels(legs[..n]);
      assert legs[..n][i] == legs[i] && legs[..n][j] == legs[j];
      forall k | 0 <= k < |legs| ensures MinLevels(legs) <= legs[k].levels <= MaxLevels(legs) {
        if k < n { assert legs[..n][k] == legs[k]; }
      }
      assert legs[if MaxLevels(legs) == legs[n].levels then n else i].levels == MaxLevels(legs);
      assert legs[if MinLevels(legs) == legs[n].levels then n else j].levels == MinLevels(legs);
    } else {
      assert legs[0].levels == MaxLevels(legs) == MinLevels(legs);
    }
  }

  lemma ShareIsRatio(leg: FillModelLeg, share: real)
    ensures FilledShare(leg, share) <==> share == leg.CompletionRatio()
  {
    if leg.requested > 0.0 {
      var r := leg.filled / leg.requested;
      assert r * leg.requested == leg.filled;
      assert share * leg.requested == leg.filled ==> (share - r) * leg.requested == 0.0;
    }
  }

  lemma BasketsAreCapacity(leg: FillModelLeg, baskets: real)
    ensures HoldsBaskets(leg, baskets) <==> baskets == leg.BasketCapacity()
  {
    if leg.unitsPerBasket > 0.0 {
      var r := leg.filled / leg.unitsPerBasket;
      assert r * leg.unitsPerBasket == leg.filled;
      assert baskets * leg.unitsPerBasket == leg.filled ==> (baskets - r) * leg.unitsPerBasket == 0.0;
    }
  }

  lemma UnevenExactly(a: FillModelLeg, b: FillModelLeg, assumptions: FillAssumptions)
    ensures Uneven(a, b, assumptions) <==>
      || a.CompletionRatio() - b.CompletionRatio() > assumptions.asymmetryRatioThreshold
      || a.levels - b.levels >= assumptions.asymmetryLevelGapThreshold
  {
    ShareIsRatio(a, a.CompletionRatio());
    ShareIsRatio(b, b.CompletionRatio());
    forall x, y | FilledShare(a, x) && FilledShare(b, y) ensures x == a.CompletionRatio() && y == b.CompletionRatio() {
      ShareIsRatio(a, x);
      ShareIsRatio(b, y);
    }
    hide FilledShare;
  }

  lemma AsymmetricExactly(legs: seq<FillModelLeg>, assumptions: FillAssumptions)
    requires legs != []
    ensures Asymmetric(legs, assumptions) <==> SomeUneven(legs, assumptions)
  {
    LevelExtremes(legs);
    var ratios := Ratios(legs);
    forall i, j | 0 <= i < |legs| && 0 <= j < |legs|
      ensures Uneven(legs[i], legs[j], assumptions) <==>
        ratios[i] - ratios[j] > assumptions.asymmetryRatioThreshold || legs[i].levels - legs[j].levels >= assumptions.asymmetryLevelGapThreshold
    {
      UnevenExactly(legs[i], legs[j], assumptions);
    }
    hide Uneven, MaxLevels, MinLevels;
    if Asymmetric(legs, assumptions) {
      var most: int :| 0 <= most < |legs| && ratios[most] == Greatest(ratios);
      var least: int :| 0 <= least < |legs| && ratios[least] == Least(ratios);
      var deep: int :| 0 <= deep < |legs| && legs[deep].levels == MaxLevels(legs);
      var shallow: int :| 0 <= shallow < |legs| && legs[shallow].levels == MinLevels(legs);
      assert Uneven(legs[most], legs[least], assumptions) || Uneven(legs[deep], legs[shallow], assumptions);
    }
    if SomeUneven(legs, assumptions) {
      var i, j :| 0 <= i < |legs| && 0 <= j < |legs| && Uneven(legs[i], legs[j], assumptions);
      assert ratios[i] in ratios && ratios[j] in ratios;
    }
  }

  lemma DiscountIsRaw(requested: real, completed: real, legs: seq<FillModelLeg>, assumptions: FillAssumptions)
    requires requested > 0.0 && legs != []
    ensures Discounted(requested, completed, legs, assumptions) == RawProbability(completed / requested, legs, assumptions)
  {
    AsymmetricExactly(legs, assumptions);
    hide Asymmetric, SomeUneven, Times;
    var ratio := completed / requested;
    TimesOne(ratio);
    TimesOne(Times(ratio, assumptions.staleQuoteFactor));
    TimesZero(assumptions.asymmetryFactor);
  }

  lemma {:induction false} FlagIsRaised(flag: Flag, requested: real, legs: seq<FillModelLeg>, assumptions: FillAssumptions, completed: real)
    requires legs != []
    ensures flag in QuoteFlags(legs) + DepthFlags(requested, completed, legs) + Flagged(LegAsymmetry, Asymmetric(legs, assumptions))
      <==> Raised(flag, requested, legs, assumptions, completed)
  {
    AsymmetricExactly(legs, assumptions);
    hide Asymmetric, SomeUneven;
    InFlags(flag, QuoteFlags(legs), DepthFlags(requested, completed, legs), Flagged(LegAsymmetry, Asymmetric(legs, assumptions)));
    QuoteFlagsExactly(flag, legs);
    DepthFlagsExactly(flag, requested, completed, legs);
    hide QuoteFlags, DepthFlags;
  }

  lemma InFlags(flag: Flag, a: set<Flag>, b: set<Flag>, c: set<Flag>)
    ensures flag in a + b + c <==> flag in a || flag in b || flag in c
  {
  }

  lemma QuoteFlagsExactly(flag: Flag, legs: seq<FillModelLeg>)
    ensures flag in QuoteFlags(legs) <==>
      (flag == StaleQuote && AnyStale(legs)) || (flag == TimingMismatch && AnyMistimed(legs)) || (flag == MissingBook && AnyUnquoted(legs))
  {
    hide AnyStale, AnyMistimed, AnyUnquoted;
  }

  lemma DepthFlagsExactly(flag: Flag, requested: real, completed: real, legs: seq<FillModelLeg>)
    ensures flag in DepthFlags(requested, completed, legs) <==>
      || (flag == ShallowMiss && AnyShort(legs)) || (flag == PartialFill && 0.0 < completed < requested)
      || (flag == NonExecutableDepth && completed <= 0.0)
  {
    hide AnyShort;
  }

  lemma CompletedOfLegs(legs: seq<FillModelLeg>)
    requires legs != []
    ensures var completed := Least(Capacities(legs));
      && (forall i, baskets :: 0 <= i < |legs| && HoldsBaskets(legs[i], baskets) ==> completed <= baskets)
      && (exists i :: 0 <= i < |legs| && HoldsBaskets(legs[i], completed))
  {
    var capacities := Capacities(legs);
    var completed := Least(capacities);
    forall i, baskets | 0 <= i < |legs| && HoldsBaskets(legs[i], baskets) ensures completed <= baskets {
      BasketsAreCapacity(legs[i], baskets);
      assert capacities[i] in capacities;
    }
    var k :| 0 <= k < |capacities| && capacities[k] == completed;
    BasketsAreCapacity(legs[k], completed);
  }

  lemma {:induction false} AssessedParts(requested: real, legs: seq<FillModelLeg>, assumptions: FillAssumptions)
    requires requested > 0.0 && legs != []
    ensures var r := Assess(requested, legs, assumptions);
      && r.completed == Least(Capacities(legs))
      && r.completionRatio == r.completed / requested
      && (var p := RawProbability(r.completed / requested, legs, assumptions);
          r.fillProbability == if p < 0.0 then 0.0 else if p > 1.0 then 1.0 else p)
      && r.flags == QuoteFlags(legs) + DepthFlags(requested, r.completed, legs) + Flagged(LegAsymmetry, Asymmetric(legs, assumptions))
  {
    hide RawProbability, QuoteFlags, DepthFlags, Asymmetric, Capacities, MaxLevels, MinLevels;
  }

  /** The assessment in terms of the legs alone: completed quantity, probability and every flag. */
  lemma {:induction false} AssessmentIsExact(requested: real, legs: seq<FillModelLeg>, assumptions: FillAssumptions)
    ensures Assesses(requested, legs, assumptions, Assess(requested, legs, assumptions))
  {
    if requested > 0.0 && legs != [] {
      AssessedParts(requested, legs, assumptions);
      hide Assess, Capacities, Asymmetric, QuoteFlags, DepthFlags, Flagged, RawProbability, Discounted, HoldsBaskets, Raised, Times;
      var r := Assess(requested, legs, assumptions);
      CompletedOfLegs(legs);
      DiscountIsRaw(requested, r.completed, legs, assumptions);
      forall flag ensures flag in r.flags <==> Raised(flag, requested, legs, assumptions, r.completed) {
        FlagIsRaised(flag, requested, legs, assumptions, r.completed);
      }
      QuotientTimes(r.completed, requested);
    }
  }

  method AssessBasketFill(requested: real, legs: seq<FillModelLeg>, assumptions: FillAssumptions) returns (r: Assessment)
    ensures r == Assess(requested, legs, assumptions)
    ensures Assesses(requested, legs, assumptions, r)
    ensures 0.0 <= r.fillProbability <= 1.0
  {
    AssessmentIsExact(requested, legs, assumptions);
    hide Assesses;
    hide AnyStale, AnyMistimed, AnyUnquoted, DepthFlags, Times, MaxLevels, MinLevels;
    if requested <= 0.0 || legs == [] {
      return Assessment(0.0, 0.0, 0.0, {InvalidRequestedQuantity}, 0.0, 0);
    }
    var completed := Least(Capacities(legs));
    var ratioGap := Greatest(Ratios(legs)) - Least(Ratios(legs));
    var levelGap := MaxLevels(legs) - MinLevels(legs);
    var probability := completed / requested;
    var flags: set<Flag> := {};
    if AnyStale(legs) {
      probability := Times(probability, assumptions.staleQuoteFactor);
      flags := flags + {StaleQuote};
    }
    if AnyMistimed(legs) {
      probability := 0.0;
      flags := flags + {TimingMismatch};
    }
    flags := flags + DepthFlags(requested, completed, legs);
    if ratioGap > assumptions.asymmetryRatioThreshold || levelGap >= assumptions.asymmetryLevelGapThreshold {
      probability := Times(probability, assumptions.asymmetryFactor);
      flags := flags + {LegAsymmetry};
    }
    flags := flags + Flagged(MissingBook, AnyUnquoted(legs));
    probability := Max(0.0, Min(probability, 1.0));
    r := Assessment(completed, completed / requested, probability, flags, ratioGap, levelGap);
  }

  /** Every leg holds enough for `baskets` whole baskets. */
  ghost predicate Supports(legs: seq<FillModelLeg>, baskets: real) {
    forall i :: 0 <= i < |legs| ==> Times(legs[i].unitsPerBasket, baskets) <= legs[i].filled
  }

  /** The completed quantity is the largest number of baskets every leg supports, and the leg
      that limits it has nothing left over. */
  lemma CompletedIsLargestSupported(requested: real, legs: seq<FillModelLeg>, assumptions: FillAssumptions)
    requires requested > 0.0 && legs != []
    requires forall i :: 0 <= i < |legs| ==> legs[i].unitsPerBasket > 0.0
    ensures var completed := Assess(requested, legs, assumptions).completed;
      && Supports(legs, completed)
      && (exists i :: 0 <= i < |legs| && Times(legs[i].unitsPerBasket, completed) == legs[i].filled)
      && (forall other :: Supports(legs, other) ==> other <= completed)
  {
    hide Times;
    var capacities := Capacities(legs);
    var completed := Assess(requested, legs, assumptions).completed;
    forall i | 0 <= i < |legs| ensures Times(legs[i].unitsPerBasket, completed) <= legs[i].filled {
      assert capacities[i] in capacities;
      CapacityBound(completed, legs[i].filled, legs[i].unitsPerBasket);
    }
    var k :| 0 <= k < |legs| && capacities[k] == completed;
    QuotientTimes(legs[k].filled, legs[k].unitsPerBasket);
    TimesCommutes(legs[k].unitsPerBasket, completed);
    forall other | Supports(legs, other) ensures other <= completed {
      CapacityBound(other, legs[k].filled, legs[k].unitsPerBasket);
    }
  }

  lemma CapacityBound(c: real, filled: real, units: real)
    requires units > 0.0
    ensures c <= filled / units <==> Times(units, c) <= filled
  {
    var r := filled / units;
    assert filled == r * units;
    assert (r - c) * units == filled - units * c;
  }

  // ---------------------------------------------------------------- classification

  function ClassifyFragility(expectedPnl: real, downside: real, fillProbability: real, flags: set<Flag>, robustThreshold: real): Classification {
    if expectedPnl <= 0.0 || downside <= 0.0 || fillProbability <= 0.0 || MissingBook in flags || TimingMismatch in flags
       || NonExecutableDepth in flags || NegativeExpectedPnl in flags then NonExecutable
    else if fillProbability < robustThreshold || StaleQuote in flags || ShallowMiss in flags || PartialFill in flags
            || LegAsymmetry in flags then Fragile
    else Robust
  }
}
