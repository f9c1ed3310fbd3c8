/** A refreshed opportunity approved on the simulation of an earlier version: the gate reads the
    verdict of the latest summary, never what was simulated
    (src/constraint_scanner/risk/policy.py, detection/detector_service.py). */
module StaleCertificates {
  import opened Common
  import opened Sorting
  import opened ExecutablePricing
  import opened BasketPricing
  import opened Templates
  import opened Opportunities
  import opened Detection
  import opened SizeChoice
  import opened OpportunityStore
  import opened FillModel
  import opened Simulation
  import opened SimulationGuarantees
  import opened SimulationStore
  import opened Exposure
  import opened RiskPolicy
  import opened Pipeline

  // ---------------------------------------------------------------- a flat slippage charge

  /** Without a charge per extra level, slippage takes the base share of every unchanged leg. */
  lemma {:induction false} FlatCharge(settings: SimulationSettings, books: Books, at: Instant, quantity: real, legs: seq<PricingLeg>)
    requires quantity > 0.0 && settings.slippage.perExtraLevelBps == 0.0
    requires forall i :: 0 <= i < |legs| ==> UnchangedLeg(books, legs[i], quantity)
    ensures SlippageCharge(SimulateLegs(settings, books, at, quantity, legs))
         == Times(TotalNotional(legs), settings.slippage.baseBps / 10000.0)
  {
    var share := settings.slippage.baseBps / 10000.0;
    if legs == [] {
      TimesZero(share);
    } else {
      var n := |legs| - 1;
      FlatCharge(settings, books, at, quantity, legs[..n]);
      assert UnchangedLeg(books, legs[n], quantity);
      FlatLeg(settings, books, at, quantity, legs[n]);
      hide Times, SimulateLeg, UnchangedLeg, SlippageCharge;
      TimesAdds(share, TotalNotional(legs[..n]), OrZero(legs[n].totalNotional));
      OneMoreLeg(SimulateLegs(settings, books, at, quantity, legs[..n]), SimulateLeg(settings, books, at, quantity, legs[n]));
    }
  }

  lemma {:induction false} FlatLeg(settings: SimulationSettings, books: Books, at: Instant, quantity: real, leg: PricingLeg)
    requires quantity > 0.0 && settings.slippage.perExtraLevelBps == 0.0 && UnchangedLeg(books, leg, quantity)
    ensures OrZero(leg.requestedQuantity) > 0.0
    ensures var s := SimulateLeg(settings, books, at, quantity, leg);
      s.fill.notional == OrZero(leg.totalNotional) && s.slippage.appliedBps == settings.slippage.baseBps
  {
    hide WeightedFill, Times;
    TokenFillFacts(books, leg.tokenId, Buy, quantity);
    var levels := |SimulateLeg(settings, books, at, quantity, leg).fill.consumed|;
    TimesZero((if levels > 1 then levels - 1 else 0) as real);
  }

  // ---------------------------------------------------------------- the two versions

  const DETECTION: Settings := Settings(0.0, 0.0, 2)
  const STRESS: SimulationSettings := SimulationSettings(SlippageAssumptions(1000.0, 0.0), FillAssumptions(15, 0.6, 0.2, 2, 0.85), 0.95)

  function OutcomeAt(hash: KeyHash, price: real): Outcome {
    DetectCombinatorial(hash, DETECTION, CONTEXT, TwoTokenMarket(price), 1.0)
  }

  /** What a finding stores, in terms of the basket it priced. */
  lemma {:induction false} FindingStores(hash: KeyHash, settings: Settings, context: Context, books: Books, confidence: real)
    requires DetectCombinatorial(hash, settings, context, books, confidence).Found?
    ensures var f := DetectCombinatorial(hash, settings, context, books, confidence).finding;
      var legs := BasketLegs(context.members);
      var quantity := MaxBasketQuantity(books, legs);
      && LegsOf(f.details) == PricingLegs(context.members, BasketCost(books, legs, quantity).fills, quantity)
      && f.details.pricing.Some? && f.details.pricing.value.basketQuantity == Some(quantity)
      && f.details.lifecycle == None
      && f.maxExecutableNotional > 0.0 && f.netEdgePct == f.expectedValueUsd / f.maxExecutableNotional
  {
    hide MaxBasketQuantity, BasketCost, Evaluate, AllFullyFilled, Times, PricingLegs;
    CostKeepsQuantity(books, BasketLegs(context.members), MaxBasketQuantity(books, BasketLegs(context.members)));
  }

  lemma {:induction false} MarketPrices(hash: KeyHash, price: real)
    requires OutcomeAt(hash, price).Found?
    ensures var legs := LegsOf(OutcomeAt(hash, price).finding.details);
      && |legs| == 2 && legs[0].tokenId == 1 && legs[1].tokenId == 2
      && PriceTotal(legs) == price + 0.5
      && OutcomeAt(hash, price).finding.details.pricing.Some?
      && OutcomeAt(hash, price).finding.details.pricing.value.basketQuantity == Some(2.0)
  {
    MarketSizes(price);
    hide DetectCombinatorial, MaxBasketQuantity, TwoTokenMarket, BasketLegs;
    FindingStores(hash, DETECTION, CONTEXT, TwoTokenMarket(price), 1.0);
    var fills := BasketCost(TwoTokenMarket(price), BasketLegs(MEMBERS), 2.0).fills;
    assert fills == Fills(TwoTokenMarket(price), BasketLegs(MEMBERS), 2.0);
    hide BasketCost, Fills, MemberTotal, PriceTotal;
    PriceTotalOfMembers(MEMBERS, fills, 2.0);
  }

  /** At any price below one half two baskets are found, each at the sum of the two prices. */
  lemma {:induction false} FoundBaskets(hash: KeyHash, price: real)
    requires 0.0 < price < 0.5
    ensures OutcomeAt(hash, price).Found?
    ensures var f := OutcomeAt(hash, price).finding;
      && DetectorPricing(f.details) && |LegsOf(f.details)| == 2
      && LegsOf(f.details)[0].tokenId == 1 && LegsOf(f.details)[1].tokenId == 2
      && f.details.pricing.value.basketQuantity == Some(2.0)
      && TotalNotional(LegsOf(f.details)) == f.maxExecutableNotional == 1.0 + 2.0 * price
      && f.expectedValueUsd == 1.0 - 2.0 * price
      && f.details.confidence == Some(1.0)
  {
    hide *;
    FoundAt(hash, price);
    MarketPrices(hash, price);
    TwoBaskets(price);
    FoundArbitrage(hash, price);
    PricedAsBasket(OutcomeAt(hash, price).finding.details);
  }

  lemma {:induction false} FoundAt(hash: KeyHash, price: real)
    requires 0.0 < price < 0.5
    ensures OutcomeAt(hash, price).Found?
  {
    hide DetectCombinatorial;
    MarketIsFound(hash, DETECTION, price, 1.0);
  }

  lemma {:induction false} FoundArbitrage(hash: KeyHash, price: real)
    requires OutcomeAt(hash, price).Found?
    ensures var f := OutcomeAt(hash, price).finding;
      && DetectorPricing(f.details)
      && f.details.pricing.Some? && f.details.pricing.value.basketQuantity.Some?
      && f.details.pricing.value.grossBuyCost == Some(f.maxExecutableNotional)
      && f.expectedValueUsd == Times(1.0 - PriceTotal(LegsOf(f.details)), f.details.pricing.value.basketQuantity.value)
      && f.details.confidence == Some(1.0)
  {
    hide DetectCombinatorial, TwoTokenMarket, PriceTotal, TotalNotional, Times, StatePayout, States, DetectorLeg;
    FindingIsArbitrage(hash, DETECTION, CONTEXT, TwoTokenMarket(price), 1.0);
  }

  lemma {:induction false} PricedAsBasket(details: Details)
    requires DetectorPricing(details)
    ensures details.pricing.Some? && details.pricing.value.basketQuantity.Some?
    ensures details.pricing.value.grossBuyCost == Some(TotalNotional(LegsOf(details)))
    ensures TotalNotional(LegsOf(details)) == Times(PriceTotal(LegsOf(details)), details.pricing.value.basketQuantity.value)
  {
  }

  lemma {:induction false} TwoBaskets(price: real)
    ensures Times(price + 0.5, 2.0) == 1.0 + 2.0 * price && Times(1.0 - (price + 0.5), 2.0) == 1.0 - 2.0 * price
  {
  }

  // ---------------------------------------------------------------- one simulated, one not

  lemma {:induction false} StressOfVersion(hash: KeyHash, price: real, lifecycle: Option<Opportunities.Lifecycle>)
    requires 0.0 < price < 0.5 && OutcomeAt(hash, price).Found?
    ensures var r := SimulationOf(STRESS, OutcomeAt(hash, price).finding.details.(lifecycle := lifecycle), TwoTokenMarket(price), 0);
      && r.expectedPnl == 1.0 - 2.0 * price - (1.0 + 2.0 * price) / 10.0
      && (r.classification == Robust <==> r.expectedPnl > 0.0)
  {
    FoundBaskets(hash, price);
    hide DetectCombinatorial, SimulationOf, DetectorPricing, SlippageCharge, CalmMarket, Times;
    var f := OutcomeAt(hash, price).finding;
    var r := SimulationOf(STRESS, f.details.(lifecycle := lifecycle), TwoTokenMarket(price), 0);
    SimulatorAgreesWithDetector(hash, DETECTION, CONTEXT, TwoTokenMarket(price), 1.0, STRESS, lifecycle, 0);
    FindingLegsAreUnchanged(hash, DETECTION, CONTEXT, TwoTokenMarket(price), 1.0);
    ResultKeepsLegs(STRESS, f.details.(lifecycle := lifecycle), TwoTokenMarket(price), 0);
    FlatCharge(STRESS, TwoTokenMarket(price), 0, 2.0, LegsOf(f.details));
    assert Times(1.0 + 2.0 * price, 1000.0 / 10000.0) == (1.0 + 2.0 * price) / 10.0 by { Tenth(1.0 + 2.0 * price); }
    MarketIsCalm(price, LegsOf(f.details));
  }

  lemma {:induction false} Tenth(x: real)
    ensures Times(x, 1000.0 / 10000.0) == x / 10.0
  {
  }

  lemma {:induction false} OneSlice(level: BookLevel)
    requires level.size == 2.0
    ensures |WeightedFill([level], 2.0, Buy).consumed| == 1
  {
    SortIdentity(ByPrice(Buy), [level]);
    assert [level][1..] == [];
    assert WalkLevels([level], 2.0).slices == [FillSlice(level.price, 2.0, 2.0)];
  }

  lemma {:induction false} MarketIsCalm(price: real, legs: seq<PricingLeg>)
    requires |legs| == 2 && legs[0].tokenId == 1 && legs[1].tokenId == 2
    requires forall i :: 0 <= i < 2 ==> UnchangedLeg(TwoTokenMarket(price), legs[i], 2.0)
    ensures CalmMarket(STRESS, TwoTokenMarket(price), legs, SimulateLegs(STRESS, TwoTokenMarket(price), 0, 2.0, legs), 0)
  {
    OneSlice(BookLevel(price, 2.0));
    OneSlice(BookLevel(0.5, 2.0));
    hide Times, WeightedFill, ApplySlippage;
    assert UnchangedLeg(TwoTokenMarket(price), legs[0], 2.0) && UnchangedLeg(TwoTokenMarket(price), legs[1], 2.0);
    var first, second := SimulateLeg(STRESS, TwoTokenMarket(price), 0, 2.0, legs[0]), SimulateLeg(STRESS, TwoTokenMarket(price), 0, 2.0, legs[1]);
    assert legs[..1] == [legs[0]] && [legs[0]][..0] == [];
    assert SimulateLegs(STRESS, TwoTokenMarket(price), 0, 2.0, [legs[0]]) == [first];
    assert SimulateLegs(STRESS, TwoTokenMarket(price), 0, 2.0, legs) == [first, second];
    var f := ForFillModel([first, second]);
    assert f[0].levels == 1 && f[1].levels == 1;
    assert f[..1] == [f[0]];
    assert MaxLevels(f) == 1 && MinLevels(f) == 1;
  }

  // ---------------------------------------------------------------- the approval

  const RISK: RiskSettings := RiskSettings(0.0, 0.0, 2, 10.0, 30)
  const NOTHING_OPEN: ExposureState := ExposureState(0.0, 0, 0.0, 0.0, 0, map[], map[], map[])

  /** The row of the opportunity: detected at 0.25, and refreshed a microsecond later at 0.49. */
  function RefreshedRow(hash: KeyHash): Opportunity
    requires OutcomeAt(hash, 0.25).Found? && OutcomeAt(hash, 0.49).Found?
  {
    var before, after := Evaluation(1, None, OutcomeAt(hash, 0.25)), Evaluation(1, None, OutcomeAt(hash, 0.49));
    OpenRow(after, after.outcome.finding, Some(OpenRow(before, before.outcome.finding, None, 0, 0)), 0, 1)
  }

  /** The summary the simulator wrote before the refresh. */
  function OldSummary(hash: KeyHash): SimulatedExecution
    requires OutcomeAt(hash, 0.25).Found?
  {
    SimulatedExecution(0, 0, "run", true, 0,
      Some(SummaryOf("run", SimulationOf(STRESS, OutcomeAt(hash, 0.25).finding.details, TwoTokenMarket(0.25), 0))))
  }

  lemma {:induction false} FindingKeepsDetails(hash: KeyHash, price: real)
    requires OutcomeAt(hash, price).Found?
    ensures var f := OutcomeAt(hash, price).finding;
      f.details.lifecycle == None && f.maxExecutableNotional > 0.0 && f.netEdgePct == f.expectedValueUsd / f.maxExecutableNotional
  {
    hide DetectCombinatorial, MaxBasketQuantity, TwoTokenMarket, BasketLegs;
    FindingStores(hash, DETECTION, CONTEXT, TwoTokenMarket(price), 1.0);
  }

  /** An opportunity is approved although only its earlier version was simulated, while the version
      that is approved loses money under the same stress, on the books it was detected on. */
  lemma {:induction false} ApprovedOnOldSimulation(hash: KeyHash)
    ensures OutcomeAt(hash, 0.25).Found? && OutcomeAt(hash, 0.49).Found?
    ensures var o := RefreshedRow(hash);
      && EvaluateRisk(RISK, Controls(false, Paper), o, Some(OldSummary(hash)), NOTHING_OPEN, 1).approved
      && SimulationOf(STRESS, OutcomeAt(hash, 0.25).finding.details, TwoTokenMarket(0.25), 0).classification == Robust
      && SimulationOf(STRESS, o.details, TwoTokenMarket(0.49), 0).classification != Robust
      && SimulationOf(STRESS, o.details, TwoTokenMarket(0.49), 0).expectedPnl < 0.0
  {
    FoundAt(hash, 0.25);
    FoundAt(hash, 0.49);
    hide *;
    OldVersionIsRobust(hash);
    NewVersionLoses(hash);
    RefreshedRowPasses(hash);
    OldSummaryPasses(hash);
    GateApproves(RefreshedRow(hash), OldSummary(hash), SimulationOf(STRESS, OutcomeAt(hash, 0.25).finding.details, TwoTokenMarket(0.25), 0));
  }

  lemma {:induction false} OldVersionIsRobust(hash: KeyHash)
    requires OutcomeAt(hash, 0.25).Found?
    ensures var r := SimulationOf(STRESS, OutcomeAt(hash, 0.25).finding.details, TwoTokenMarket(0.25), 0);
      r.classification == Robust && TimingMismatch !in r.flags && StaleQuote !in r.flags
  {
    StressOfVersion(hash, 0.25, None);
    FindingKeepsDetails(hash, 0.25);
    hide OutcomeAt, SimulationOf;
    var details := OutcomeAt(hash, 0.25).finding.details;
    assert details == details.(lifecycle := None);
    RobustRaisesNoFlags(details, TwoTokenMarket(0.25));
  }

  lemma {:induction false} NewVersionLoses(hash: KeyHash)
    requires OutcomeAt(hash, 0.25).Found? && OutcomeAt(hash, 0.49).Found?
    ensures var r := SimulationOf(STRESS, RefreshedRow(hash).details, TwoTokenMarket(0.49), 0);
      r.classification != Robust && r.expectedPnl < 0.0
  {
    hide OutcomeAt, SimulationOf;
    var details := RefreshedRow(hash).details;
    assert details == OutcomeAt(hash, 0.49).finding.details.(lifecycle := details.lifecycle);
    StressOfVersion(hash, 0.49, details.lifecycle);
  }

  lemma {:induction false} RefreshedRowPasses(hash: KeyHash)
    requires OutcomeAt(hash, 0.25).Found? && OutcomeAt(hash, 0.49).Found?
    ensures var o := RefreshedRow(hash);
      && o.lastSeenAt == 1 && EdgeBps(o) >= 0.0 && OrZero(o.details.confidence) >= 0.0 && LegCount(o) <= 2
      && UnresolvedNotional(o) <= 10.0
  {
    FoundBaskets(hash, 0.49);
    FindingKeepsDetails(hash, 0.49);
    hide OutcomeAt, PriceTotal, TotalNotional, DetectorLeg;
    var f := OutcomeAt(hash, 0.49).finding;
    PositiveRatio(f.expectedValueUsd, f.maxExecutableNotional);
  }

  lemma {:induction false} OldSummaryPasses(hash: KeyHash)
    requires OutcomeAt(hash, 0.25).Found?
    ensures OldSummary(hash).payload == Some(SummaryOf("run", SimulationOf(STRESS, OutcomeAt(hash, 0.25).finding.details, TwoTokenMarket(0.25), 0)))
  {
    hide OutcomeAt, SimulationOf, SummaryOf;
  }

  lemma {:induction false} RobustRaisesNoFlags(details: Details, books: Books)
    requires SimulationOf(STRESS, details, books, 0).classification == Robust
    ensures var r := SimulationOf(STRESS, details, books, 0); TimingMismatch !in r.flags && StaleQuote !in r.flags
  {
    hide Assess, SimulateLegs, AdjustedNotional, Residuals, Times;
  }

  lemma {:induction false} GateApproves(o: Opportunity, summary: SimulatedExecution, r: SimulationResult)
    requires summary.payload == Some(SummaryOf("run", r)) && r.classification == Robust
    requires TimingMismatch !in r.flags && StaleQuote !in r.flags
    requires o.lastSeenAt == 1 && EdgeBps(o) >= 0.0 && OrZero(o.details.confidence) >= 0.0 && LegCount(o) <= 2
    requires UnresolvedNotional(o) <= 10.0
    ensures EvaluateRisk(RISK, Controls(false, Paper), o, Some(summary), NOTHING_OPEN, 1).approved
  {
  }
}
