/** Combinatorial and intra-market detection
    (src/constraint_scanner/detection/combinatorial.py, intra_market.py, ranking.py). */
module Detection {
  import opened Common
  import opened Sorting
  import opened ExecutablePricing
  import opened BasketPricing
  import opened Templates
  import opened Opportunities

  datatype Settings = Settings(confidenceThreshold: real, minEdgeBps: real, maxLegs: int)

  datatype Rejection =
    | TemplateValidationFailed | MaxLegsExceeded | ConfidenceBelowThreshold | NoExecutableDepth
    | InsufficientDepthForFullFill | NonPositiveGuaranteedPayoff | ZeroNotional | EdgeBelowThreshold
    | TemplateNotSupported | CostNotBelowGuaranteedPayout

  datatype Finding = Finding(
    persistenceKey: string, legs: seq<OpportunityLeg>, states: seq<State>, maxExecutableNotional: real,
    expectedValueUsd: real, netEdgePct: real, edgeBps: real, rankingScore: real, details: Details)

  datatype Outcome = Found(finding: Finding) | Rejected(reason: Rejection)

  // ---------------------------------------------------------------- persistence keys

  datatype KeyLeg = KeyLeg(marketId: int, tokenId: int, side: Side, quantity: real)

  datatype KeyInput = KeyInput(templateType: TemplateType, legs: seq<KeyLeg>)

  /** The hash behind an identifier, an unknown function of what it hashes. */
  type KeyHash = KeyInput -> string

  function SideRank(side: Side): int { if side == Buy then 0 else 1 }

  predicate KeyLegBefore(a: KeyLeg, b: KeyLeg) {
    || a.marketId < b.marketId
    || (a.marketId == b.marketId && (a.tokenId < b.tokenId
    || (a.tokenId == b.tokenId && (SideRank(a.side) < SideRank(b.side)
    || (a.side == b.side && a.quantity <= b.quantity)))))
  }

  function KeyLegs(legs: seq<OpportunityLeg>): seq<KeyLeg> {
    seq(|legs|, i requires 0 <= i < |legs| => KeyLeg(legs[i].marketId, legs[i].tokenId, legs[i].side, legs[i].quantity))
  }

  /** What is hashed: the template and the legs in canonical order. */
  function CanonicalInput(templateType: TemplateType, legs: seq<OpportunityLeg>): KeyInput {
    KeyInput(templateType, Sort(KeyLegBefore, KeyLegs(legs)))
  }

  function PersistenceKey(hash: KeyHash, templateType: TemplateType, legs: seq<OpportunityLeg>): string {
    hash(CanonicalInput(templateType, legs))
  }

  /** The key identifies the set of legs: listing them in another order gives the same key. */
  lemma PersistenceKeyIgnoresOrder(hash: KeyHash, templateType: TemplateType, a: seq<OpportunityLeg>, b: seq<OpportunityLeg>)
    requires multiset(KeyLegs(a)) == multiset(KeyLegs(b))
    ensures PersistenceKey(hash, templateType, a) == PersistenceKey(hash, templateType, b)
  {
    SortCanonical(KeyLegBefore, KeyLegs(a), KeyLegs(b));
  }

  /** The hash tells two inputs apart. */
  ghost predicate Separates(hash: KeyHash, x: KeyInput, y: KeyInput) {
    hash(x) == hash(y) ==> x == y
  }

  /** Market, token, side and quantity of every leg. */
  function LegTuples(legs: seq<OpportunityLeg>): seq<(int, int, Side, real)> {
    seq(|legs|, i requires 0 <= i < |legs| => (legs[i].marketId, legs[i].tokenId, legs[i].side, legs[i].quantity))
  }

  function TupleToKey(): ((int, int, Side, real)) -> KeyLeg {
    (t: (int, int, Side, real)) => KeyLeg(t.0, t.1, t.2, t.3)
  }

  function KeyToTuple(): KeyLeg -> (int, int, Side, real) {
    (k: KeyLeg) => (k.marketId, k.tokenId, k.side, k.quantity)
  }

  lemma KeyLegsAreTuples(legs: seq<OpportunityLeg>)
    ensures KeyLegs(legs) == Map(TupleToKey(), LegTuples(legs)) && LegTuples(legs) == Map(KeyToTuple(), KeyLegs(legs))
  {
    MapIndex(TupleToKey(), LegTuples(legs));
    MapIndex(KeyToTuple(), KeyLegs(legs));
  }

  lemma SameKeyLegs(a: seq<OpportunityLeg>, b: seq<OpportunityLeg>)
    ensures multiset(KeyLegs(a)) == multiset(KeyLegs(b)) <==> multiset(LegTuples(a)) == multiset(LegTuples(b))
  {
    KeyLegsAreTuples(a);
    KeyLegsAreTuples(b);
    hide KeyLegs, LegTuples;
    if multiset(LegTuples(a)) == multiset(LegTuples(b)) { MapMultiset(TupleToKey(), LegTuples(a), LegTuples(b)); }
    if multiset(KeyLegs(a)) == multiset(KeyLegs(b)) { MapMultiset(KeyToTuple(), KeyLegs(a), KeyLegs(b)); }
  }

  lemma KeyLegOrder()
    ensures TotalPreorder(KeyLegBefore) && Antisymmetric(KeyLegBefore)
  {
  }

  /** The key identifies the template and the legs: with a hash that tells the two inputs apart, two
      keys are equal exactly when the templates are and the legs agree as multisets of market,
      token, side and quantity. */
  lemma PersistenceKeyExactly(hash: KeyHash, s: TemplateType, a: seq<OpportunityLeg>, t: TemplateType, b: seq<OpportunityLeg>)
    requires Separates(hash, CanonicalInput(s, a), CanonicalInput(t, b))
    ensures PersistenceKey(hash, s, a) == PersistenceKey(hash, t, b) <==> s == t && multiset(LegTuples(a)) == multiset(LegTuples(b))
  {
    KeyLegOrder();
    SortSorted(KeyLegBefore, KeyLegs(a));
    SortSorted(KeyLegBefore, KeyLegs(b));
    SameKeyLegs(a, b);
    if multiset(KeyLegs(a)) == multiset(KeyLegs(b)) { SortCanonical(KeyLegBefore, KeyLegs(a), KeyLegs(b)); }
    hide Sort, KeyLegs, LegTuples, KeyLegBefore;
  }

  // ---------------------------------------------------------------- detection

  function BasketLegs(members: seq<Member>): seq<OpportunityLeg> {
    seq(|members|, i requires 0 <= i < |members| => OpportunityLeg(members[i].marketId, members[i].tokenId, Buy, 0.0, 1.0))
  }

  function FillOf(fills: map<int, FillComputation>, token: int): FillComputation {
    if token in fills then fills[token] else Unfillable(0.0, Buy)
  }

  function AveragePrice(fill: FillComputation): real {
    if fill.average.Some? then fill.average.value else 0.0
  }

  function UnitPrices(fills: map<int, FillComputation>): map<int, real> {
    map t | t in fills :: AveragePrice(fills[t])
  }

  function PricedLegs(members: seq<Member>, fills: map<int, FillComputation>): seq<OpportunityLeg> {
    seq(|members|, i requires 0 <= i < |members| =>
      var m, fill := members[i], FillOf(fills, members[i].tokenId);
      OpportunityLeg(m.marketId, m.tokenId, Buy, AveragePrice(fill), fill.filled))
  }

  function PricingLegs(members: seq<Member>, fills: map<int, FillComputation>, quantity: real): seq<PricingLeg> {
    seq(|members|, i requires 0 <= i < |members| =>
      var m, fill := members[i], FillOf(fills, members[i].tokenId);
      PricingLeg(Some(m.marketId), m.tokenId, Buy, Some(quantity), Some(fill.filled), fill.average, Some(fill.notional)))
  }

  function RankingScore(notional: real, edgePct: real, confidence: real): real {
    if notional <= 0.0 || edgePct <= 0.0 || confidence <= 0.0 then 0.0 else notional * edgePct * confidence
  }

  /** The details both detectors store. The enumerating one adds the payoff of every state and the
      list of members. */
  function DetailsOf(members: seq<Member>, cost: BasketCostResult, edgePct: real, payoffs: Option<seq<real>>, confidence: real): Details {
    Details(
      Some(Pricing(Some(cost.basketQuantity), Some(cost.grossBuyCost), Some(cost.netCost), Some(edgePct),
                   Some(PricingLegs(members, cost.fills, cost.basketQuantity)))),
      payoffs, Some(confidence), if payoffs.Some? then Some(|members|) else None, None)
  }

  /** What both detectors report once they accept `edgeUsd` on a basket. */
  function FindingOf(hash: KeyHash, context: Context, cost: BasketCostResult, edgeUsd: real,
                     payoffs: Option<seq<real>>, confidence: real): Finding
    requires Valid(context) && cost.grossBuyCost > 0.0
  {
    var pct := edgeUsd / cost.grossBuyCost;
    Finding(PersistenceKey(hash, context.templateType, BasketLegs(context.members)),
            PricedLegs(context.members, cost.fills), States(context), cost.grossBuyCost, edgeUsd, pct, pct * 10000.0,
            RankingScore(cost.grossBuyCost, pct, confidence),
            DetailsOf(context.members, cost, pct, payoffs, confidence))
  }

  /** Enumerating detection: the worst payoff over all states, times the executable size. */
  function DetectCombinatorial(hash: KeyHash, settings: Settings, context: Context, books: Books, confidence: real): Outcome {
    if !Valid(context) then Rejected(TemplateValidationFailed)
    else if |context.members| > settings.maxLegs then Rejected(MaxLegsExceeded)
    else if confidence < settings.confidenceThreshold then Rejected(ConfidenceBelowThreshold)
    else
      var legs := BasketLegs(context.members);
      var quantity := MaxBasketQuantity(books, legs);
      if quantity <= 0.0 then Rejected(NoExecutableDepth)
      else
        var cost := BasketCost(books, legs, quantity);
        if !AllFullyFilled(cost.fills) then Rejected(InsufficientDepthForFullFill)
        else
          var evaluation := Evaluate(context.members, UnitPrices(cost.fills), States(context));
          if evaluation.minNetPayoff <= 0.0 then Rejected(NonPositiveGuaranteedPayoff)
          else if cost.grossBuyCost <= 0.0 then Rejected(ZeroNotional)
          else
            var edgeUsd := Times(evaluation.minNetPayoff, quantity);
            if edgeUsd / cost.grossBuyCost * 10000.0 <= settings.minEdgeBps then Rejected(EdgeBelowThreshold)
            else Found(FindingOf(hash, context, cost, edgeUsd, Some(evaluation.grossPayoffs), confidence))
  }

  predicate LiveTemplate(templateType: TemplateType) {
    templateType == BinaryComplement || templateType == ExactOneOfN || templateType == OneVsField
  }

  /** Closed-form detection: one dollar per basket minus the net cost of the baskets. */
  function DetectIntraMarket(hash: KeyHash, context: Context, books: Books, confidence: real): Outcome {
    if !LiveTemplate(context.templateType) then Rejected(TemplateNotSupported)
    else if !Valid(context) then Rejected(TemplateValidationFailed)
    else
      var legs := BasketLegs(context.members);
      var quantity := MaxBasketQuantity(books, legs);
      if quantity <= 0.0 then Rejected(NoExecutableDepth)
      else
        var cost := BasketCost(books, legs, quantity);
        if !AllFullyFilled(cost.fills) then Rejected(InsufficientDepthForFullFill)
        else
          var edgeUsd := ComputeNetEdge(1.0, cost);
          if edgeUsd <= 0.0 then Rejected(CostNotBelowGuaranteedPayout)
          else if cost.grossBuyCost <= 0.0 then Rejected(ZeroNotional)
          else Found(FindingOf(hash, context, cost, edgeUsd, None, confidence))
  }

  // ---------------------------------------------------------------- the priced basket

  /** Everything the detectors rely on about the basket at its maximum size. */
  ghost predicate PricedBasket(context: Context, cost: BasketCostResult, quantity: real) {
    && cost.basketQuantity == quantity
    && AllFullyFilled(cost.fills)
    && cost.netCost == cost.grossBuyCost
    && cost.grossBuyCost == Times(MemberTotal(context.members, UnitPrices(cost.fills)), quantity)
    && (forall m :: m in context.members ==>
          && m.tokenId in cost.fills
          && var fill := cost.fills[m.tokenId];
          && fill.desired == fill.filled == quantity
          && fill.average.Some?
          && Times(fill.average.value, quantity) == fill.notional)
  }

  lemma MemberFill(books: Books, members: seq<Member>, i: nat, quantity: real)
    requires i < |members| && 0.0 < quantity <= MaxBasketQuantity(books, BasketLegs(members))
    ensures var fill := LegFill(books, BasketLegs(members)[i], quantity);
      fill.desired == fill.filled == quantity && fill.average.Some? && Times(fill.average.value, quantity) == fill.notional
  {
    hide Times, WeightedFill, LegLimit;
    var legs := BasketLegs(members);
    MaxBasketQuantityIsLeast(books, legs);
    LegFullyFilled(books, legs[i], quantity);
    TimesOne(quantity);
    assert legs[i].tokenId in books by { LimitNeedsBook(books, legs[i]); }
    var levels := LevelsForSide(books[legs[i].tokenId], Buy);
    FillKeepsRequest(levels, quantity, Buy);
    FillAverage(levels, quantity, Buy);
  }

  lemma LimitNeedsBook(books: Books, leg: OpportunityLeg)
    requires LegLimit(books, leg) > 0.0
    ensures leg.tokenId in books
  {
  }

  lemma FillAverage(levels: seq<BookLevel>, desired: real, side: Side)
    requires WeightedFill(levels, desired, side).filled > 0.0
    ensures var f := WeightedFill(levels, desired, side);
      f.average.Some? && Times(f.average.value, f.filled) == f.notional
  {
    SlicesAccountForFill(levels, desired, side);
  }

  lemma {:induction false} GrossCostOfPrefix(books: Books, members: seq<Member>, n: nat, quantity: real, prices: map<int, real>)
    requires n <= |members|
    requires forall i :: 0 <= i < n ==>
      members[i].tokenId in prices
      && Times(prices[members[i].tokenId], quantity) == LegFill(books, BasketLegs(members)[i], quantity).notional
    ensures GrossNotional(books, BasketLegs(members)[..n], quantity, Buy) == Times(MemberTotal(members[..n], prices), quantity)
    ensures GrossNotional(books, BasketLegs(members)[..n], quantity, Sell) == 0.0
  {
    hide Times, LegFill;
    if n == 0 {
      TimesZero(quantity);
    } else {
      GrossCostOfPrefix(books, members, n - 1, quantity, prices);
      var legs := BasketLegs(members);
      assert legs[..n][..n - 1] == legs[..n - 1] && members[..n][..n - 1] == members[..n - 1];
      assert legs[..n][n - 1] == legs[n - 1] && members[..n][n - 1] == members[n - 1];
      TimesAdds(quantity, MemberTotal(members[..n - 1], prices), prices[members[n - 1].tokenId]);
    }
  }

  lemma BasketIsPriced(context: Context, books: Books)
    requires Valid(context)
    requires MaxBasketQuantity(books, BasketLegs(context.members)) > 0.0
    ensures var quantity := MaxBasketQuantity(books, BasketLegs(context.members));
      PricedBasket(context, BasketCost(books, BasketLegs(context.members), quantity), quantity)
  {
    var members, legs := context.members, BasketLegs(context.members);
    var quantity := MaxBasketQuantity(books, legs);
    var fills := Fills(books, legs, quantity);
    assert DistinctTokens(legs) && legs != [];
    hide Times, LegFill, LegLimit, MemberTotal, GrossNotional, Fills, Valid, MaxBasketQuantity;
    MaxBasketQuantityIsExact(books, legs, quantity);
    MemberFills(books, members, quantity);
    GrossCostOfPrefix(books, members, |members|, quantity, UnitPrices(fills));
    assert legs[..|members|] == legs && members[..|members|] == members;
  }

  /** Every member's token has its own full fill. */
  lemma MemberFills(books: Books, members: seq<Member>, quantity: real)
    requires DistinctTokens(BasketLegs(members)) && 0.0 < quantity <= MaxBasketQuantity(books, BasketLegs(members))
    ensures var fills := Fills(books, BasketLegs(members), quantity);
      forall i :: 0 <= i < |members| ==>
        && members[i].tokenId in fills
        && var fill := fills[members[i].tokenId];
        && fill == LegFill(books, BasketLegs(members)[i], quantity)
        && fill.desired == fill.filled == quantity && fill.average.Some? && Times(fill.average.value, quantity) == fill.notional
  {
    hide Times, LegFill, LegLimit, Fills, MaxBasketQuantity, DistinctTokens;
    var legs := BasketLegs(members);
    var fills := Fills(books, legs, quantity);
    FillsByToken(books, legs, quantity);
    forall i | 0 <= i < |members|
      ensures members[i].tokenId in fills
      ensures var fill := fills[members[i].tokenId];
        && fill == LegFill(books, legs[i], quantity)
        && fill.desired == fill.filled == quantity && fill.average.Some? && Times(fill.average.value, quantity) == fill.notional
    {
      MemberFill(books, members, i, quantity);
      assert legs[i].tokenId == members[i].tokenId;
    }
  }

  lemma {:induction false} PriceTotalOfMembers(members: seq<Member>, fills: map<int, FillComputation>, quantity: real)
    requires forall m :: m in members ==> m.tokenId in fills
    ensures PriceTotal(PricingLegs(members, fills, quantity)) == MemberTotal(members, UnitPrices(fills))
  {
    if members != [] {
      var n := |members| - 1;
      PriceTotalOfMembers(members[..n], fills, quantity);
      assert PricingLegs(members, fills, quantity)[..n] == PricingLegs(members[..n], fills, quantity);
      assert members[n] in members;
    }
  }

  /** The details of an accepted basket are detector-produced pricing in the sense later stages need. */
  lemma DetailsAreDetectorPricing(context: Context, cost: BasketCostResult, quantity: real, edgePct: real,
                                  payoffs: seq<real>, confidence: real)
    requires Valid(context) && PricedBasket(context, cost, quantity)
    requires quantity > 0.0 && cost.grossBuyCost > 0.0
    requires MemberTotal(context.members, UnitPrices(cost.fills)) < 1.0
    requires payoffs != [] && forall g :: g in payoffs ==> g == 1.0
    ensures DetectorPricing(DetailsOf(context.members, cost, edgePct, Some(payoffs), confidence))
  {
    hide Times, MemberTotal, AllFullyFilled;
    var members := context.members;
    var legs := PricingLegs(members, cost.fills, quantity);
    forall i | 0 <= i < |legs| ensures DetectorLeg(legs[i], quantity) {
      assert members[i] in members;
    }
    assert |members| >= 1 by { SomeMember(context); }
    assert forall i, j :: 0 <= i < j < |legs| ==> legs[i].tokenId != legs[j].tokenId;
    DetectorNotional(legs, quantity);
    PriceTotalOfMembers(members, cost.fills, quantity);
    TimesPositive(PriceTotal(legs), quantity);
  }

  lemma SomeMember(context: Context)
    requires Valid(context)
    ensures |context.members| >= 1
  {
  }

  lemma TimesPositive(a: real, q: real)
    requires q > 0.0 && Times(a, q) > 0.0
    ensures a > 0.0
  {
  }

  // ---------------------------------------------------------------- soundness

  /** What the filled legs of a finding pay in one state. */
  function StatePayout(legs: seq<OpportunityLeg>, state: State): real {
    if legs == [] then 0.0
    else
      var last := legs[|legs| - 1];
      StatePayout(legs[..|legs| - 1], state) + Times(GetOrZero(state, last.tokenId), last.quantity)
  }

  lemma {:induction false} PayoutOfEqualLegs(members: seq<Member>, fills: map<int, FillComputation>, state: State, quantity: real)
    requires forall m :: m in members ==> FillOf(fills, m.tokenId).filled == quantity
    ensures StatePayout(PricedLegs(members, fills), state) == Times(MemberTotal(members, state), quantity)
  {
    hide Times;
    if members == [] {
      TimesZero(quantity);
    } else {
      var n := |members| - 1;
      assert members[n] in members;
      PayoutOfEqualLegs(members[..n], fills, state, quantity);
      assert PricedLegs(members, fills)[..n] == PricedLegs(members[..n], fills);
      TimesAdds(quantity, MemberTotal(members[..n], state), GetOrZero(state, members[n].tokenId));
    }
  }

  /** What a finding was made from. */
  lemma FoundMeans(hash: KeyHash, settings: Settings, context: Context, books: Books, confidence: real)
    requires DetectCombinatorial(hash, settings, context, books, confidence).Found?
    ensures Valid(context)
    ensures var quantity := MaxBasketQuantity(books, BasketLegs(context.members));
      var cost := BasketCost(books, BasketLegs(context.members), quantity);
      var evaluation := Evaluate(context.members, UnitPrices(cost.fills), States(context));
      && quantity > 0.0 && cost.grossBuyCost > 0.0 && evaluation.minNetPayoff > 0.0
      && DetectCombinatorial(hash, settings, context, books, confidence).finding
         == FindingOf(hash, context, cost, Times(evaluation.minNetPayoff, quantity), Some(evaluation.grossPayoffs), confidence)
  {
    hide Times, MaxBasketQuantity, BasketCost, Evaluate, AllFullyFilled, Valid, FindingOf;
  }

  /** In every state the filled legs pay one dollar per basket. */
  lemma {:induction false} StatesPayOneDollar(context: Context, cost: BasketCostResult, quantity: real)
    requires Valid(context) && PricedBasket(context, cost, quantity)
    ensures forall s :: s in States(context) ==> StatePayout(PricedLegs(context.members, cost.fills), s) == quantity
  {
    hide Times, MemberTotal, AllFullyFilled, Valid, StatePayout;
    forall s | s in States(context) ensures StatePayout(PricedLegs(context.members, cost.fills), s) == quantity {
      var k :| 0 <= k < |States(context)| && States(context)[k] == s;
      EachStatePaysOneToken(context, k);
      PayoutOfEqualLegs(context.members, cost.fills, s, quantity);
      TimesOne(quantity);
    }
  }

  /** Arbitrage soundness: whatever state of the template comes true, the filled legs pay the
      reported edge on top of what they cost, and the edge is positive. The details of the
      finding are detector-produced pricing. */
  lemma {:induction false} FindingIsArbitrage(hash: KeyHash, settings: Settings, context: Context, books: Books, confidence: real)
    requires DetectCombinatorial(hash, settings, context, books, confidence).Found?
    ensures var f := DetectCombinatorial(hash, settings, context, books, confidence).finding;
      && f.states == States(context) != []
      && (forall s :: s in f.states ==> StatePayout(f.legs, s) - f.maxExecutableNotional == f.expectedValueUsd)
      && f.expectedValueUsd > 0.0
      && DetectorPricing(f.details)
      && f.details.pricing.value.grossBuyCost == Some(f.maxExecutableNotional)
      && f.expectedValueUsd == Times(1.0 - PriceTotal(f.details.pricing.value.legs.value), f.details.pricing.value.basketQuantity.value)
      && f.details.confidence == Some(confidence)
  {
    FoundMeans(hash, settings, context, books, confidence);
    hide DetectCombinatorial, Times, MaxBasketQuantity, BasketCost, Evaluate, MemberTotal, AllFullyFilled, Valid, PriceTotal, DetectorPricing, States, StatePayout, PricedLegs;
    var members, legs := context.members, BasketLegs(context.members);
    var quantity := MaxBasketQuantity(books, legs);
    var cost := BasketCost(books, legs, quantity);
    BasketIsPriced(context, books);
    TimesOne(quantity);
    var prices := UnitPrices(cost.fills);
    NetPayoffIsStateIndependent(context, prices);
    var evaluation := Evaluate(members, prices, States(context));
    var f := DetectCombinatorial(hash, settings, context, books, confidence).finding;
    TimesSign(evaluation.minNetPayoff, quantity);
    TimesAdds(quantity, 1.0 - MemberTotal(members, prices), MemberTotal(members, prices));
    StatesPayOneDollar(context, cost, quantity);
    DetailsAreDetectorPricing(context, cost, quantity, f.netEdgePct, evaluation.grossPayoffs, confidence);
    PriceTotalOfMembers(members, cost.fills, quantity);
    WinnersAreMembers(context);
  }

  /** The two detectors agree on every valid context that passes the leg and confidence gates,
      when no minimum edge is configured: same verdict, and the same finding apart from the
      per-state payoffs and the members, which only the enumerating detector records. */
  lemma {:induction false} DetectorsAgree(hash: KeyHash, settings: Settings, context: Context, books: Books, confidence: real)
    requires Valid(context)
    requires |context.members| <= settings.maxLegs
    requires confidence >= settings.confidenceThreshold
    requires settings.minEdgeBps == 0.0
    ensures var e, c := DetectCombinatorial(hash, settings, context, books, confidence), DetectIntraMarket(hash, context, books, confidence);
      && (e.Found? <==> c.Found?)
      && (e.Found? ==> e.finding.(details := e.finding.details.(grossPayoffs := None, memberCount := None)) == c.finding)
  {
    hide Times, MaxBasketQuantity, BasketCost, Evaluate, MemberTotal, AllFullyFilled;
    var legs := BasketLegs(context.members);
    var quantity := MaxBasketQuantity(books, legs);
    if quantity > 0.0 {
      var cost := BasketCost(books, legs, quantity);
      BasketIsPriced(context, books);
      var prices := UnitPrices(cost.fills);
      NetPayoffIsStateIndependent(context, prices);
      var net := 1.0 - MemberTotal(context.members, prices);
      TimesAdds(quantity, net, MemberTotal(context.members, prices));
      assert Times(net, quantity) == ComputeNetEdge(1.0, cost);
      EdgeSign(net, quantity);
      if net > 0.0 && cost.grossBuyCost > 0.0 {
        PositiveRatio(Times(net, quantity), cost.grossBuyCost);
      }
    }
  }

  /** Neither detector ever rejects for insufficient depth: at the maximum size every leg fills. */
  lemma DepthAlwaysSuffices(hash: KeyHash, settings: Settings, context: Context, books: Books, confidence: real)
    ensures DetectCombinatorial(hash, settings, context, books, confidence) != Rejected(InsufficientDepthForFullFill)
    ensures DetectIntraMarket(hash, context, books, confidence) != Rejected(InsufficientDepthForFullFill)
  {
    hide Times, MaxBasketQuantity, BasketCost, Evaluate, MemberTotal, AllFullyFilled;
    if Valid(context) && MaxBasketQuantity(books, BasketLegs(context.members)) > 0.0 {
      BasketIsPriced(context, books);
    }
  }

  /** Market and token of every member. */
  function MemberIds(members: seq<Member>): seq<(int, int)> {
    seq(|members|, i requires 0 <= i < |members| => (members[i].marketId, members[i].tokenId))
  }

  function IdsToTuple(): ((int, int)) -> (int, int, Side, real) {
    (t: (int, int)) => (t.0, t.1, Buy, 1.0)
  }

  function TupleToIds(): ((int, int, Side, real)) -> (int, int) {
    (t: (int, int, Side, real)) => (t.0, t.1)
  }

  lemma MembersAreLegs(a: seq<Member>, b: seq<Member>)
    ensures multiset(LegTuples(BasketLegs(a))) == multiset(LegTuples(BasketLegs(b))) <==> multiset(MemberIds(a)) == multiset(MemberIds(b))
  {
    forall members: seq<Member>
      ensures LegTuples(BasketLegs(members)) == Map(IdsToTuple(), MemberIds(members))
      ensures MemberIds(members) == Map(TupleToIds(), LegTuples(BasketLegs(members)))
    {
      MapIndex(IdsToTuple(), MemberIds(members));
      MapIndex(TupleToIds(), LegTuples(BasketLegs(members)));
    }
    hide LegTuples, BasketLegs, MemberIds;
    if multiset(MemberIds(a)) == multiset(MemberIds(b)) { MapMultiset(IdsToTuple(), MemberIds(a), MemberIds(b)); }
    if multiset(LegTuples(BasketLegs(a))) == multiset(LegTuples(BasketLegs(b))) {
      MapMultiset(TupleToIds(), LegTuples(BasketLegs(a)), LegTuples(BasketLegs(b)));
    }
  }

  /** Two findings carry the same key exactly when their constraints have the same template and the
      same members, as multisets of market and token. */
  lemma {:induction false} FindingKeysExactly(hash: KeyHash, s: Settings, c: Context, books: Books, confidence: real,
                                              t: Settings, d: Context, others: Books, certainty: real)
    requires DetectCombinatorial(hash, s, c, books, confidence).Found? && DetectCombinatorial(hash, t, d, others, certainty).Found?
    requires Separates(hash, CanonicalInput(c.templateType, BasketLegs(c.members)), CanonicalInput(d.templateType, BasketLegs(d.members)))
    ensures DetectCombinatorial(hash, s, c, books, confidence).finding.persistenceKey
         == DetectCombinatorial(hash, t, d, others, certainty).finding.persistenceKey
      <==> c.templateType == d.templateType && multiset(MemberIds(c.members)) == multiset(MemberIds(d.members))
  {
    FindingKey(hash, s, c, books, confidence);
    FindingKey(hash, t, d, others, certainty);
    hide *;
    PersistenceKeyExactly(hash, c.templateType, BasketLegs(c.members), d.templateType, BasketLegs(d.members));
    MembersAreLegs(c.members, d.members);
  }

  lemma {:induction false} FindingKey(hash: KeyHash, settings: Settings, context: Context, books: Books, confidence: real)
    requires DetectCombinatorial(hash, settings, context, books, confidence).Found?
    ensures DetectCombinatorial(hash, settings, context, books, confidence).finding.persistenceKey
         == PersistenceKey(hash, context.templateType, BasketLegs(context.members))
  {
    FoundMeans(hash, settings, context, books, confidence);
    hide DetectCombinatorial, Evaluate, BasketCost, MaxBasketQuantity, PersistenceKey;
  }

  // ---------------------------------------------------------------- the edge of a finding

  /** Edge, edge in basis points and ranking score of a finding: the edge is the expected value per
      dollar spent, in basis points ten thousand times that and above the configured minimum, and
      the score is the expected value times a positive confidence. Every leg is bought in the basket
      quantity at the average price its pricing shows. */
  lemma {:induction false} FindingEdges(hash: KeyHash, settings: Settings, context: Context, books: Books, confidence: real)
    requires DetectCombinatorial(hash, settings, context, books, confidence).Found?
    ensures var f := DetectCombinatorial(hash, settings, context, books, confidence).finding;
      && f.maxExecutableNotional > 0.0
      && Times(f.netEdgePct, f.maxExecutableNotional) == f.expectedValueUsd
      && Times(f.edgeBps, f.maxExecutableNotional) == Times(f.expectedValueUsd, 10000.0)
      && f.edgeBps == Times(f.netEdgePct, 10000.0) > settings.minEdgeBps
      && f.rankingScore == (if confidence > 0.0 then Times(f.expectedValueUsd, confidence) else 0.0)
      && f.details.pricing.Some? && f.details.pricing.value.netEdgePct == Some(f.netEdgePct)
  {
    hide *;
    FoundAboveMinimum(hash, settings, context, books, confidence);
    FoundFields(hash, settings, context, books, confidence);
    var f := DetectCombinatorial(hash, settings, context, books, confidence).finding;
    EdgeOfFinding(f.expectedValueUsd, f.maxExecutableNotional, confidence);
  }

  lemma {:induction false} FoundAboveMinimum(hash: KeyHash, settings: Settings, context: Context, books: Books, confidence: real)
    requires DetectCombinatorial(hash, settings, context, books, confidence).Found?
    ensures var f := DetectCombinatorial(hash, settings, context, books, confidence).finding;
      f.expectedValueUsd / f.maxExecutableNotional * 10000.0 > settings.minEdgeBps
  {
    hide Times, MaxBasketQuantity, BasketCost, Evaluate, AllFullyFilled, Valid, PersistenceKey, DetailsOf, PricedLegs;
  }

  lemma {:induction false} FoundFields(hash: KeyHash, settings: Settings, context: Context, books: Books, confidence: real)
    requires DetectCombinatorial(hash, settings, context, books, confidence).Found?
    ensures var f := DetectCombinatorial(hash, settings, context, books, confidence).finding;
      && f.maxExecutableNotional > 0.0 && f.expectedValueUsd > 0.0
      && f.netEdgePct == f.expectedValueUsd / f.maxExecutableNotional
      && f.edgeBps == f.netEdgePct * 10000.0
      && f.rankingScore == RankingScore(f.maxExecutableNotional, f.netEdgePct, confidence)
      && f.details.pricing.Some? && f.details.pricing.value.netEdgePct == Some(f.netEdgePct)
  {
    FoundMeans(hash, settings, context, books, confidence);
    hide DetectCombinatorial, Times, MaxBasketQuantity, BasketCost, Evaluate, PersistenceKey, PricedLegs, PricingLegs, RankingScore;
    var quantity := MaxBasketQuantity(books, BasketLegs(context.members));
    var cost := BasketCost(books, BasketLegs(context.members), quantity);
    TimesSign(Evaluate(context.members, UnitPrices(cost.fills), States(context)).minNetPayoff, quantity);
  }

  lemma EdgeOfFinding(value: real, cost: real, confidence: real)
    requires value > 0.0 && cost > 0.0
    ensures var pct := value / cost;
      && Times(pct, cost) == value
      && Times(pct * 10000.0, cost) == Times(value, 10000.0)
      && pct * 10000.0 == Times(pct, 10000.0)
      && RankingScore(cost, pct, confidence) == if confidence > 0.0 then Times(value, confidence) else 0.0
  {
    var pct := value / cost;
    assert pct * cost == value && pct > 0.0;
    assert cost * pct * confidence == value * confidence;
  }

  lemma {:induction false} FindingLegs(hash: KeyHash, settings: Settings, context: Context, books: Books, confidence: real)
    requires DetectCombinatorial(hash, settings, context, books, confidence).Found?
    ensures var f := DetectCombinatorial(hash, settings, context, books, confidence).finding;
      && f.details.pricing.Some? && f.details.pricing.value.legs.Some? && f.details.pricing.value.basketQuantity.Some?
      && var legs, quantity := f.details.pricing.value.legs.value, f.details.pricing.value.basketQuantity.value;
      && |f.legs| == |legs| == |context.members|
      && f.details.memberCount == Some(|context.members|) && f.details.confidence == Some(confidence)
      && f.details.grossPayoffs.Some? && |f.details.grossPayoffs.value| == |f.states|
      && forall i :: 0 <= i < |legs| ==>
           && legs[i].marketId == Some(context.members[i].marketId) && legs[i].tokenId == context.members[i].tokenId
           && legs[i].averagePrice.Some?
           && f.legs[i] == OpportunityLeg(context.members[i].marketId, context.members[i].tokenId, Buy, legs[i].averagePrice.value, quantity)
  {
    FoundMeans(hash, settings, context, books, confidence);
    BasketIsPriced(context, books);
    hide DetectCombinatorial, Times, MaxBasketQuantity, BasketCost, Evaluate, PersistenceKey, RankingScore, MemberTotal, AllFullyFilled;
    assert forall i :: 0 <= i < |context.members| ==> context.members[i] in context.members;
  }

  lemma EdgeSign(net: real, quantity: real)
    requires quantity > 0.0
    ensures Times(net, quantity) > 0.0 <==> net > 0.0
  {
  }

  lemma PositiveRatio(a: real, b: real)
    requires a > 0.0 && b > 0.0
    ensures a / b * 10000.0 > 0.0
  {
  }
}
