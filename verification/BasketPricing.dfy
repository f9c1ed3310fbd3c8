/** Basket size and cost over several legs
    (src/constraint_scanner/simulation/executable_pricing.py). */
module BasketPricing {
  import opened Common
  import opened ExecutablePricing

  datatype OpportunityLeg = OpportunityLeg(marketId: int, tokenId: int, side: Side, price: real, quantity: real)

  type Books = map<int, BookSnapshot>

  datatype BasketExecutableSize = BasketExecutableSize(
    maxBasketQuantity: real, limitingTokenId: Option<int>, perLegLimits: map<int, real>)

  datatype BasketCostResult = BasketCostResult(
    basketQuantity: real, netCost: real, grossBuyCost: real, grossSellProceeds: real, fills: map<int, FillComputation>)

  /** The executable side of a book: buys take asks, sells hit bids. */
  function LevelsForSide(book: BookSnapshot, side: Side): seq<BookLevel> {
    if side == Buy then book.asks else book.bids
  }

  /** A fill of `quantity` units against the token's book, if there is one. */
  function TokenFill(books: Books, tokenId: int, side: Side, quantity: real): FillComputation {
    if tokenId in books then WeightedFill(LevelsForSide(books[tokenId], side), quantity, side)
    else Unfillable(quantity, side)
  }

  function LegFill(books: Books, leg: OpportunityLeg, basketQuantity: real): FillComputation {
    TokenFill(books, leg.tokenId, leg.side, Times(leg.quantity, basketQuantity))
  }

  function LegDepth(books: Books, leg: OpportunityLeg): real {
    if leg.tokenId in books then Depth(LevelsForSide(books[leg.tokenId], leg.side)) else 0.0
  }

  /** How many baskets one leg alone can support. */
  function LegLimit(books: Books, leg: OpportunityLeg): real {
    if leg.quantity <= 0.0 || LegDepth(books, leg) <= 0.0 then 0.0 else LegDepth(books, leg) / leg.quantity
  }

  function MaxBasketQuantity(books: Books, legs: seq<OpportunityLeg>): real {
    if legs == [] then 0.0
    else
      var last := LegLimit(books, legs[|legs| - 1]);
      if |legs| == 1 then last else Min(MaxBasketQuantity(books, legs[..|legs| - 1]), last)
  }

  lemma LegLimitNonNegative(books: Books, leg: OpportunityLeg)
    ensures LegLimit(books, leg) >= 0.0
  {
  }

  lemma {:induction false} MaxBasketQuantityIsLeast(books: Books, legs: seq<OpportunityLeg>)
    ensures MaxBasketQuantity(books, legs) >= 0.0
    ensures forall i :: 0 <= i < |legs| ==> MaxBasketQuantity(books, legs) <= LegLimit(books, legs[i])
    ensures legs != [] ==> exists i :: 0 <= i < |legs| && MaxBasketQuantity(books, legs) == LegLimit(books, legs[i])
  {
    if legs != [] {
      hide LegLimit;
      var n := |legs| - 1;
      LegLimitNonNegative(books, legs[n]);
      MaxBasketQuantityIsLeast(books, legs[..n]);
      if n > 0 {
        var i :| 0 <= i < n && MaxBasketQuantity(books, legs[..n]) == LegLimit(books, legs[..n][i]);
        assert legs[..n][i] == legs[i];
        forall j | 0 <= j < |legs| ensures MaxBasketQuantity(books, legs) <= LegLimit(books, legs[j]) {
          if j < n { assert legs[..n][j] == legs[j]; }
        }
        assert MaxBasketQuantity(books, legs) == LegLimit(books, legs[i])
            || MaxBasketQuantity(books, legs) == LegLimit(books, legs[n]);
      } else {
        assert MaxBasketQuantity(books, legs) == LegLimit(books, legs[0]);
      }
    }
  }

  method ComputeAvailableQuantity(levels: seq<BookLevel>) returns (available: real)
    ensures available == Depth(levels)
  {
    available := 0.0;
    var i := |levels|;
    assert levels[i..] == [];
    while i > 0
      invariant 0 <= i <= |levels|
      invariant available == Depth(levels[i..])
    {
      i := i - 1;
      assert levels[i..][1..] == levels[i + 1..];
      if levels[i].size > 0.0 {
        available := available + levels[i].size;
      }
    }
    assert levels[0..] == levels;
  }

  /** A leg at which the size loop stops: it asks for nothing, or its token has no book. */
  predicate Unpriceable(books: Books, leg: OpportunityLeg) {
    leg.quantity <= 0.0 || leg.tokenId !in books
  }

  /** The loop looks at the first `n` legs: all of them, or up to the first unpriceable one. */
  ghost predicate Examined(books: Books, legs: seq<OpportunityLeg>, n: nat) {
    && n <= |legs|
    && (forall j :: 0 <= j < n - 1 ==> !Unpriceable(books, legs[j]))
    && (n < |legs| ==> 0 < n && Unpriceable(books, legs[n - 1]))
  }

  /** Leg `j` is the last of the first `n` legs with its token. */
  ghost predicate LastWithToken(legs: seq<OpportunityLeg>, n: nat, j: int, token: int) {
    0 <= j < n <= |legs| && legs[j].tokenId == token && forall i :: j < i < n ==> legs[i].tokenId != token
  }

  /** Every token of the first `n` legs has the limit of its last leg, and no other token has one. */
  ghost predicate LimitsByToken(books: Books, legs: seq<OpportunityLeg>, n: nat, limits: map<int, real>)
    requires n <= |legs|
  {
    && (forall j :: 0 <= j < n ==> legs[j].tokenId in limits)
    && (forall t :: t in limits ==> exists j :: LastWithToken(legs, n, j, t) && limits[t] == LegLimit(books, legs[j]))
  }

  /** Leg `k` limits the first `n` legs: the unpriceable one, else the first with the least limit. */
  ghost predicate Limiting(books: Books, legs: seq<OpportunityLeg>, n: nat, k: int)
    requires n <= |legs|
  {
    && 0 <= k < n
    && (forall j :: 0 <= j < n ==> LegLimit(books, legs[k]) <= LegLimit(books, legs[j]))
    && if Unpriceable(books, legs[n - 1]) then k == n - 1
       else forall j :: 0 <= j < k ==> LegLimit(books, legs[k]) < LegLimit(books, legs[j])
  }

  lemma LimitAdded(books: Books, legs: seq<OpportunityLeg>, n: nat, limits: map<int, real>)
    requires n < |legs| && LimitsByToken(books, legs, n, limits)
    ensures LimitsByToken(books, legs, n + 1, limits[legs[n].tokenId := LegLimit(books, legs[n])])
  {
    var after := limits[legs[n].tokenId := LegLimit(books, legs[n])];
    forall t | t in after ensures exists j :: LastWithToken(legs, n + 1, j, t) && after[t] == LegLimit(books, legs[j]) {
      if t == legs[n].tokenId {
        assert LastWithToken(legs, n + 1, n, t);
      } else {
        var j :| LastWithToken(legs, n, j, t) && limits[t] == LegLimit(books, legs[j]);
        assert LastWithToken(legs, n + 1, j, t);
      }
    }
  }

  /** Looking at one more leg: it limits if it is the first, unpriceable or strictly tighter. */
  lemma LimitingStep(books: Books, legs: seq<OpportunityLeg>, n: nat, k: int) returns (next: int)
    requires n < |legs| && forall j :: 0 <= j < n ==> !Unpriceable(books, legs[j])
    requires n > 0 ==> Limiting(books, legs, n, k)
    ensures Limiting(books, legs, n + 1, next)
    ensures next == if n == 0 || Unpriceable(books, legs[n]) || LegLimit(books, legs[n]) < LegLimit(books, legs[k]) then n else k
  {
    AllLimitsNonNegative(books, legs);
    if Unpriceable(books, legs[n]) { NoLimitWithoutBook(books, legs[n]); }
    hide LegLimit;
    next := if n == 0 || Unpriceable(books, legs[n]) || LegLimit(books, legs[n]) < LegLimit(books, legs[k]) then n else k;
  }

  lemma LimitingIsMaximum(books: Books, legs: seq<OpportunityLeg>, n: nat, k: int)
    requires Examined(books, legs, n) && Limiting(books, legs, n, k)
    ensures LegLimit(books, legs[k]) == MaxBasketQuantity(books, legs)
  {
    MaxBasketQuantityIsLeast(books, legs);
    AllLimitsNonNegative(books, legs);
    if n < |legs| { NoLimitWithoutBook(books, legs[n - 1]); }
    hide LegLimit, MaxBasketQuantity;
  }

  method ComputeMaxExecutableSizeForBasket(books: Books, legs: seq<OpportunityLeg>)
    returns (size: BasketExecutableSize, ghost examined: nat)
    ensures size.maxBasketQuantity == MaxBasketQuantity(books, legs)
    ensures Examined(books, legs, examined)
    ensures LimitsByToken(books, legs, examined, size.perLegLimits)
    ensures size.limitingTokenId.None? <==> legs == []
    ensures legs != [] ==> exists k :: Limiting(books, legs, examined, k) && legs[k].tokenId == size.limitingTokenId.value
  {
    hide LegLimit, MaxBasketQuantity, LimitsByToken;
    var limits: map<int, real> := map[];
    var limiting: Option<int> := None;
    var best: Option<real> := None;
    ghost var k := 0;
    assert LimitsByToken(books, legs, 0, limits) by { NoLimits(books, legs); }
    var i := 0;
    while i < |legs|
      invariant 0 <= i <= |legs|
      invariant forall j :: 0 <= j < i ==> !Unpriceable(books, legs[j])
      invariant best.Some? == limiting.Some? == (i > 0)
      invariant i > 0 ==> Limiting(books, legs, i, k) && legs[k].tokenId == limiting.value && best.value == LegLimit(books, legs[k])
      invariant LimitsByToken(books, legs, i, limits)
    {
      var leg := legs[i];
      LimitAdded(books, legs, i, limits);
      k := LimitingStep(books, legs, i, k);
      hide Limiting;
      if leg.quantity <= 0.0 || leg.tokenId !in books {
        NoLimitWithoutBook(books, leg);
        LimitingIsMaximum(books, legs, i + 1, k);
        return BasketExecutableSize(0.0, Some(leg.tokenId), limits[leg.tokenId := 0.0]), i + 1;
      }
      var available := ComputeAvailableQuantity(LevelsForSide(books[leg.tokenId], leg.side));
      var limit := if available > 0.0 then available / leg.quantity else 0.0;
      assert limit == LegLimit(books, leg) by { LimitOfPriceable(books, leg); }
      limits := limits[leg.tokenId := limit];
      if best.None? || limit < best.value {
        best := Some(limit);
        limiting := Some(leg.tokenId);
      }
      i := i + 1;
    }
    if legs == [] {
      NoLegsNoBaskets(books);
    } else {
      LimitingIsMaximum(books, legs, i, k);
    }
    examined := i;
    size := BasketExecutableSize(if best.Some? then best.value else 0.0, limiting, limits);
  }

  lemma NoLimits(books: Books, legs: seq<OpportunityLeg>)
    ensures LimitsByToken(books, legs, 0, map[])
  {
  }

  lemma NoLimitWithoutBook(books: Books, leg: OpportunityLeg)
    requires Unpriceable(books, leg)
    ensures LegLimit(books, leg) == 0.0
  {
  }

  lemma LimitOfPriceable(books: Books, leg: OpportunityLeg)
    requires !Unpriceable(books, leg)
    ensures var available := Depth(LevelsForSide(books[leg.tokenId], leg.side));
      LegLimit(books, leg) == if available > 0.0 then available / leg.quantity else 0.0
  {
  }

  lemma AllLimitsNonNegative(books: Books, legs: seq<OpportunityLeg>)
    ensures forall j :: 0 <= j < |legs| ==> LegLimit(books, legs[j]) >= 0.0
  {
    forall j | 0 <= j < |legs| ensures LegLimit(books, legs[j]) >= 0.0 {
      LegLimitNonNegative(books, legs[j]);
    }
  }

  lemma NoLegsNoBaskets(books: Books)
    ensures MaxBasketQuantity(books, []) == 0.0
  {
  }

  // ---------------------------------------------------------------- cost

  /** Total notional of the legs on one side. */
  function GrossNotional(books: Books, legs: seq<OpportunityLeg>, basketQuantity: real, side: Side): real {
    if legs == [] then 0.0
    else
      var last := legs[|legs| - 1];
      GrossNotional(books, legs[..|legs| - 1], basketQuantity, side)
      + if last.side == side then LegFill(books, last, basketQuantity).notional else 0.0
  }

  function Fills(books: Books, legs: seq<OpportunityLeg>, basketQuantity: real): map<int, FillComputation> {
    if legs == [] then map[]
    else
      var last := legs[|legs| - 1];
      Fills(books, legs[..|legs| - 1], basketQuantity)[last.tokenId := LegFill(books, last, basketQuantity)]
  }

  function BasketCost(books: Books, legs: seq<OpportunityLeg>, basketQuantity: real): BasketCostResult {
    var buy := GrossNotional(books, legs, basketQuantity, Buy);
    var sell := GrossNotional(books, legs, basketQuantity, Sell);
    BasketCostResult(basketQuantity, buy - sell, buy, sell, Fills(books, legs, basketQuantity))
  }

  method ComputeBasketCost(books: Books, legs: seq<OpportunityLeg>, basketQuantity: real) returns (cost: BasketCostResult)
    ensures cost == BasketCost(books, legs, basketQuantity)
  {
    hide WeightedFill, Times;
    var fills: map<int, FillComputation> := map[];
    var buy, sell := 0.0, 0.0;
    for i := 0 to |legs|
      invariant fills == Fills(books, legs[..i], basketQuantity)
      invariant buy == GrossNotional(books, legs[..i], basketQuantity, Buy)
      invariant sell == GrossNotional(books, legs[..i], basketQuantity, Sell)
    {
      var leg := legs[i];
      var requested := Times(leg.quantity, basketQuantity);
      var fill: FillComputation;
      if leg.tokenId !in books {
        fill := FillComputation(leg.side, requested, 0.0, None, 0.0, []);
      } else {
        fill := ComputeWeightedFillPrice(LevelsForSide(books[leg.tokenId], leg.side), requested, leg.side);
      }
      fills := fills[leg.tokenId := fill];
      if leg.side == Buy {
        buy := buy + fill.notional;
      } else {
        sell := sell + fill.notional;
      }
      assert fill == LegFill(books, leg, basketQuantity);
      assert legs[..i + 1][..i] == legs[..i] && legs[..i + 1][i] == leg;
    }
    assert legs[..|legs|] == legs;
    cost := BasketCostResult(basketQuantity, buy - sell, buy, sell, fills);
  }

  function ComputeNetEdge(payoutPerBasket: real, cost: BasketCostResult): real {
    Times(payoutPerBasket, cost.basketQuantity) - cost.netCost
  }

  // ---------------------------------------------------------------- exactness

  ghost predicate DistinctTokens(legs: seq<OpportunityLeg>) {
    forall i, j :: 0 <= i < j < |legs| ==> legs[i].tokenId != legs[j].tokenId
  }

  lemma {:induction false} FillsByToken(books: Books, legs: seq<OpportunityLeg>, q: real)
    requires DistinctTokens(legs)
    ensures forall t :: t in Fills(books, legs, q) <==> exists i :: 0 <= i < |legs| && legs[i].tokenId == t
    ensures forall i :: 0 <= i < |legs| ==>
              legs[i].tokenId in Fills(books, legs, q) && Fills(books, legs, q)[legs[i].tokenId] == LegFill(books, legs[i], q)
  {
    hide LegFill;
    if legs != [] {
      var n := |legs| - 1;
      var init := legs[..n];
      FillsByToken(books, init, q);
      assert forall i :: 0 <= i < n ==> init[i] == legs[i];
      forall t | t in Fills(books, legs, q) ensures exists i :: 0 <= i < |legs| && legs[i].tokenId == t {
        if t in Fills(books, init, q) {
          var i :| 0 <= i < n && init[i].tokenId == t;
          assert legs[i].tokenId == t;
        } else {
          assert legs[n].tokenId == t;
        }
      }
      forall i | 0 <= i < |legs|
        ensures legs[i].tokenId in Fills(books, legs, q) && Fills(books, legs, q)[legs[i].tokenId] == LegFill(books, legs[i], q)
      {
        if i < n { assert init[i] == legs[i]; }
      }
    }
  }

  lemma QuotientBound(q: real, depth: real, quantity: real)
    requires quantity > 0.0
    ensures q <= depth / quantity <==> Times(quantity, q) <= depth
  {
    var r := depth / quantity;
    assert depth == r * quantity;
    assert (r - q) * quantity == depth - quantity * q;
  }

  lemma LegFullyFilled(books: Books, leg: OpportunityLeg, q: real)
    requires leg.quantity > 0.0 && q >= 0.0
    ensures LegFill(books, leg, q).FullyFilled() <==> q <= LegLimit(books, leg)
    ensures q <= LegLimit(books, leg) ==> LegFill(books, leg, q).filled == Times(leg.quantity, q)
  {
    hide WeightedFill, Times;
    TimesSign(leg.quantity, q);
    QuotientBound(q, LegDepth(books, leg), leg.quantity);
    if leg.tokenId in books {
      var levels := LevelsForSide(books[leg.tokenId], leg.side);
      FilledQuantityExact(levels, Times(leg.quantity, q), leg.side);
      DepthNonNegative(levels);
      FillKeepsRequest(levels, Times(leg.quantity, q), leg.side);
    }
  }

  lemma FillKeepsRequest(levels: seq<BookLevel>, desired: real, side: Side)
    ensures WeightedFill(levels, desired, side).desired == desired && WeightedFill(levels, desired, side).side == side
  {
  }

  predicate AllFullyFilled(fills: map<int, FillComputation>) {
    forall t :: t in fills ==> fills[t].FullyFilled()
  }

  /** The maximum basket quantity is exact: every leg fills in full up to it, and above it some
      leg falls short. The detectors' insufficient-depth rejection is therefore unreachable. */
  lemma MaxBasketQuantityIsExact(books: Books, legs: seq<OpportunityLeg>, q: real)
    requires legs != [] && DistinctTokens(legs)
    requires forall leg :: leg in legs ==> leg.quantity > 0.0
    requires q >= 0.0
    ensures AllFullyFilled(Fills(books, legs, q)) <==> q <= MaxBasketQuantity(books, legs)
  {
    hide LegFill, LegLimit, Fills;
    var fills := Fills(books, legs, q);
    FillsByToken(books, legs, q);
    MaxBasketQuantityIsLeast(books, legs);
    forall i | 0 <= i < |legs|
      ensures fills[legs[i].tokenId].FullyFilled() <==> q <= LegLimit(books, legs[i])
    {
      LegFullyFilled(books, legs[i], q);
    }
    if AllFullyFilled(fills) {
      var least :| 0 <= least < |legs| && MaxBasketQuantity(books, legs) == LegLimit(books, legs[least]);
      assert fills[legs[least].tokenId].FullyFilled();
    } else {
      var t :| t in fills && !fills[t].FullyFilled();
      var i :| 0 <= i < |legs| && legs[i].tokenId == t;
      assert !(q <= LegLimit(books, legs[i]));
    }
  }

  // ---------------------------------------------------------------- the edge at smaller sizes

  lemma LegAverageWorsens(books: Books, leg: OpportunityLeg, small: real, large: real)
    requires leg.quantity > 0.0 && 0.0 < small <= large <= LegLimit(books, leg)
    ensures Times(Signed(leg.side, LegFill(books, leg, large).notional), small)
         >= Times(Signed(leg.side, LegFill(books, leg, small).notional), large)
  {
    hide Times, Cost, WeightedFill;
    var levels := LevelsForSide(books[leg.tokenId], leg.side);
    var a, b := Times(leg.quantity, small), Times(leg.quantity, large);
    QuotientBound(large, LegDepth(books, leg), leg.quantity);
    TimesSign(leg.quantity, small);
    TimesMonotone(small, large, leg.quantity);
    TimesCommutes(leg.quantity, small);
    TimesCommutes(leg.quantity, large);
    SortDepth(leg.side, levels);
    CurveWorsens(levels, leg.side, a, b);
    Rescale(Signed(leg.side, WeightedFill(levels, a, leg.side).notional),
            Signed(leg.side, WeightedFill(levels, b, leg.side).notional), leg.quantity, small, large);
  }

  lemma CurveWorsens(levels: seq<BookLevel>, side: Side, a: real, b: real)
    requires 0.0 <= a <= b <= Depth(levels)
    ensures Times(Signed(side, WeightedFill(levels, b, side).notional), a)
         >= Times(Signed(side, WeightedFill(levels, a, side).notional), b)
  {
    hide Times, Cost, WeightedFill;
    SignedNotional(levels, a, side);
    SignedNotional(levels, b, side);
    LevelsAreSorted(levels, side);
    SortDepth(side, levels);
    AverageWorsens(side, SortedLevels(levels, side), a, b);
  }

  lemma Rescale(ca: real, cb: real, k: real, small: real, large: real)
    requires k > 0.0 && Times(cb, Times(k, small)) >= Times(ca, Times(k, large))
    ensures Times(cb, small) >= Times(ca, large)
  {
    assert k * (cb * small - ca * large) == cb * (k * small) - ca * (k * large);
  }

  lemma NetCostStep(books: Books, legs: seq<OpportunityLeg>, q: real)
    requires legs != []
    ensures var last := legs[|legs| - 1];
      BasketCost(books, legs, q).netCost
      == BasketCost(books, legs[..|legs| - 1], q).netCost + Signed(last.side, LegFill(books, last, q).notional)
  {
    hide LegFill;
  }

  lemma {:induction false} NetCostWorsens(books: Books, legs: seq<OpportunityLeg>, small: real, large: real)
    requires forall leg :: leg in legs ==> leg.quantity > 0.0
    requires 0.0 < small <= large
    requires forall leg :: leg in legs ==> large <= LegLimit(books, leg)
    ensures Times(BasketCost(books, legs, large).netCost, small) >= Times(BasketCost(books, legs, small).netCost, large)
  {
    hide Times, LegFill, LegLimit;
    if legs == [] {
      TimesZero(small);
      TimesZero(large);
    } else {
      var last := legs[|legs| - 1];
      var init := legs[..|legs| - 1];
      NetCostWorsens(books, init, small, large);
      LegAverageWorsens(books, last, small, large);
      NetCostStep(books, legs, small);
      NetCostStep(books, legs, large);
      TimesAdds(small, BasketCost(books, init, large).netCost, Signed(last.side, LegFill(books, last, large).notional));
      TimesAdds(large, BasketCost(books, init, small).netCost, Signed(last.side, LegFill(books, last, small).notional));
    }
  }

  /** The net edge per basket at the maximum size is a lower bound for every smaller size. */
  lemma SmallerBasketsKeepTheEdge(books: Books, legs: seq<OpportunityLeg>, payout: real, small: real)
    requires forall leg :: leg in legs ==> leg.quantity > 0.0
    requires 0.0 < small <= MaxBasketQuantity(books, legs)
    ensures var large := MaxBasketQuantity(books, legs);
      ComputeNetEdge(payout, BasketCost(books, legs, small)) / small
      >= ComputeNetEdge(payout, BasketCost(books, legs, large)) / large
  {
    hide LegLimit, LegFill, Times, BasketCost;
    var large := MaxBasketQuantity(books, legs);
    MaxBasketQuantityIsLeast(books, legs);
    assert forall leg :: leg in legs ==> large <= LegLimit(books, leg);
    NetCostWorsens(books, legs, small, large);
    EdgeOrder(payout, BasketCost(books, legs, small).netCost, BasketCost(books, legs, large).netCost, small, large);
    CostKeepsQuantity(books, legs, small);
    CostKeepsQuantity(books, legs, large);
  }

  lemma CostKeepsQuantity(books: Books, legs: seq<OpportunityLeg>, q: real)
    ensures BasketCost(books, legs, q).basketQuantity == q
  {
  }

  lemma EdgeOrder(payout: real, costSmall: real, costLarge: real, small: real, large: real)
    requires 0.0 < small && 0.0 < large && Times(costLarge, small) >= Times(costSmall, large)
    ensures (Times(payout, small) - costSmall) / small >= (Times(payout, large) - costLarge) / large
  {
    hide Times;
    var gainSmall, gainLarge := Times(payout, small), Times(payout, large);
    TimesAdds(large, gainSmall - costSmall, costSmall);
    TimesAdds(small, gainLarge - costLarge, costLarge);
    TimesAssociates(payout, small, large);
    TimesAssociates(payout, large, small);
    TimesCommutes(small, large);
    DivisionOrder(gainLarge - costLarge, large, gainSmall - costSmall, small);
  }
}
