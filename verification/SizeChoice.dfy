/** Which profitable baskets the detectors find by looking at the largest executable size only
    (src/constraint_scanner/detection/combinatorial.py). */
module SizeChoice {
  import opened Common
  import opened Sorting
  import opened ExecutablePricing
  import opened BasketPricing
  import opened Templates
  import opened Detection

  /** The first level with anything to sell, best price first. */
  function FirstOffered(levels: seq<BookLevel>): BookLevel
    requires Depth(levels) > 0.0
  {
    if levels[0].size > 0.0 then levels[0] else FirstOffered(levels[1..])
  }

  function BestLevel(levels: seq<BookLevel>): BookLevel
    requires Depth(levels) > 0.0
  {
    SortDepth(Buy, levels);
    FirstOffered(SortedLevels(levels, Buy))
  }

  lemma {:induction false} FirstIsBest(levels: seq<BookLevel>)
    requires Depth(levels) > 0.0 && Sorted(ByPrice(Buy), levels)
    ensures FirstOffered(levels) in levels && FirstOffered(levels).size > 0.0
    ensures forall l :: l in levels && l.size > 0.0 ==> FirstOffered(levels).price <= l.price
  {
    if levels[0].size > 0.0 {
      assert ByPrice(Buy)(levels[0], levels[0]);
    } else {
      FirstIsBest(levels[1..]);
      assert forall l :: l in levels ==> l == levels[0] || l in levels[1..];
    }
  }

  /** The best level offers something at the least price of all levels that do. */
  lemma BestLevelIsBest(levels: seq<BookLevel>)
    requires Depth(levels) > 0.0
    ensures BestLevel(levels) in levels && BestLevel(levels).size > 0.0
    ensures forall l :: l in levels && l.size > 0.0 ==> BestLevel(levels).price <= l.price
  {
    SortDepth(Buy, levels);
    LevelsAreSorted(levels, Buy);
    ByPriceIsOrder(Buy);
    SortSorted(ByPrice(Buy), levels);
    var sorted := SortedLevels(levels, Buy);
    FirstIsBest(sorted);
    assert forall l :: l in levels <==> l in multiset(sorted);
  }

  lemma {:induction false} FirstLevelCost(levels: seq<BookLevel>, q: real)
    requires Depth(levels) > 0.0 && 0.0 <= q <= FirstOffered(levels).size
    ensures Cost(Buy, levels, q) == Times(FirstOffered(levels).price, q)
    ensures FirstOffered(levels).size <= Depth(levels)
  {
    hide Times, Cost;
    CostUnfold(Buy, levels, q);
    DepthNonNegative(levels[1..]);
    if levels[0].size > 0.0 {
      CostOfNothing(Buy, levels[1..]);
    } else {
      FirstLevelCost(levels[1..], q);
      TimesZero(Badness(Buy, levels[0]));
    }
  }

  /** Every member's token has a book with something to buy. */
  ghost predicate Offers(books: Books, members: seq<Member>) {
    forall m :: m in members ==> m.tokenId in books && Depth(books[m.tokenId].asks) > 0.0
  }

  function BestAskTotal(books: Books, members: seq<Member>): real
    requires Offers(books, members)
  {
    if members == [] then 0.0
    else
      var m := members[|members| - 1];
      BestAskTotal(books, members[..|members| - 1]) + BestLevel(books[m.tokenId].asks).price
  }

  ghost predicate WithinBestLevels(books: Books, members: seq<Member>, q: real)
    requires Offers(books, members)
  {
    forall m :: m in members ==> q <= BestLevel(books[m.tokenId].asks).size
  }

  lemma {:induction false} SomeSmallSize(books: Books, members: seq<Member>, limit: real) returns (q: real)
    requires Offers(books, members) && limit > 0.0
    ensures 0.0 < q <= limit && WithinBestLevels(books, members, q)
  {
    q := limit;
    if members != [] {
      var m := members[|members| - 1];
      q := SomeSmallSize(books, members[..|members| - 1], limit);
      BestLevelIsBest(books[m.tokenId].asks);
      q := Min(q, BestLevel(books[m.tokenId].asks).size);
    }
  }

  lemma SmallLegCost(books: Books, m: Member, q: real)
    requires m.tokenId in books && Depth(books[m.tokenId].asks) > 0.0
    requires 0.0 <= q <= BestLevel(books[m.tokenId].asks).size
    ensures LegFill(books, OpportunityLeg(m.marketId, m.tokenId, Buy, 0.0, 1.0), q).notional
         == Times(BestLevel(books[m.tokenId].asks).price, q)
  {
    hide Times, WeightedFill, Cost;
    var asks := books[m.tokenId].asks;
    TimesOne(q);
    SortDepth(Buy, asks);
    SignedNotional(asks, q, Buy);
    FirstLevelCost(SortedLevels(asks, Buy), q);
  }

  lemma {:induction false} SmallBasketCost(books: Books, members: seq<Member>, q: real)
    requires Offers(books, members) && q >= 0.0 && WithinBestLevels(books, members, q)
    ensures BasketCost(books, BasketLegs(members), q).netCost == Times(BestAskTotal(books, members), q)
  {
    hide Times, LegFill, BestLevel;
    if members == [] {
      TimesZero(q);
    } else {
      var n := |members| - 1;
      var m := members[n];
      assert m in members;
      SmallBasketCost(books, members[..n], q);
      assert BasketLegs(members)[..n] == BasketLegs(members[..n]);
      NetCostStep(books, BasketLegs(members), q);
      SmallLegCost(books, m, q);
      TimesAdds(q, BestAskTotal(books, members[..n]), BestLevel(books[m.tokenId].asks).price);
    }
  }

  lemma MaxNeedsOffers(books: Books, members: seq<Member>)
    requires MaxBasketQuantity(books, BasketLegs(members)) > 0.0
    ensures Offers(books, members)
  {
    MaxBasketQuantityIsLeast(books, BasketLegs(members));
    forall m | m in members ensures m.tokenId in books && Depth(books[m.tokenId].asks) > 0.0 {
      var i :| 0 <= i < |members| && members[i] == m;
      assert BasketLegs(members)[i].tokenId == m.tokenId;
      LimitNeedsDepth(books, BasketLegs(members)[i]);
    }
  }

  lemma LimitNeedsDepth(books: Books, leg: OpportunityLeg)
    requires LegLimit(books, leg) > 0.0
    ensures leg.tokenId in books && Depth(LevelsForSide(books[leg.tokenId], leg.side)) > 0.0
  {
  }

  ghost predicate ProfitableSize(books: Books, members: seq<Member>, q: real) {
    && 0.0 < q <= MaxBasketQuantity(books, BasketLegs(members))
    && ComputeNetEdge(1.0, BasketCost(books, BasketLegs(members), q)) > 0.0
  }

  lemma CancelSize(cost: real, best: real, small: real, q: real)
    requires small > 0.0 && Times(cost, small) >= Times(Times(best, small), q)
    ensures cost >= Times(best, q)
  {
    assert (cost - best * q) * small >= 0.0;
  }

  /** No basket of any size costs less per unit than the best asks together. */
  lemma CostAtLeastBest(books: Books, members: seq<Member>, q: real)
    requires 0.0 < q <= MaxBasketQuantity(books, BasketLegs(members))
    requires Offers(books, members)
    ensures BasketCost(books, BasketLegs(members), q).netCost >= Times(BestAskTotal(books, members), q)
  {
    hide Times, BasketCost, LegLimit;
    var legs := BasketLegs(members);
    var small := SomeSmallSize(books, members, q);
    MaxBasketQuantityIsLeast(books, legs);
    NetCostWorsens(books, legs, small, q);
    SmallBasketCost(books, members, small);
    CancelSize(BasketCost(books, legs, q).netCost, BestAskTotal(books, members), small, q);
  }

  /** Some executable size of a basket makes a profit exactly when the best asks of its tokens add
      up to less than the dollar it pays. */
  lemma ProfitableSizeExistsExactly(books: Books, members: seq<Member>)
    requires MaxBasketQuantity(books, BasketLegs(members)) > 0.0
    ensures Offers(books, members)
    ensures (exists q :: ProfitableSize(books, members, q)) <==> BestAskTotal(books, members) < 1.0
  {
    hide Times, BasketCost;
    MaxNeedsOffers(books, members);
    var legs, best := BasketLegs(members), BestAskTotal(books, members);
    if best < 1.0 {
      var q := SomeSmallSize(books, members, MaxBasketQuantity(books, legs));
      SmallBasketCost(books, members, q);
      CostKeepsQuantity(books, legs, q);
      EdgeOfRate(best, q);
      assert ProfitableSize(books, members, q);
    } else {
      forall q | ProfitableSize(books, members, q) ensures false {
        CostAtLeastBest(books, members, q);
        CostKeepsQuantity(books, legs, q);
        EdgeOfRate(best, q);
      }
    }
  }

  lemma EdgeOfRate(rate: real, q: real)
    requires q > 0.0
    ensures Times(1.0, q) - Times(rate, q) > 0.0 <==> rate < 1.0
  {
    assert q - rate * q == (1.0 - rate) * q;
  }

  /** The volume-weighted average prices at the largest executable size, added up. */
  function AverageTotal(books: Books, members: seq<Member>): real {
    var legs := BasketLegs(members);
    MemberTotal(members, UnitPrices(Fills(books, legs, MaxBasketQuantity(books, legs))))
  }

  /** With the leg and confidence gates passed, the detector reports a basket exactly when its
      average prices at the largest executable size, not its best asks, add up to a positive
      amount below one dollar whose edge exceeds the configured minimum. */
  lemma {:induction false} DetectorFindsExactly(hash: KeyHash, settings: Settings, context: Context, books: Books, confidence: real)
    requires Valid(context)
    requires |context.members| <= settings.maxLegs && confidence >= settings.confidenceThreshold
    requires MaxBasketQuantity(books, BasketLegs(context.members)) > 0.0
    ensures var total := AverageTotal(books, context.members);
      DetectCombinatorial(hash, settings, context, books, confidence).Found?
      <==> 0.0 < total < 1.0 && (1.0 - total) / total * 10000.0 > settings.minEdgeBps
    ensures DetectCombinatorial(hash, settings, context, books, confidence).Found? ==>
      Offers(books, context.members) && BestAskTotal(books, context.members) < 1.0
  {
    hide Times, MaxBasketQuantity, Evaluate, MemberTotal, AllFullyFilled, GrossNotional, Fills;
    var members, legs := context.members, BasketLegs(context.members);
    var quantity := MaxBasketQuantity(books, legs);
    var cost := BasketCost(books, legs, quantity);
    BasketIsPriced(context, books);
    NetPayoffIsStateIndependent(context, UnitPrices(cost.fills));
    var total := AverageTotal(books, members);
    PositiveProduct(total, quantity);
    EdgeOfRate(total, quantity);
    TimesAdds(quantity, 1.0 - total, total);
    if 0.0 < total < 1.0 {
      SameRatio(1.0 - total, total, quantity);
      assert ProfitableSize(books, members, quantity);
      ProfitableSizeExistsExactly(books, members);
    }
  }

  lemma SameRatio(a: real, b: real, q: real)
    requires b > 0.0 && q > 0.0 && Times(b, q) > 0.0
    ensures Times(a, q) / Times(b, q) == a / b
  {
    var r := a / b;
    assert a == r * b;
    assert a * q == r * (b * q);
  }

  lemma PositiveProduct(a: real, q: real)
    requires q > 0.0
    ensures Times(a, q) > 0.0 <==> a > 0.0
  {
  }

  /** The detector misses profit that only smaller sizes have: with asks of one unit at 0.25 and
      one at 1.75 for one token, and two units at 0.50 for its complement, one basket costs 0.75
      but the two baskets the detector looks at cost 1.50 each, and it reports nothing. */
  lemma ProfitMissedAtFullSize(hash: KeyHash, settings: Settings, confidence: real)
    requires settings.maxLegs >= 2 && confidence >= settings.confidenceThreshold && settings.minEdgeBps == 0.0
    ensures exists context: Context, books: Books ::
      && Valid(context)
      && (exists q :: ProfitableSize(books, context.members, q))
      && DetectCombinatorial(hash, settings, context, books, confidence).Rejected?
  {
    var cheap, dear, complement := BookLevel(0.25, 1.0), BookLevel(1.75, 1.0), BookLevel(0.5, 2.0);
    var members := [Member(1, 1, ""), Member(1, 2, "")];
    var context := Context(BinaryComplement, members, false, "");
    var books: Books := map[1 := BookSnapshot(1, 0, [], [cheap, dear]), 2 := BookSnapshot(2, 0, [], [complement])];
    TwoLevelBook(cheap, dear);
    OneLevelBook(complement);
    TwoUnitBasket(books, members, 1.0);
    assert BestAskTotal(books, members) == 0.75 by {
      assert members[..1] == [members[0]] && members[..1][..0] == [];
      assert BestAskTotal(books, members[..1]) == 0.25;
    }
    ProfitableSizeExistsExactly(books, members);
    assert Valid(context) && |context.members| == 2;
    hide DetectCombinatorial, AverageTotal, MaxBasketQuantity, Valid;
    DetectorFindsExactly(hash, settings, context, books, confidence);
  }

  const MEMBERS: seq<Member> := [Member(1, 1, ""), Member(1, 2, "")]
  const CONTEXT: Context := Context(BinaryComplement, MEMBERS, false, "")

  /** Two units of each token, the first at `price` and the second at one half. */
  function TwoTokenMarket(price: real): Books {
    map[1 := BookSnapshot(1, 0, [], [BookLevel(price, 2.0)]), 2 := BookSnapshot(2, 0, [], [BookLevel(0.5, 2.0)])]
  }

  lemma {:induction false} MarketSizes(price: real)
    ensures var books := TwoTokenMarket(price);
      && MaxBasketQuantity(books, BasketLegs(MEMBERS)) == 2.0
      && AverageTotal(books, MEMBERS) == price + 0.5
      && (forall m :: m in MEMBERS ==> m.tokenId in BasketCost(books, BasketLegs(MEMBERS), 2.0).fills)
  {
    var books, legs := TwoTokenMarket(price), BasketLegs(MEMBERS);
    OneLevelBook(BookLevel(price, 2.0));
    OneLevelBook(BookLevel(0.5, 2.0));
    hide WeightedFill, MaxBasketQuantity, AverageTotal;
    TwoUnitBasket(books, MEMBERS, price);
    FillsByToken(books, legs, 2.0);
    assert legs[0].tokenId == 1 && legs[1].tokenId == 2;
  }

  lemma {:induction false} PositiveEdge(total: real)
    requires 0.0 < total < 1.0
    ensures (1.0 - total) / total * 10000.0 > 0.0
  {
    PositiveRatio(1.0 - total, total);
  }

  /** At any price below one half two baskets are found. */
  lemma {:induction false} MarketIsFound(hash: KeyHash, settings: Settings, price: real, confidence: real)
    requires 0.0 < price < 0.5
    requires settings.maxLegs >= 2 && confidence >= settings.confidenceThreshold && settings.minEdgeBps == 0.0
    ensures DetectCombinatorial(hash, settings, CONTEXT, TwoTokenMarket(price), confidence).Found?
  {
    MarketSizes(price);
    PositiveEdge(price + 0.5);
    assert Valid(CONTEXT) && |CONTEXT.members| == 2;
    hide DetectCombinatorial, AverageTotal, MaxBasketQuantity, Valid, BasketLegs, BasketCost, TwoTokenMarket;
    DetectorFindsExactly(hash, settings, CONTEXT, TwoTokenMarket(price), confidence);
  }

  /** Findings exist: two units at 0.25 and two at 0.50 are reported. */
  lemma ProfitFoundAtFullSize(hash: KeyHash, settings: Settings, confidence: real)
    requires settings.maxLegs >= 2 && confidence >= settings.confidenceThreshold && settings.minEdgeBps == 0.0
    ensures exists context: Context, books: Books :: DetectCombinatorial(hash, settings, context, books, confidence).Found?
  {
    hide *;
    MarketIsFound(hash, settings, 0.25, confidence);
  }

  lemma TwoLevelBook(cheap: BookLevel, dear: BookLevel)
    requires cheap == BookLevel(0.25, 1.0) && dear == BookLevel(1.75, 1.0)
    ensures Depth([cheap, dear]) == 2.0 && BestLevel([cheap, dear]) == cheap
    ensures WeightedFill([cheap, dear], 2.0, Buy).average == Some(1.0)
  {
    SortIdentity(ByPrice(Buy), [cheap, dear]);
    assert [cheap, dear][1..] == [dear] && [dear][1..] == [];
    assert Depth([dear]) == 1.0;
    assert WalkLevels([dear], 1.0) == Walk(1.0, 1.75, [FillSlice(1.75, 1.0, 1.0)]);
    assert WalkLevels([cheap, dear], 2.0).notional == 2.0;
  }

  lemma OneLevelBook(level: BookLevel)
    requires level.size == 2.0
    ensures Depth([level]) == 2.0 && BestLevel([level]) == level
    ensures WeightedFill([level], 2.0, Buy).average == Some(level.price)
  {
    SortIdentity(ByPrice(Buy), [level]);
    assert [level][1..] == [];
    assert WalkLevels([level], 2.0) == Walk(2.0, Times(level.price, 2.0), [FillSlice(level.price, 2.0, 2.0)]);
  }

  lemma TwoUnitSize(books: Books, legs: seq<OpportunityLeg>)
    requires |legs| == 2 && forall leg :: leg in legs ==> leg.quantity == 1.0 && LegDepth(books, leg) == 2.0
    ensures MaxBasketQuantity(books, legs) == 2.0
  {
    assert legs[0] in legs && legs[1] in legs;
    assert legs[..1] == [legs[0]];
  }

  lemma {:induction false} TwoUnitBasket(books: Books, members: seq<Member>, first: real)
    requires members == [Member(1, 1, ""), Member(1, 2, "")] && 1 in books && 2 in books
    requires Depth(books[1].asks) == Depth(books[2].asks) == 2.0
    requires WeightedFill(books[1].asks, 2.0, Buy).average == Some(first)
    requires WeightedFill(books[2].asks, 2.0, Buy).average == Some(0.5)
    ensures MaxBasketQuantity(books, BasketLegs(members)) == 2.0
    ensures AverageTotal(books, members) == first + 0.5
  {
    hide WeightedFill, MemberTotal;
    TwoUnitSize(books, BasketLegs(members));
    FullSizeAverages(books, members, Fills(books, BasketLegs(members), 2.0), first);
  }

  lemma {:induction false} FullSizeAverages(books: Books, members: seq<Member>, fills: map<int, FillComputation>, first: real)
    requires members == [Member(1, 1, ""), Member(1, 2, "")] && 1 in books && 2 in books
    requires fills == Fills(books, BasketLegs(members), 2.0)
    requires WeightedFill(books[1].asks, 2.0, Buy).average == Some(first)
    requires WeightedFill(books[2].asks, 2.0, Buy).average == Some(0.5)
    ensures MemberTotal(members, UnitPrices(fills)) == first + 0.5
  {
    hide WeightedFill;
    var legs := BasketLegs(members);
    FillsByToken(books, legs, 2.0);
    assert legs[0].tokenId == 1 && legs[1].tokenId == 2;
    assert UnitPrices(fills)[1] == first && UnitPrices(fills)[2] == 0.5;
    assert members[..1] == [members[0]] && members[..1][..0] == [];
    assert MemberTotal(members[..1], UnitPrices(fills)) == first;
  }
}
