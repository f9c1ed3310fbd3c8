/** Greedy pricing of one fill against order-book depth
    (src/constraint_scanner/simulation/executable_pricing.py). */
module ExecutablePricing {
  import opened Common
  import opened Sorting

  datatype BookLevel = BookLevel(price: real, size: real)

  datatype BookSnapshot = BookSnapshot(tokenId: int, observedAt: Instant, bids: seq<BookLevel>, asks: seq<BookLevel>)

  datatype FillSlice = FillSlice(price: real, available: real, filled: real)

  datatype FillComputation = FillComputation(
    side: Side, desired: real, filled: real, average: Option<real>, notional: real, consumed: seq<FillSlice>)
  {
    function Unfilled(): real { desired - filled }

    predicate FullyFilled() { Unfilled() == 0.0 }
  }

  /** How badly a price serves the order: a buyer dislikes high prices, a seller low ones. */
  function Badness(side: Side, level: BookLevel): real {
    if side == Buy then level.price else -level.price
  }

  /** Best price first, larger size first among equal prices. */
  predicate Precedes(side: Side, a: BookLevel, b: BookLevel) {
    Badness(side, a) < Badness(side, b) || (a.price == b.price && a.size >= b.size)
  }

  function ByPrice(side: Side): (BookLevel, BookLevel) -> bool {
    (a, b) => Precedes(side, a, b)
  }

  lemma ByPriceIsOrder(side: Side)
    ensures TotalPreorder(ByPrice(side)) && Antisymmetric(ByPrice(side))
  {
  }

  function SortedLevels(levels: seq<BookLevel>, side: Side): seq<BookLevel> {
    Sort(ByPrice(side), levels)
  }

  lemma LevelsAreSorted(levels: seq<BookLevel>, side: Side)
    ensures Sorted(ByPrice(side), SortedLevels(levels, side))
  {
    ByPriceIsOrder(side);
    SortSorted(ByPrice(side), levels);
  }

  /** Executable size of a level: a level without positive size offers nothing. */
  function Offered(level: BookLevel): real { Max(level.size, 0.0) }

  function Depth(levels: seq<BookLevel>): real {
    if levels == [] then 0.0 else Offered(levels[0]) + Depth(levels[1..])
  }

  datatype Walk = Walk(filled: real, notional: real, slices: seq<FillSlice>)

  /** Consume `levels` in the given order until `remaining` is used up. */
  function WalkLevels(levels: seq<BookLevel>, remaining: real): Walk {
    if remaining <= 0.0 || levels == [] then Walk(0.0, 0.0, [])
    else if levels[0].size <= 0.0 then WalkLevels(levels[1..], remaining)
    else
      var quantity := Min(levels[0].size, remaining);
      var rest := WalkLevels(levels[1..], remaining - quantity);
      Walk(quantity + rest.filled, Times(levels[0].price, quantity) + rest.notional,
           [FillSlice(levels[0].price, levels[0].size, quantity)] + rest.slices)
  }

  function Unfillable(desired: real, side: Side): FillComputation {
    FillComputation(side, desired, 0.0, None, 0.0, [])
  }

  function WeightedFill(levels: seq<BookLevel>, desired: real, side: Side): FillComputation {
    if desired <= 0.0 then Unfillable(desired, side)
    else
      var walk := WalkLevels(SortedLevels(levels, side), desired);
      FillComputation(side, desired, walk.filled,
                      if walk.filled > 0.0 then Some(walk.notional / walk.filled) else None,
                      walk.notional, walk.slices)
  }

  method ComputeWeightedFillPrice(levels: seq<BookLevel>, desired: real, side: Side) returns (fill: FillComputation)
    ensures fill == WeightedFill(levels, desired, side)
  {
    hide Times;
    if desired <= 0.0 {
      return FillComputation(side, desired, 0.0, None, 0.0, []);
    }
    var sorted := SortedLevels(levels, side);
    var remaining, notional, filled, consumed := desired, 0.0, 0.0, [];
    ghost var whole := WalkLevels(sorted, desired);
    var i := 0;
    while i < |sorted|
      invariant 0 <= i <= |sorted|
      invariant whole.filled == filled + WalkLevels(sorted[i..], remaining).filled
      invariant whole.notional == notional + WalkLevels(sorted[i..], remaining).notional
      invariant whole.slices == consumed + WalkLevels(sorted[i..], remaining).slices
    {
      if remaining <= 0.0 {
        break;
      }
      var level := sorted[i];
      assert sorted[i..][1..] == sorted[i + 1..];
      if level.size > 0.0 {
        var quantity := Min(level.size, remaining);
        consumed := consumed + [FillSlice(level.price, level.size, quantity)];
        notional := notional + Times(level.price, quantity);
        filled := filled + quantity;
        remaining := remaining - quantity;
      }
      i := i + 1;
    }
    fill := FillComputation(side, desired, filled, if filled > 0.0 then Some(notional / filled) else None, notional, consumed);
  }

  // ---------------------------------------------------------------- quantities

  lemma {:induction false} DepthNonNegative(levels: seq<BookLevel>)
    ensures Depth(levels) >= 0.0
  {
    if levels != [] { DepthNonNegative(levels[1..]); }
  }

  lemma {:induction false} WalkFills(levels: seq<BookLevel>, q: real)
    ensures WalkLevels(levels, q).filled == Min(Max(q, 0.0), Depth(levels))
  {
    DepthNonNegative(levels);
    if q > 0.0 && levels != [] {
      DepthNonNegative(levels[1..]);
      if levels[0].size <= 0.0 {
        WalkFills(levels[1..], q);
      } else {
        WalkFills(levels[1..], q - Min(levels[0].size, q));
      }
    }
  }

  lemma {:induction false} InsertDepth(side: Side, level: BookLevel, levels: seq<BookLevel>)
    ensures Depth(Insert(ByPrice(side), level, levels)) == Offered(level) + Depth(levels)
  {
    if levels == [] || Precedes(side, level, levels[0]) {
      assert ([level] + levels)[1..] == levels;
    } else {
      InsertDepth(side, level, levels[1..]);
      var r := Insert(ByPrice(side), level, levels[1..]);
      assert ([levels[0]] + r)[1..] == r;
    }
  }

  lemma {:induction false} SortDepth(side: Side, levels: seq<BookLevel>)
    ensures Depth(SortedLevels(levels, side)) == Depth(levels)
  {
    if levels != [] {
      SortDepth(side, levels[1..]);
      InsertDepth(side, levels[0], SortedLevels(levels[1..], side));
    }
  }

  /** A fill takes exactly what is asked for, as far as the positive depth reaches. */
  lemma FilledQuantityExact(levels: seq<BookLevel>, desired: real, side: Side)
    ensures WeightedFill(levels, desired, side).filled == Min(Max(desired, 0.0), Depth(levels))
    ensures desired >= 0.0 ==> (WeightedFill(levels, desired, side).FullyFilled() <==> desired <= Depth(levels))
  {
    DepthNonNegative(levels);
    SortDepth(side, levels);
    WalkFills(SortedLevels(levels, side), desired);
  }

  /** The order in which the levels are listed does not matter at all. */
  lemma FillPermutationInvariant(a: seq<BookLevel>, b: seq<BookLevel>, desired: real, side: Side)
    requires multiset(a) == multiset(b)
    ensures WeightedFill(a, desired, side) == WeightedFill(b, desired, side)
  {
    ByPriceIsOrder(side);
    SortCanonical(ByPrice(side), a, b);
  }

  function SliceQuantity(slices: seq<FillSlice>): real {
    if slices == [] then 0.0 else slices[0].filled + SliceQuantity(slices[1..])
  }

  function SliceNotional(slices: seq<FillSlice>): real {
    if slices == [] then 0.0 else Times(slices[0].price, slices[0].filled) + SliceNotional(slices[1..])
  }

  /** The audit trail accounts for the whole fill; only the last slice may be partial. */
  lemma {:induction false} WalkSlices(levels: seq<BookLevel>, q: real)
    ensures var w := WalkLevels(levels, q);
            && w.filled == SliceQuantity(w.slices)
            && w.notional == SliceNotional(w.slices)
            && (w.slices == [] <==> w.filled == 0.0)
            && (forall i :: 0 <= i < |w.slices| ==> 0.0 < w.slices[i].filled <= w.slices[i].available)
            && (forall i :: 0 <= i < |w.slices| - 1 ==> w.slices[i].filled == w.slices[i].available)
  {
    if q > 0.0 && levels != [] {
      if levels[0].size <= 0.0 {
        WalkSlices(levels[1..], q);
      } else {
        var m := Min(levels[0].size, q);
        WalkSlices(levels[1..], q - m);
        var rest := WalkLevels(levels[1..], q - m);
        var w := WalkLevels(levels, q);
        assert w.slices[1..] == rest.slices;
        WalkFills(levels[1..], q - m);
        DepthNonNegative(levels[1..]);
      }
    }
  }

  lemma SlicesAccountForFill(levels: seq<BookLevel>, desired: real, side: Side)
    ensures var f := WeightedFill(levels, desired, side);
            && f.filled == SliceQuantity(f.consumed)
            && f.notional == SliceNotional(f.consumed)
            && (f.average.Some? <==> f.filled > 0.0)
            && (f.average.Some? ==> Times(f.average.value, f.filled) == f.notional)
            && (f.average.None? ==> f.notional == 0.0 && f.consumed == [])
            && (forall i :: 0 <= i < |f.consumed| ==> 0.0 < f.consumed[i].filled <= f.consumed[i].available)
            && (forall i :: 0 <= i < |f.consumed| - 1 ==> f.consumed[i].filled == f.consumed[i].available)
  {
    hide Times;
    FilledQuantityExact(levels, desired, side);
    DepthNonNegative(levels);
    if desired > 0.0 {
      WalkSlices(SortedLevels(levels, side), desired);
      var walk := WalkLevels(SortedLevels(levels, side), desired);
      if walk.filled > 0.0 { QuotientTimes(walk.notional, walk.filled); }
      hide WalkLevels, SliceQuantity, SliceNotional, SortedLevels;
    }
  }

  // ---------------------------------------------------------------- cost curve

  function Signed(side: Side, amount: real): real {
    if side == Buy then amount else -amount
  }

  /** The notional of walking `levels` for `q`, signed so that the order wants it small. */
  function Cost(side: Side, levels: seq<BookLevel>, q: real): real {
    if q <= 0.0 || levels == [] then 0.0
    else
      var m := Min(Offered(levels[0]), q);
      Times(Badness(side, levels[0]), m) + Cost(side, levels[1..], q - m)
  }

  lemma SignedTimes(side: Side, level: BookLevel, quantity: real)
    ensures Signed(side, Times(level.price, quantity)) == Times(Badness(side, level), quantity)
  {
  }

  lemma {:induction false} CostIsNotional(side: Side, levels: seq<BookLevel>, q: real)
    ensures Cost(side, levels, q) == Signed(side, WalkLevels(levels, q).notional)
  {
    hide Times;
    if q > 0.0 && levels != [] {
      var m := Min(Offered(levels[0]), q);
      CostIsNotional(side, levels[1..], q - m);
      if levels[0].size <= 0.0 {
        TimesZero(Badness(side, levels[0]));
      } else {
        SignedTimes(side, levels[0], m);
      }
    }
  }

  lemma CostUnfold(side: Side, levels: seq<BookLevel>, q: real)
    requires levels != [] && 0.0 <= q
    ensures var m := Min(Offered(levels[0]), q);
            Cost(side, levels, q) == Times(Badness(side, levels[0]), m) + Cost(side, levels[1..], q - m)
  {
  }

  lemma CostOfNothing(side: Side, levels: seq<BookLevel>)
    ensures Cost(side, levels, 0.0) == 0.0
  {
  }

  lemma CostEmpty(side: Side, q: real)
    ensures Cost(side, [], q) == 0.0
  {
  }

  lemma {:induction false} CostSaturates(side: Side, levels: seq<BookLevel>, q: real)
    requires q >= Depth(levels)
    ensures Cost(side, levels, q) == Cost(side, levels, Depth(levels))
  {
    hide Cost, Times;
    DepthNonNegative(levels);
    if levels == [] {
      CostEmpty(side, q);
      CostEmpty(side, 0.0);
    } else {
      DepthNonNegative(levels[1..]);
      CostUnfold(side, levels, q);
      CostUnfold(side, levels, Depth(levels));
      CostSaturates(side, levels[1..], q - Offered(levels[0]));
    }
  }

  /** Every further unit costs at least the best price on offer. */
  lemma {:induction false} MarginalCost(side: Side, levels: seq<BookLevel>, floor: real, a: real, b: real)
    requires forall l :: l in levels ==> floor <= Badness(side, l)
    requires 0.0 <= a <= b <= Depth(levels)
    ensures Cost(side, levels, b) - Cost(side, levels, a) >= Times(floor, b - a)
  {
    hide Cost, Times;
    if levels == [] {
      CostEmpty(side, a);
      TimesZero(floor);
    } else {
      var k, c := Badness(side, levels[0]), Offered(levels[0]);
      var ma, mb := Min(c, a), Min(c, b);
      DepthNonNegative(levels[1..]);
      MarginalCost(side, levels[1..], floor, a - ma, b - mb);
      CostUnfold(side, levels, a);
      CostUnfold(side, levels, b);
      TimesAdds(k, ma, mb - ma);
      TimesMonotone(floor, k, mb - ma);
      TimesAdds(floor, mb - ma, (b - mb) - (a - ma));
    }
  }

  // ---------------------------------------------------------------- optimality

  /** A way to fill an order: a quantity for each listed level, within what the level offers. */
  ghost predicate Allocation(levels: seq<BookLevel>, x: seq<real>) {
    |x| == |levels| && forall i :: 0 <= i < |x| ==> 0.0 <= x[i] <= Offered(levels[i])
  }

  function AllocationNotional(levels: seq<BookLevel>, x: seq<real>): real
    requires |x| == |levels|
  {
    if x == [] then 0.0 else Times(levels[0].price, x[0]) + AllocationNotional(levels[1..], x[1..])
  }

  lemma AllocationUnfold(side: Side, levels: seq<BookLevel>, x: seq<real>)
    requires |x| == |levels| && x != []
    ensures Signed(side, AllocationNotional(levels, x))
         == Times(Badness(side, levels[0]), x[0]) + Signed(side, AllocationNotional(levels[1..], x[1..]))
    ensures Sum(x) == x[0] + Sum(x[1..])
  {
    SignedTimes(side, levels[0], x[0]);
    SumSplit([x[0]], x[1..]);
    assert [x[0]] + x[1..] == x;
  }

  lemma {:induction false} AllocationBounds(levels: seq<BookLevel>, x: seq<real>)
    requires Allocation(levels, x)
    ensures 0.0 <= Sum(x) <= Depth(levels)
  {
    if x != [] {
      AllocationBounds(levels[1..], x[1..]);
      SumSplit([x[0]], x[1..]);
      assert [x[0]] + x[1..] == x;
    }
  }

  /** Buying `x` from a new level and `q` from a sorted book costs no less than buying `x + q`
      greedily from the book with the level sorted in: the exchange argument. */
  lemma {:induction false} InsertionCost(side: Side, l: BookLevel, s: seq<BookLevel>, x: real, q: real)
    requires Sorted(ByPrice(side), s) && 0.0 <= x <= Offered(l) && 0.0 <= q <= Depth(s)
    ensures Times(Badness(side, l), x) + Cost(side, s, q) >= Cost(side, Insert(ByPrice(side), l, s), x + q)
  {
    hide Cost, Times;
    var k := Badness(side, l);
    if s == [] || Precedes(side, l, s[0]) {
      assert ([l] + s)[1..] == s;
      CostUnfold(side, [l] + s, x + q);
      var m := Min(Offered(l), x + q);
      MarginalCost(side, s, k, q - (m - x), q);
      assert q - (q - (m - x)) == m - x && x + (m - x) == m && (x + q) - m == q - (m - x);
      TimesAdds(k, x, m - x);
    } else {
      var k0, c0 := Badness(side, s[0]), Offered(s[0]);
      DepthNonNegative(s[1..]);
      var tail := Insert(ByPrice(side), l, s[1..]);
      assert ([s[0]] + tail)[1..] == tail;
      CostUnfold(side, [s[0]] + tail, x + q);
      CostUnfold(side, s, q);
      if c0 <= q {
        InsertionCost(side, l, s[1..], x, q - c0);
        assert (x + q) - c0 == x + (q - c0);
      } else {
        var d := Min(c0, x + q) - q;
        CostOfNothing(side, s[1..]);
        InsertionCost(side, l, s[1..], x - d, 0.0);
        assert q - q == 0.0 && (x + q) - (q + d) == (x - d) + 0.0 && q + d == Min(c0, x + q);
        TimesAdds(k0, q, d);
        TimesMonotone(k0, k, d);
        TimesAdds(k, x - d, d);
        assert (x - d) + d == x;
      }
    }
  }

  lemma {:induction false} AllocationCostsMore(side: Side, levels: seq<BookLevel>, x: seq<real>)
    requires Allocation(levels, x)
    ensures Signed(side, AllocationNotional(levels, x)) >= Cost(side, SortedLevels(levels, side), Sum(x))
  {
    hide Cost, Times, AllocationNotional;
    if x == [] {
      assert Signed(side, AllocationNotional(levels, x)) == 0.0 by { EmptyAllocation(levels); }
      CostEmpty(side, 0.0);
    } else {
      AllocationCostsMore(side, levels[1..], x[1..]);
      AllocationUnfold(side, levels, x);
      AllocationBounds(levels[1..], x[1..]);
      var s := SortedLevels(levels[1..], side);
      LevelsAreSorted(levels[1..], side);
      SortDepth(side, levels[1..]);
      InsertionCost(side, levels[0], s, x[0], Sum(x[1..]));
    }
  }

  lemma EmptyAllocation(levels: seq<BookLevel>)
    requires levels == []
    ensures AllocationNotional(levels, []) == 0.0
  {
  }

  /** How much of a greedy fill of the enlarged book falls on the inserted level. */
  lemma {:induction false} InsertionShare(side: Side, l: BookLevel, s: seq<BookLevel>, q: real) returns (x: real)
    requires 0.0 <= q <= Offered(l) + Depth(s)
    ensures 0.0 <= x <= Offered(l) && 0.0 <= q - x <= Depth(s)
    ensures Cost(side, Insert(ByPrice(side), l, s), q) == Times(Badness(side, l), x) + Cost(side, s, q - x)
  {
    hide Cost, Times;
    DepthNonNegative(s);
    if s == [] || Precedes(side, l, s[0]) {
      assert ([l] + s)[1..] == s;
      CostUnfold(side, [l] + s, q);
      x := Min(Offered(l), q);
    } else {
      var m := Min(Offered(s[0]), q);
      DepthNonNegative(s[1..]);
      var tail := Insert(ByPrice(side), l, s[1..]);
      assert ([s[0]] + tail)[1..] == tail;
      CostUnfold(side, [s[0]] + tail, q);
      x := InsertionShare(side, l, s[1..], q - m);
      CostUnfold(side, s, q - x);
      assert (q - x) - m == (q - m) - x;
    }
  }

  lemma {:induction false} GreedyAllocation(side: Side, levels: seq<BookLevel>, q: real) returns (x: seq<real>)
    requires 0.0 <= q <= Depth(levels)
    ensures Allocation(levels, x) && Sum(x) == q
    ensures Signed(side, AllocationNotional(levels, x)) == Cost(side, SortedLevels(levels, side), q)
  {
    hide Cost, Times, AllocationNotional;
    if levels == [] {
      x := [];
      CostEmpty(side, q);
      EmptyAllocation(levels);
    } else {
      SortDepth(side, levels[1..]);
      var x0 := InsertionShare(side, levels[0], SortedLevels(levels[1..], side), q);
      var rest := GreedyAllocation(side, levels[1..], q - x0);
      x := [x0] + rest;
      assert x[1..] == rest;
      AllocationUnfold(side, levels, x);
    }
  }

  /** The notional of a fill depends only on what it fills. */
  lemma FilledCost(levels: seq<BookLevel>, desired: real, side: Side)
    ensures var f := WeightedFill(levels, desired, side);
            && 0.0 <= f.filled <= Depth(levels)
            && Signed(side, f.notional) == Cost(side, SortedLevels(levels, side), f.filled)
  {
    hide WalkLevels;
    FilledQuantityExact(levels, desired, side);
    DepthNonNegative(levels);
    SortDepth(side, levels);
    var s := SortedLevels(levels, side);
    CostIsNotional(side, s, desired);
    if desired <= 0.0 {
      CostOfNothing(side, s);
    } else if desired > Depth(levels) {
      CostSaturates(side, s, desired);
    }
  }

  /** Greedy optimality: no allocation of the same quantity over the listed levels buys cheaper
      or sells dearer, and one allocation achieves the greedy notional. */
  lemma GreedyFillIsOptimal(levels: seq<BookLevel>, desired: real, side: Side) returns (best: seq<real>)
    ensures var f := WeightedFill(levels, desired, side);
            && Allocation(levels, best) && Sum(best) == f.filled && AllocationNotional(levels, best) == f.notional
            && forall x :: Allocation(levels, x) && Sum(x) == f.filled ==>
                 if side == Buy then f.notional <= AllocationNotional(levels, x)
                 else AllocationNotional(levels, x) <= f.notional
  {
    hide Cost;
    var f := WeightedFill(levels, desired, side);
    FilledCost(levels, desired, side);
    best := GreedyAllocation(side, levels, f.filled);
    forall x | Allocation(levels, x) && Sum(x) == f.filled
      ensures Signed(side, f.notional) <= Signed(side, AllocationNotional(levels, x))
    {
      AllocationCostsMore(side, levels, x);
    }
  }

  // ---------------------------------------------------------------- convexity

  /** The cost curve is convex through the origin: the average only gets worse. */
  lemma {:induction false} AverageWorsens(side: Side, s: seq<BookLevel>, a: real, b: real)
    requires Sorted(ByPrice(side), s) && 0.0 <= a <= b <= Depth(s)
    ensures Times(Cost(side, s, b), a) >= Times(Cost(side, s, a), b)
  {
    hide Cost, Times;
    if s == [] {
      assert a == b;
    } else {
      var k, c := Badness(side, s[0]), Offered(s[0]);
      DepthNonNegative(s[1..]);
      CostUnfold(side, s, a);
      CostUnfold(side, s, b);
      assert forall l :: l in s ==> k <= Badness(side, l);
      if a <= c {
        CostOfNothing(side, s[1..]);
        MarginalCost(side, s, k, a, b);
        AverageInFirstLevel(k, a, b, Cost(side, s, b));
      } else {
        AverageWorsens(side, s[1..], a - c, b - c);
        MarginalCost(side, s[1..], k, a - c, b - c);
        AverageStep(k, c, a, b, Cost(side, s[1..], a - c), Cost(side, s[1..], b - c));
      }
    }
  }

  lemma AverageInFirstLevel(k: real, a: real, b: real, costB: real)
    requires 0.0 <= a <= b && costB - Times(k, a) >= Times(k, b - a)
    ensures Times(costB, a) >= Times(Times(k, a), b)
  {
    assert costB >= k * b;
    TimesMonotone(k * b, costB, a);
    assert (k * b) * a == (k * a) * b;
  }

  lemma AverageStep(k: real, c: real, a: real, b: real, ca: real, cb: real)
    requires 0.0 <= c < a <= b
    requires Times(cb, a - c) >= Times(ca, b - c)
    requires cb - ca >= Times(k, (b - c) - (a - c))
    ensures Times(Times(k, c) + cb, a) >= Times(Times(k, c) + ca, b)
  {
    TimesMonotone(k * (b - a), cb - ca, c);
    assert (k * c + cb) * a - (k * c + ca) * b
        == (cb * (a - c) - ca * (b - c)) + ((cb - ca) * c - (k * (b - a)) * c);
  }

  lemma DivisionOrder(a: real, m: real, b: real, n: real)
    requires 0.0 < m && 0.0 < n && Times(b, m) >= Times(a, n)
    ensures a / m <= b / n
  {
    var x, y := a / m, b / n;
    assert a == x * m && b == y * n;
    assert (y - x) * (m * n) >= 0.0;
  }

  /** A larger fill never has a better average price. */
  lemma AveragePriceMonotone(levels: seq<BookLevel>, side: Side, small: real, large: real)
    requires 0.0 < small <= large <= Depth(levels)
    ensures var fs, fl := WeightedFill(levels, small, side), WeightedFill(levels, large, side);
            && fs.average.Some? && fl.average.Some?
            && if side == Buy then fs.average.value <= fl.average.value else fs.average.value >= fl.average.value
  {
    hide Cost, Times, WalkLevels;
    var fs, fl := WeightedFill(levels, small, side), WeightedFill(levels, large, side);
    FilledQuantityExact(levels, small, side);
    FilledQuantityExact(levels, large, side);
    FilledCost(levels, small, side);
    FilledCost(levels, large, side);
    SortDepth(side, levels);
    LevelsAreSorted(levels, side);
    AverageWorsens(side, SortedLevels(levels, side), small, large);
    DivisionOrder(Signed(side, fs.notional), small, Signed(side, fl.notional), large);
    NegatedQuotient(fs.notional, small);
    NegatedQuotient(fl.notional, large);
  }

  lemma NegatedQuotient(a: real, m: real)
    requires 0.0 < m
    ensures (-a) / m == -(a / m)
  {
  }

  // ---------------------------------------------------------------- splitting a fill

  /** What a fill of `q` leaves of `levels`, consumed in the given order. */
  function Remaining(levels: seq<BookLevel>, q: real): seq<BookLevel> {
    if q <= 0.0 || levels == [] then levels
    else if Offered(levels[0]) <= q then Remaining(levels[1..], q - Offered(levels[0]))
    else [BookLevel(levels[0].price, levels[0].size - q)] + levels[1..]
  }

  /** Sorted by price, in whatever order among equal prices. */
  ghost predicate PriceSorted(side: Side, levels: seq<BookLevel>) {
    forall i, j :: 0 <= i < j < |levels| ==> Badness(side, levels[i]) <= Badness(side, levels[j])
  }

  lemma {:induction false} RemainingShape(side: Side, levels: seq<BookLevel>, a: real)
    requires 0.0 <= a && PriceSorted(side, levels)
    ensures Depth(Remaining(levels, a)) == Max(Depth(levels) - a, 0.0)
    ensures PriceSorted(side, Remaining(levels, a))
  {
    DepthNonNegative(levels);
    if a > 0.0 && levels != [] {
      DepthNonNegative(levels[1..]);
      if Offered(levels[0]) <= a {
        RemainingShape(side, levels[1..], a - Offered(levels[0]));
      } else {
        var left := BookLevel(levels[0].price, levels[0].size - a);
        assert ([left] + levels[1..])[1..] == levels[1..];
      }
    }
  }

  /** A fill that ends inside the first level leaves the rest of that level. */
  lemma PartialLevelCost(side: Side, levels: seq<BookLevel>, a: real, b: real)
    requires levels != [] && 0.0 < a < Offered(levels[0]) && 0.0 <= b
    ensures Cost(side, levels, a + b)
         == Cost(side, levels, a) + Cost(side, [BookLevel(levels[0].price, levels[0].size - a)] + levels[1..], b)
  {
    hide Cost, Times;
    var k, c := Badness(side, levels[0]), Offered(levels[0]);
    var left := BookLevel(levels[0].price, levels[0].size - a);
    CostUnfold(side, levels, a + b);
    CostUnfold(side, levels, a);
    assert ([left] + levels[1..])[1..] == levels[1..];
    CostUnfold(side, [left] + levels[1..], b);
    var m := Min(c - a, b);
    CostOfNothing(side, levels[1..]);
    TimesAdds(k, a, m);
    assert (a + b) - (a + m) == b - m;
  }

  lemma {:induction false} RemainingCost(side: Side, levels: seq<BookLevel>, a: real, b: real)
    requires 0.0 <= a && 0.0 <= b && PriceSorted(side, levels)
    ensures Cost(side, levels, a + b) == Cost(side, levels, a) + Cost(side, Remaining(levels, a), b)
    ensures Depth(Remaining(levels, a)) == Max(Depth(levels) - a, 0.0)
    ensures PriceSorted(side, Remaining(levels, a))
  {
    RemainingShape(side, levels, a);
    hide Cost, Times, Depth;
    if levels == [] {
      CostEmpty(side, a);
      CostEmpty(side, b);
      CostEmpty(side, a + b);
    } else if a == 0.0 {
      CostOfNothing(side, levels);
      assert a + b == b;
    } else if Offered(levels[0]) <= a {
      var c := Offered(levels[0]);
      CostUnfold(side, levels, a + b);
      CostUnfold(side, levels, a);
      RemainingCost(side, levels[1..], a - c, b);
      assert (a + b) - c == (a - c) + b;
    } else {
      PartialLevelCost(side, levels, a, b);
    }
  }

  lemma {:induction false} InsertBelowAll(side: Side, l: BookLevel, s: seq<BookLevel>, q: real)
    requires 0.0 <= q && forall e :: e in s ==> Badness(side, l) <= Badness(side, e)
    ensures Cost(side, Insert(ByPrice(side), l, s), q) == Cost(side, [l] + s, q)
  {
    hide Cost, Times;
    if s != [] && !Precedes(side, l, s[0]) {
      var k := Badness(side, l);
      assert Badness(side, s[0]) == k;
      var tail := Insert(ByPrice(side), l, s[1..]);
      assert ([s[0]] + tail)[1..] == tail && ([l] + s)[1..] == s && ([l] + s[1..])[1..] == s[1..];
      var m0 := Min(Offered(s[0]), q);
      var m1 := Min(Offered(l), q - m0);
      var n1 := Min(Offered(l), q);
      var n0 := Min(Offered(s[0]), q - n1);
      CostUnfold(side, [s[0]] + tail, q);
      InsertBelowAll(side, l, s[1..], q - m0);
      CostUnfold(side, [l] + s[1..], q - m0);
      CostUnfold(side, [l] + s, q);
      CostUnfold(side, s, q - n1);
      TimesAdds(k, m0, m1);
      TimesAdds(k, n1, n0);
      assert m0 + m1 == n1 + n0 && (q - m0) - m1 == (q - n1) - n0;
    }
  }

  lemma SortedMembers(levels: seq<BookLevel>, side: Side, e: BookLevel)
    requires e in SortedLevels(levels, side)
    ensures e in levels
  {
    ByPriceIsOrder(side);
    SortSorted(ByPrice(side), levels);
    assert e in multiset(SortedLevels(levels, side));
  }

  lemma {:induction false} ResortingIsFree(side: Side, s: seq<BookLevel>, q: real)
    requires 0.0 <= q && PriceSorted(side, s)
    ensures Cost(side, SortedLevels(s, side), q) == Cost(side, s, q)
  {
    hide Cost, Times;
    if s != [] {
      var t := SortedLevels(s[1..], side);
      var m := Min(Offered(s[0]), q);
      ResortingIsFree(side, s[1..], q - m);
      forall e | e in t ensures Badness(side, s[0]) <= Badness(side, e) {
        SortedMembers(s[1..], side, e);
      }
      InsertBelowAll(side, s[0], t, q);
      assert ([s[0]] + t)[1..] == t;
      CostUnfold(side, [s[0]] + t, q);
      CostUnfold(side, s, q);
    }
  }

  /** Filling `a + b` at once is filling `a`, and then `b` from what is left of the book. */
  lemma FillSplits(levels: seq<BookLevel>, side: Side, a: real, b: real)
    requires 0.0 <= a && 0.0 <= b
    ensures var left := Remaining(SortedLevels(levels, side), a);
            var whole, first, second := WeightedFill(levels, a + b, side), WeightedFill(levels, a, side), WeightedFill(left, b, side);
            && whole.filled == first.filled + second.filled
            && whole.notional == first.notional + second.notional
  {
    hide Cost, Times, WeightedFill, Remaining;
    var s := SortedLevels(levels, side);
    var left := Remaining(s, a);
    assert PriceSorted(side, s) by { LevelsAreSorted(levels, side); }
    SortDepth(side, levels);
    DepthNonNegative(levels);
    RemainingCost(side, s, a, b);
    ResortingIsFree(side, left, b);
    FilledQuantityExact(levels, a, side);
    FilledQuantityExact(levels, a + b, side);
    FilledQuantityExact(left, b, side);
    SignedNotional(levels, a, side);
    SignedNotional(levels, a + b, side);
    SignedNotional(left, b, side);
  }

  lemma SignedNotional(levels: seq<BookLevel>, desired: real, side: Side)
    requires 0.0 <= desired
    ensures Signed(side, WeightedFill(levels, desired, side).notional) == Cost(side, SortedLevels(levels, side), desired)
  {
    CostIsNotional(side, SortedLevels(levels, side), desired);
  }

  /** Cutting a sorted book after its first levels changes no fill that fits into them. */
  lemma {:induction false} WalkPrefix(levels: seq<BookLevel>, n: nat, q: real)
    requires n <= |levels| && q <= Depth(levels[..n])
    ensures WalkLevels(levels[..n], q) == WalkLevels(levels, q)
  {
    hide Times;
    if q > 0.0 && n > 0 {
      assert levels[..n][1..] == levels[1..][..n - 1];
      DepthNonNegative(levels[1..][..n - 1]);
      WalkPrefix(levels[1..], n - 1, if levels[0].size <= 0.0 then q else q - Min(levels[0].size, q));
    }
  }

  lemma {:induction false} DepthPrefix(levels: seq<BookLevel>, n: nat)
    requires n <= |levels|
    ensures Depth(levels) == Depth(levels[..n]) + Depth(levels[n..])
  {
    if n > 0 {
      assert levels[..n][1..] == levels[1..][..n - 1] && levels[n..] == levels[1..][n - 1..];
      DepthPrefix(levels[1..], n - 1);
    } else {
      assert levels[..0] == [] && levels[0..] == levels;
    }
  }

  lemma SortedPrefix(levels: seq<BookLevel>, n: nat, side: Side)
    requires Sorted(ByPrice(side), levels) && n <= |levels|
    ensures SortedLevels(levels, side) == levels && SortedLevels(levels[..n], side) == levels[..n]
  {
    SortIdentity(ByPrice(side), levels);
    SortIdentity(ByPrice(side), levels[..n]);
  }

  /** A fill on the cut book is the fill on the full book exactly when it fits into the cut
      depth or nothing executable was cut off. */
  lemma CutBookFill(levels: seq<BookLevel>, n: nat, desired: real, side: Side)
    requires Sorted(ByPrice(side), levels) && n <= |levels|
    ensures WeightedFill(levels[..n], desired, side) == WeightedFill(levels, desired, side)
       <==> (desired <= Depth(levels[..n]) || Depth(levels[n..]) == 0.0)
  {
    hide Times;
    SortedPrefix(levels, n, side);
    DepthPrefix(levels, n);
    DepthNonNegative(levels[..n]);
    DepthNonNegative(levels[n..]);
    if desired <= Depth(levels[..n]) {
      WalkPrefix(levels, n, desired);
    } else if Depth(levels[n..]) == 0.0 {
      WalkWorthless(levels, n, desired);
    } else {
      FilledQuantityExact(levels[..n], desired, side);
      FilledQuantityExact(levels, desired, side);
    }
  }

  lemma {:induction false} WalkWorthless(levels: seq<BookLevel>, n: nat, q: real)
    requires n <= |levels| && Depth(levels[n..]) == 0.0
    ensures WalkLevels(levels[..n], q) == WalkLevels(levels, q)
  {
    hide Times;
    if q > 0.0 && levels != [] {
      if n > 0 {
        assert levels[..n][1..] == levels[1..][..n - 1] && levels[n..] == levels[1..][n - 1..];
        WalkWorthless(levels[1..], n - 1, if levels[0].size <= 0.0 then q else q - Min(levels[0].size, q));
      } else {
        DepthNonNegative(levels[1..]);
        assert levels[0..] == levels && levels[1..][0..] == levels[1..];
        assert levels[1..][..0] == levels[..0] == [];
        WalkWorthless(levels[1..], 0, q);
      }
    }
  }
}
