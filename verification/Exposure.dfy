/** Exposure totals over open opportunities
    (src/constraint_scanner/risk/exposure.py). */
module Exposure {
  import opened Common
  import opened Opportunities

  datatype ExposureState = ExposureState(
    unresolved: real, openBaskets: nat, gross: real, net: real, openOrders: int,
    market: map<int, real>, group: map<int, real>, token: map<int, real>)

  function UnresolvedNotional(o: Opportunity): real {
    if o.details.pricing.Some? then OrZero(o.details.pricing.value.grossBuyCost) else 0.0
  }

  function NetCost(o: Opportunity): real {
    if o.details.pricing.Some? then OrZero(o.details.pricing.value.netCost) else 0.0
  }

  function AddTo(m: map<int, real>, key: int, amount: real): map<int, real> {
    m[key := GetOrZero(m, key) + amount]
  }

  function AddToSome(m: map<int, real>, key: Option<int>, amount: real): map<int, real> {
    if key.Some? then AddTo(m, key.value, amount) else m
  }

  function AddMarkets(m: map<int, real>, legs: seq<PricingLeg>): map<int, real> {
    if legs == [] then m
    else AddToSome(AddMarkets(m, legs[..|legs| - 1]), legs[|legs| - 1].marketId, OrZero(legs[|legs| - 1].totalNotional))
  }

  function AddTokens(m: map<int, real>, legs: seq<PricingLeg>): map<int, real> {
    if legs == [] then m
    else AddTo(AddTokens(m, legs[..|legs| - 1]), legs[|legs| - 1].tokenId, OrZero(legs[|legs| - 1].totalNotional))
  }

  /** Adds one opportunity: leg by leg where it has pricing legs, else on its own market and token. */
  function AddOpportunity(e: ExposureState, o: Opportunity): ExposureState {
    if o.status != Open then e
    else
      var notional, legs := UnresolvedNotional(o), LegsOf(o.details);
      ExposureState(
        e.unresolved + notional, e.openBaskets + 1, e.gross + notional, e.net + NetCost(o), e.openOrders,
        if legs != [] then AddMarkets(e.market, legs) else AddToSome(e.market, o.marketId, notional),
        AddToSome(e.group, o.groupId, notional),
        if legs != [] then AddTokens(e.token, legs) else AddToSome(e.token, o.tokenId, notional))
  }

  function ExposureOf(opportunities: seq<Opportunity>, openOrders: int): ExposureState {
    if opportunities == [] then ExposureState(0.0, 0, 0.0, 0.0, openOrders, map[], map[], map[])
    else AddOpportunity(ExposureOf(opportunities[..|opportunities| - 1], openOrders), opportunities[|opportunities| - 1])
  }

  method BuildExposureState(opportunities: seq<Opportunity>, openOrders: int) returns (e: ExposureState)
    ensures e == ExposureOf(opportunities, openOrders)
  {
    var unresolved, net := 0.0, 0.0;
    var openBaskets: nat := 0;
    var market: map<int, real>, group: map<int, real>, token: map<int, real> := map[], map[], map[];
    for i := 0 to |opportunities|
      invariant ExposureState(unresolved, openBaskets, unresolved, net, openOrders, market, group, token)
             == ExposureOf(opportunities[..i], openOrders)
    {
      var o := opportunities[i];
      assert opportunities[..i + 1][..i] == opportunities[..i] && opportunities[..i + 1][i] == o;
      if o.status != Open {
        continue;
      }
      openBaskets := openBaskets + 1;
      var notional := UnresolvedNotional(o);
      unresolved := unresolved + notional;
      net := net + NetCost(o);
      group := AddToSome(group, o.groupId, notional);
      var legs := LegsOf(o.details);
      if legs != [] {
        market, token := AddLegs(market, token, legs);
        continue;
      }
      market := AddToSome(market, o.marketId, notional);
      token := AddToSome(token, o.tokenId, notional);
    }
    assert opportunities[..|opportunities|] == opportunities;
    e := ExposureState(unresolved, openBaskets, unresolved, net, openOrders, market, group, token);
  }

  /** The inner loop: one opportunity's legs, added to the market and token maps. */
  method AddLegs(market: map<int, real>, token: map<int, real>, legs: seq<PricingLeg>)
    returns (markets: map<int, real>, tokens: map<int, real>)
    ensures markets == AddMarkets(market, legs) && tokens == AddTokens(token, legs)
  {
    markets, tokens := market, token;
    for i := 0 to |legs|
      invariant markets == AddMarkets(market, legs[..i]) && tokens == AddTokens(token, legs[..i])
    {
      assert legs[..i + 1][..i] == legs[..i] && legs[..i + 1][i] == legs[i];
      var notional := OrZero(legs[i].totalNotional);
      if legs[i].marketId.Some? {
        markets := AddTo(markets, legs[i].marketId.value, notional);
      }
      tokens := AddTo(tokens, legs[i].tokenId, notional);
    }
    assert legs[..|legs|] == legs;
  }

  // ---------------------------------------------------------------- conservation

  /** The sum of all amounts in a map. */
  ghost function MapTotal(m: map<int, real>): real {
    if m == map[] then 0.0
    else
      var key := SomeKey(m);
      m[key] + MapTotal(m - {key})
  }

  ghost function SomeKey<K, V>(m: map<K, V>): (key: K)
    requires m != map[]
    ensures key in m
  {
    assert m.Keys != {};
    var key :| key in m.Keys;
    key
  }

  lemma {:induction false} MapTotalRemove(m: map<int, real>, key: int)
    requires key in m
    ensures MapTotal(m) == m[key] + MapTotal(m - {key})
    decreases |m|
  {
    var first := SomeKey(m);
    if first != key {
      assert |m - {first}| < |m| && |m - {key}| < |m| by {
        assert (m - {first}).Keys == m.Keys - {first} && (m - {key}).Keys == m.Keys - {key};
      }
      MapTotalRemove(m - {first}, key);
      MapTotalRemove(m - {key}, first);
      assert m - {first} - {key} == m - {key} - {first};
    }
  }

  lemma MapTotalAdd(m: map<int, real>, key: int, amount: real)
    ensures MapTotal(AddTo(m, key, amount)) == MapTotal(m) + amount
  {
    var after := AddTo(m, key, amount);
    MapTotalRemove(after, key);
    assert after - {key} == m - {key};
    if key in m {
      MapTotalRemove(m, key);
    } else {
      assert m - {key} == m;
    }
  }

  lemma {:induction false} LegTotals(m: map<int, real>, legs: seq<PricingLeg>)
    ensures MapTotal(AddTokens(m, legs)) == MapTotal(m) + TotalNotional(legs)
    ensures (forall l :: l in legs ==> l.marketId.Some?) ==> MapTotal(AddMarkets(m, legs)) == MapTotal(m) + TotalNotional(legs)
  {
    hide MapTotal;
    if legs != [] {
      var init, last := legs[..|legs| - 1], legs[|legs| - 1];
      LegTotals(m, init);
      MapTotalAdd(AddTokens(m, init), last.tokenId, OrZero(last.totalNotional));
      if last.marketId.Some? {
        MapTotalAdd(AddMarkets(m, init), last.marketId.value, OrZero(last.totalNotional));
      }
    }
  }

  lemma DetectorLegsPriced(o: Opportunity)
    requires DetectorPricing(o.details)
    ensures LegsOf(o.details) != [] && UnresolvedNotional(o) == TotalNotional(LegsOf(o.details)) == NetCost(o) > 0.0
    ensures forall l :: l in LegsOf(o.details) ==> l.marketId.Some?
  {
  }

  /** Exposure conservation: for detector-priced opportunities the markets' exposures and the tokens'
      exposures each add up to the unresolved notional, which is also the gross and net exposure. */
  lemma {:induction false} ExposureIsConserved(opportunities: seq<Opportunity>, openOrders: int)
    requires forall o :: o in opportunities ==> DetectorPricing(o.details)
    ensures var e := ExposureOf(opportunities, openOrders);
      MapTotal(e.market) == MapTotal(e.token) == e.unresolved == e.gross == e.net
  {
    hide MapTotal, DetectorPricing, AddMarkets, AddTokens;
    if opportunities == [] {
      EmptyTotal();
    } else {
      var init, last := opportunities[..|opportunities| - 1], opportunities[|opportunities| - 1];
      assert last in opportunities;
      ExposureIsConserved(init, openOrders);
      DetectorLegsPriced(last);
      LegTotals(ExposureOf(init, openOrders).market, LegsOf(last.details));
      LegTotals(ExposureOf(init, openOrders).token, LegsOf(last.details));
    }
  }

  lemma EmptyTotal()
    ensures MapTotal(map[]) == 0.0
  {
  }

  // ---------------------------------------------------------------- additivity and order

  /** What the legs contribute to one market. */
  function MarketNotional(legs: seq<PricingLeg>, market: int): real {
    if legs == [] then 0.0
    else
      var last := legs[|legs| - 1];
      MarketNotional(legs[..|legs| - 1], market) + if last.marketId == Some(market) then OrZero(last.totalNotional) else 0.0
  }

  function TokenNotional(legs: seq<PricingLeg>, token: int): real {
    if legs == [] then 0.0
    else
      var last := legs[|legs| - 1];
      TokenNotional(legs[..|legs| - 1], token) + if last.tokenId == token then OrZero(last.totalNotional) else 0.0
  }

  lemma {:induction false} LegShares(m: map<int, real>, legs: seq<PricingLeg>, key: int)
    ensures GetOrZero(AddMarkets(m, legs), key) == GetOrZero(m, key) + MarketNotional(legs, key)
    ensures GetOrZero(AddTokens(m, legs), key) == GetOrZero(m, key) + TokenNotional(legs, key)
  {
    if legs != [] { LegShares(m, legs[..|legs| - 1], key); }
  }

  datatype Measure = Unresolved | Net | Market(key: int) | Group(key: int) | Token(key: int)

  /** What one opportunity adds to one reported number. */
  function Share(measure: Measure): Opportunity -> real {
    (o: Opportunity) =>
      if o.status != Open then 0.0
      else match measure
        case Unresolved => UnresolvedNotional(o)
        case Net => NetCost(o)
        case Market(key) =>
          if LegsOf(o.details) != [] then MarketNotional(LegsOf(o.details), key)
          else if o.marketId == Some(key) then UnresolvedNotional(o) else 0.0
        case Group(key) => if o.groupId == Some(key) then UnresolvedNotional(o) else 0.0
        case Token(key) =>
          if LegsOf(o.details) != [] then TokenNotional(LegsOf(o.details), key)
          else if o.tokenId == Some(key) then UnresolvedNotional(o) else 0.0
  }

  function Reported(e: ExposureState, measure: Measure): real {
    match measure
    case Unresolved => e.unresolved
    case Net => e.net
    case Market(key) => GetOrZero(e.market, key)
    case Group(key) => GetOrZero(e.group, key)
    case Token(key) => GetOrZero(e.token, key)
  }

  lemma OneShare(e: ExposureState, o: Opportunity, measure: Measure)
    ensures Reported(AddOpportunity(e, o), measure) == Reported(e, measure) + Share(measure)(o)
  {
    if o.status == Open && (measure.Market? || measure.Token?) {
      LegShares(e.market, LegsOf(o.details), measure.key);
      LegShares(e.token, LegsOf(o.details), measure.key);
    }
  }

  lemma SumOfMapped(f: Opportunity -> real, init: seq<Opportunity>, last: Opportunity)
    ensures Sum(Map(f, init + [last])) == Sum(Map(f, init)) + f(last)
  {
    MapSplit(f, init, [last]);
    assert [last][1..] == [];
    assert Map(f, [last]) == [f(last)];
    assert (Map(f, init) + [f(last)])[..|Map(f, init)|] == Map(f, init);
  }

  /** Every reported number is the sum of what each opportunity adds to it. */
  lemma {:induction false} ReportedIsSumOfShares(opportunities: seq<Opportunity>, openOrders: int, measure: Measure)
    ensures Reported(ExposureOf(opportunities, openOrders), measure) == Sum(Map(Share(measure), opportunities))
  {
    if opportunities != [] {
      hide AddOpportunity, Map, Sum, Share;
      var init, last := opportunities[..|opportunities| - 1], opportunities[|opportunities| - 1];
      ReportedIsSumOfShares(init, openOrders, measure);
      OneShare(ExposureOf(init, openOrders), last, measure);
      SumOfMapped(Share(measure), init, last);
      assert opportunities == init + [last];
    }
  }

  /** One open opportunity is a basket of its recorded costs, and a missing cost counts as zero. */
  lemma {:induction false} LoneExposure(o: Opportunity, openOrders: int)
    requires o.status == Open
    ensures var e := ExposureOf([o], openOrders);
      && e.openBaskets == 1 && e.openOrders == openOrders && e.unresolved == e.gross
      && match o.details.pricing
         case None => e.gross == e.net == 0.0
         case Some(p) =>
           && (if p.grossBuyCost.Some? then p.grossBuyCost == Some(e.gross) else e.gross == 0.0)
           && (if p.netCost.Some? then p.netCost == Some(e.net) else e.net == 0.0)
  {
    hide AddMarkets, AddTokens;
    assert [o][..0] == [];
  }

  /** Whether a reported number has an entry of its own, zero or not. */
  predicate Entered(e: ExposureState, measure: Measure) {
    match measure
    case Unresolved => true
    case Net => true
    case Market(key) => key in e.market
    case Group(key) => key in e.group
    case Token(key) => key in e.token
  }

  /** Whether an opportunity makes an entry. */
  predicate Enters(o: Opportunity, measure: Measure) {
    && o.status == Open
    && var legs := LegsOf(o.details);
    match measure
    case Unresolved => true
    case Net => true
    case Market(key) => if legs != [] then exists i :: 0 <= i < |legs| && legs[i].marketId == Some(key) else o.marketId == Some(key)
    case Group(key) => o.groupId == Some(key)
    case Token(key) => if legs != [] then exists i :: 0 <= i < |legs| && legs[i].tokenId == key else o.tokenId == Some(key)
  }

  lemma {:induction false} LegEntries(m: map<int, real>, legs: seq<PricingLeg>, key: int)
    ensures key in AddMarkets(m, legs) <==> key in m || exists i :: 0 <= i < |legs| && legs[i].marketId == Some(key)
    ensures key in AddTokens(m, legs) <==> key in m || exists i :: 0 <= i < |legs| && legs[i].tokenId == key
  {
    if legs != [] {
      var n := |legs| - 1;
      LegEntries(m, legs[..n], key);
      assert forall i :: 0 <= i < n ==> legs[..n][i] == legs[i];
      if legs[n].marketId == Some(key) || legs[n].tokenId == key {
        assert 0 <= n < |legs|;
      }
    }
  }

  lemma OneEntry(e: ExposureState, o: Opportunity, measure: Measure)
    ensures Entered(AddOpportunity(e, o), measure) <==> Entered(e, measure) || Enters(o, measure)
  {
    if o.status == Open && (measure.Market? || measure.Token?) {
      LegEntries(e.market, LegsOf(o.details), measure.key);
      LegEntries(e.token, LegsOf(o.details), measure.key);
    }
  }

  /** A market, group or token has an entry exactly when some open opportunity makes one. */
  lemma {:induction false} EntriesExactly(opportunities: seq<Opportunity>, openOrders: int, measure: Measure)
    requires measure.Market? || measure.Group? || measure.Token?
    ensures Entered(ExposureOf(opportunities, openOrders), measure) <==> exists o :: o in opportunities && Enters(o, measure)
  {
    if opportunities != [] {
      hide Enters, AddOpportunity;
      var init, last := opportunities[..|opportunities| - 1], opportunities[|opportunities| - 1];
      EntriesExactly(init, openOrders, measure);
      OneEntry(ExposureOf(init, openOrders), last, measure);
      assert opportunities == init + [last];
    }
  }

  function IsOpen(): Opportunity -> bool {
    (o: Opportunity) => o.status == Open
  }

  lemma {:induction false} BasketsAreOpenRows(opportunities: seq<Opportunity>, openOrders: int)
    ensures ExposureOf(opportunities, openOrders).openBaskets == |Filter(IsOpen(), opportunities)|
    ensures ExposureOf(opportunities, openOrders).openOrders == openOrders
  {
    if opportunities != [] {
      hide AddMarkets, AddTokens;
      var init, last := opportunities[..|opportunities| - 1], opportunities[|opportunities| - 1];
      BasketsAreOpenRows(init, openOrders);
      FilterSplit(IsOpen(), init, [last]);
      assert opportunities == init + [last] && [last][1..] == [];
    }
  }

  lemma {:induction false} SumPermutation(s: seq<real>, t: seq<real>)
    requires multiset(s) == multiset(t)
    ensures Sum(s) == Sum(t)
  {
    if s == [] {
      assert |multiset(t)| == 0;
    } else {
      var k := HeadInPermutation(s, t);
      var before, after := t[..k], t[k + 1..];
      SumPermutation(s[1..], before + after);
      assert s == [s[0]] + s[1..];
      SumSplit([s[0]], s[1..]);
      SumSplit(before, [s[0]] + after);
      SumSplit([s[0]], after);
      SumSplit(before, after);
    }
  }

  /** Every reported number is additive over splitting the list; so is the number of baskets, and
      the entries of the whole are those of the parts. */
  lemma ExposureIsAdditive(a: seq<Opportunity>, b: seq<Opportunity>, openOrders: int, measure: Measure)
    ensures Reported(ExposureOf(a + b, openOrders), measure)
         == Reported(ExposureOf(a, openOrders), measure) + Reported(ExposureOf(b, openOrders), measure)
    ensures ExposureOf(a + b, openOrders).openBaskets == ExposureOf(a, openOrders).openBaskets + ExposureOf(b, openOrders).openBaskets
    ensures Entered(ExposureOf(a + b, openOrders), measure)
         == (Entered(ExposureOf(a, openOrders), measure) || Entered(ExposureOf(b, openOrders), measure))
  {
    SharesAdd(a, b, openOrders, measure);
    BasketsAreOpenRows(a, openOrders);
    BasketsAreOpenRows(b, openOrders);
    BasketsAreOpenRows(a + b, openOrders);
    FilterSplit(IsOpen(), a, b);
    hide ExposureOf, Enters, Filter;
    if measure.Market? || measure.Group? || measure.Token? {
      EntriesExactly(a, openOrders, measure);
      EntriesExactly(b, openOrders, measure);
      EntriesExactly(a + b, openOrders, measure);
    }
  }

  lemma SharesAdd(a: seq<Opportunity>, b: seq<Opportunity>, openOrders: int, measure: Measure)
    ensures Reported(ExposureOf(a + b, openOrders), measure)
         == Reported(ExposureOf(a, openOrders), measure) + Reported(ExposureOf(b, openOrders), measure)
  {
    ReportedIsSumOfShares(a + b, openOrders, measure);
    ReportedIsSumOfShares(a, openOrders, measure);
    ReportedIsSumOfShares(b, openOrders, measure);
    MapSplit(Share(measure), a, b);
    SumSplit(Map(Share(measure), a), Map(Share(measure), b));
  }

  /** The whole exposure, entries included, is independent of the order of the list. */
  lemma ExposureIgnoresOrder(a: seq<Opportunity>, b: seq<Opportunity>, openOrders: int)
    requires multiset(a) == multiset(b)
    ensures ExposureOf(a, openOrders) == ExposureOf(b, openOrders)
  {
    var x, y := ExposureOf(a, openOrders), ExposureOf(b, openOrders);
    GrossIsUnresolved(a, openOrders);
    GrossIsUnresolved(b, openOrders);
    BasketsAreOpenRows(a, openOrders);
    BasketsAreOpenRows(b, openOrders);
    FilterMultiset(IsOpen(), a, b);
    assert |multiset(Filter(IsOpen(), a))| == |multiset(Filter(IsOpen(), b))|;
    SharesAgree(a, b, openOrders, Unresolved);
    SharesAgree(a, b, openOrders, Net);
    forall key ensures Same(x, y, Market(key)) && Same(x, y, Group(key)) && Same(x, y, Token(key)) {
      SameEntry(a, b, openOrders, Market(key));
      SameEntry(a, b, openOrders, Group(key));
      SameEntry(a, b, openOrders, Token(key));
    }
    hide ExposureOf, Filter;
    SameMaps(x, y);
  }

  ghost predicate Same(x: ExposureState, y: ExposureState, measure: Measure) {
    Entered(x, measure) == Entered(y, measure) && Reported(x, measure) == Reported(y, measure)
  }

  lemma SameMaps(x: ExposureState, y: ExposureState)
    requires forall key :: Same(x, y, Market(key)) && Same(x, y, Group(key)) && Same(x, y, Token(key))
    ensures x.market == y.market && x.group == y.group && x.token == y.token
  {
    forall key ensures
      && (key in x.market <==> key in y.market) && (key in x.market ==> x.market[key] == y.market[key])
      && (key in x.group <==> key in y.group) && (key in x.group ==> x.group[key] == y.group[key])
      && (key in x.token <==> key in y.token) && (key in x.token ==> x.token[key] == y.token[key])
    {
      assert Same(x, y, Market(key)) && Same(x, y, Group(key)) && Same(x, y, Token(key));
    }
  }

  lemma SameEntry(a: seq<Opportunity>, b: seq<Opportunity>, openOrders: int, measure: Measure)
    requires multiset(a) == multiset(b) && (measure.Market? || measure.Group? || measure.Token?)
    ensures Same(ExposureOf(a, openOrders), ExposureOf(b, openOrders), measure)
  {
    hide ExposureOf, Enters;
    SharesAgree(a, b, openOrders, measure);
    EntriesExactly(a, openOrders, measure);
    EntriesExactly(b, openOrders, measure);
    assert forall o :: (o in a <==> o in multiset(a)) && (o in b <==> o in multiset(b));
  }

  lemma {:induction false} GrossIsUnresolved(opportunities: seq<Opportunity>, openOrders: int)
    ensures ExposureOf(opportunities, openOrders).gross == ExposureOf(opportunities, openOrders).unresolved
  {
    hide AddMarkets, AddTokens;
    if opportunities != [] { GrossIsUnresolved(opportunities[..|opportunities| - 1], openOrders); }
  }

  lemma SharesAgree(a: seq<Opportunity>, b: seq<Opportunity>, openOrders: int, measure: Measure)
    requires multiset(a) == multiset(b)
    ensures Reported(ExposureOf(a, openOrders), measure) == Reported(ExposureOf(b, openOrders), measure)
  {
    ReportedIsSumOfShares(a, openOrders, measure);
    ReportedIsSumOfShares(b, openOrders, measure);
    MapMultiset(Share(measure), a, b);
    SumPermutation(Map(Share(measure), a), Map(Share(measure), b));
  }

  /** Rows that are not open contribute nothing at all. */
  lemma {:induction false} ClosedRowsDoNotCount(opportunities: seq<Opportunity>, openOrders: int)
    ensures ExposureOf(opportunities, openOrders) == ExposureOf(Filter((o: Opportunity) => o.status == Open, opportunities), openOrders)
  {
    if opportunities != [] {
      var open := (o: Opportunity) => o.status == Open;
      var init, last := opportunities[..|opportunities| - 1], opportunities[|opportunities| - 1];
      ClosedRowsDoNotCount(init, openOrders);
      FilterSplit(open, init, [last]);
      assert opportunities == init + [last] && [last][1..] == [];
      var kept := Filter(open, init);
      if last.status == Open {
        assert (kept + [last])[..|kept|] == kept;
      } else {
        assert kept + [] == kept;
      }
    }
  }
}
