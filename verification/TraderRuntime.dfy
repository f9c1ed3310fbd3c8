/** One pass of the trader over the open opportunities
    (src/constraint_scanner/runtime.py: run_trader_once). */
module TraderRuntime {
  import opened Common
  import opened Sorting
  import opened Opportunities
  import opened SimulationStore
  import opened Exposure
  import opened RiskPolicy
  import opened OrderBuilder
  import opened OrderGuarantees
  import opened OrderStore
  import opened Trading

  /** What one iteration finds when it reads shared state: once for the risk gate and once for the
      trader. Other threads may change it in between. */
  datatype Moment = Moment(gateControls: Controls, gateRows: Simulations, tradeControls: Controls, tradeRows: Simulations)

  type World = nat -> Moment

  datatype Entry = Entry(opportunityId: int, decision: RiskDecision, result: TradeResult)

  datatype PassState = PassState(store: Store, openOrders: nat, approved: nat, executed: nat, entries: seq<Entry>, raised: bool)

  predicate DetectedBefore(a: Opportunity, b: Opportunity) {
    a.detectedAt < b.detectedAt || (a.detectedAt == b.detectedAt && a.id <= b.id)
  }

  function IsOpenAmong(ids: Option<set<int>>): Opportunity -> bool {
    (o: Opportunity) => o.status == Open && (ids.Some? ==> o.id in ids.value)
  }

  /** The open opportunities, oldest detection first, restricted to `ids` when given. */
  function LoadOpen(rows: seq<Opportunity>, ids: Option<set<int>>): seq<Opportunity> {
    Sort(DetectedBefore, Filter(IsOpenAmong(ids), rows))
  }

  function HasOtherId(id: int): Opportunity -> bool {
    (o: Opportunity) => o.id != id
  }

  function Others(opportunities: seq<Opportunity>, id: int): seq<Opportunity> {
    Filter(HasOtherId(id), opportunities)
  }

  function Decide(settings: RiskSettings, opportunities: seq<Opportunity>, o: Opportunity, openOrders: int, m: Moment, at: Instant): RiskDecision {
    EvaluateRisk(settings, m.gateControls, o, LatestSummary(m.gateRows, o.id), ExposureOf(Others(opportunities, o.id), openOrders), at)
  }

  function TryOne(settings: RiskSettings, hashes: Hashes, opportunities: seq<Opportunity>, s: PassState, o: Opportunity, m: Moment, at: Instant): PassState {
    var decision := Decide(settings, opportunities, o, s.openOrders, m, at);
    var (result, store) := Execute(hashes, m.tradeControls, m.tradeRows, s.store, Attempt(o, decision, None, at));
    if result.Raised? then s.(raised := true)
    else
      PassState(store, if result.Executed? then s.openOrders + result.orderCount else s.openOrders,
                if decision.approved then s.approved + 1 else s.approved,
                if result.Executed? then s.executed + 1 else s.executed,
                s.entries + [Entry(o.id, decision, result)], false)
  }

  /** The pass after its first `n` opportunities. */
  function Pass(settings: RiskSettings, hashes: Hashes, opportunities: seq<Opportunity>, world: World, at: Instant, store: Store, n: nat): PassState
    requires n <= |opportunities|
  {
    if n == 0 then PassState(store, |store.orders|, 0, 0, [], false)
    else
      var s := Pass(settings, hashes, opportunities, world, at, store, n - 1);
      if s.raised then s else TryOne(settings, hashes, opportunities, s, opportunities[n - 1], world(n - 1), at)
  }

  datatype PassResult = PassResult(evaluated: nat, approved: nat, executed: nat, entries: seq<Entry>)

  lemma {:induction false} RaisedSticks(settings: RiskSettings, hashes: Hashes, opportunities: seq<Opportunity>, world: World,
                                        at: Instant, store: Store, n: nat, m: nat)
    requires n <= m <= |opportunities| && Pass(settings, hashes, opportunities, world, at, store, n).raised
    ensures Pass(settings, hashes, opportunities, world, at, store, m) == Pass(settings, hashes, opportunities, world, at, store, n)
  {
    hide TryOne;
    if n < m {
      RaisedSticks(settings, hashes, opportunities, world, at, store, n, m - 1);
    }
  }

  class ServiceRuntime {
    const settings: RiskSettings
    const trader: TraderService

    constructor (settings: RiskSettings, trader: TraderService)
      ensures this.settings == settings && this.trader == trader
    {
      this.settings, this.trader := settings, trader;
    }

    /** What other threads may do between two reads of the shared state. */
    method Interfere(controls: Controls, rows: Simulations)
      modifies trader.killSwitch, trader.modeState, trader.simulations
      ensures trader.CurrentControls() == controls && trader.simulations.rows == rows
    {
      if controls.killSwitchActive {
        trader.killSwitch.Activate();
      } else {
        trader.killSwitch.Clear();
      }
      trader.modeState.SetMode(controls.mode);
      trader.simulations.rows := rows;
    }

    /** Risk-evaluates and routes every loaded opportunity in turn, each against the exposure of
        all the others. An unhandled conflict ends the pass without a result; what earlier
        iterations committed stays. */
    method RunTraderOnce(rows: seq<Opportunity>, ids: Option<set<int>>, submittedAt: Instant, world: World)
      returns (r: Option<PassResult>)
      modifies trader.killSwitch, trader.modeState, trader.simulations, trader.router.tracker.repository
      ensures var opportunities := LoadOpen(rows, ids);
        var pass := Pass(settings, trader.HashesUsed(), opportunities, world, submittedAt,
                         old(trader.router.tracker.repository.View()), |opportunities|);
        && trader.router.tracker.repository.View() == pass.store
        && r == if pass.raised then None else Some(PassResult(|opportunities|, pass.approved, pass.executed, pass.entries))
    {
      hide Execute, EvaluateRisk, ExposureOf, LoadOpen, LatestSummary;
      var opportunities := LoadOpen(rows, ids);
      ghost var before := trader.router.tracker.repository.View();
      ghost var hashes := trader.HashesUsed();
      var openOrders: nat := |trader.router.tracker.repository.orders|;
      var approved: nat, executed: nat := 0, 0;
      var entries: seq<Entry> := [];
      for i := 0 to |opportunities|
        invariant PassState(trader.router.tracker.repository.View(), openOrders, approved, executed, entries, false)
               == Pass(settings, hashes, opportunities, world, submittedAt, before, i)
      {
        ghost var s := Pass(settings, hashes, opportunities, world, submittedAt, before, i);
        var o, moment := opportunities[i], world(i);
        var exposure := BuildExposureState(Others(opportunities, o.id), openOrders);
        Interfere(moment.gateControls, moment.gateRows);
        var decision := EvaluateRisk(settings, trader.CurrentControls(), o, LatestSummary(trader.simulations.rows, o.id), exposure, submittedAt);
        if decision.approved {
          approved := approved + 1;
        }
        Interfere(moment.tradeControls, moment.tradeRows);
        var result := trader.ExecuteOpportunity(Attempt(o, decision, None, submittedAt));
        if result.Raised? {
          RaisedLeavesStore(hashes, moment.tradeControls, moment.tradeRows, s.store, Attempt(o, decision, None, submittedAt));
          assert Pass(settings, hashes, opportunities, world, submittedAt, before, i + 1).raised;
          RaisedSticks(settings, hashes, opportunities, world, submittedAt, before, i + 1, |opportunities|);
          return None;
        }
        if result.Executed? {
          executed := executed + 1;
          openOrders := openOrders + result.orderCount;
        }
        entries := entries + [Entry(o.id, decision, result)];
      }
      r := Some(PassResult(|opportunities|, approved, executed, entries));
    }
  }

  lemma RaisedLeavesStore(hashes: Hashes, controls: Controls, rows: Simulations, store: Store, a: Attempt)
    requires Execute(hashes, controls, rows, store, a).0.Raised?
    ensures Execute(hashes, controls, rows, store, a).1 == store
  {
    hide BuildOrders, PersistAll, CheckLink, Gate;
  }

  // ---------------------------------------------------------------- the exposure every iteration sees

  ghost predicate DistinctIds(opportunities: seq<Opportunity>) {
    forall i, j :: 0 <= i < j < |opportunities| ==> opportunities[i].id != opportunities[j].id
  }

  /** What a pass may rely on: distinct open opportunities with detector-produced pricing. */
  ghost predicate Tradable(opportunities: seq<Opportunity>) {
    DistinctIds(opportunities) && forall o :: o in opportunities ==> o.status == Open && DetectorPricing(o.details)
  }

  lemma {:induction false} FilterKeepsAll(keep: Opportunity -> bool, s: seq<Opportunity>)
    requires forall o :: o in s ==> keep(o)
    ensures Filter(keep, s) == s
  {
    if s != [] { FilterKeepsAll(keep, s[1..]); }
  }

  lemma OthersSplit(opportunities: seq<Opportunity>, i: nat)
    requires DistinctIds(opportunities) && i < |opportunities|
    ensures Others(opportunities, opportunities[i].id) == opportunities[..i] + opportunities[i + 1..]
  {
    var keep := HasOtherId(opportunities[i].id);
    var before, after := opportunities[..i], opportunities[i + 1..];
    assert opportunities == before + ([opportunities[i]] + after);
    FilterSplit(keep, before, [opportunities[i]] + after);
    FilterSplit(keep, [opportunities[i]], after);
    assert Filter(keep, [opportunities[i]]) == [] by { assert [opportunities[i]][1..] == []; }
    FilterKeepsAll(keep, before);
    FilterKeepsAll(keep, after);
  }

  /** Every iteration of a pass gates its opportunity on the same projected exposure: the total
      over all opportunities loaded. */
  lemma SameProjectedTotal(opportunities: seq<Opportunity>, i: nat, openOrders: int, anyCount: int)
    requires DistinctIds(opportunities) && i < |opportunities| && opportunities[i].status == Open
    ensures ExposureOf(Others(opportunities, opportunities[i].id), openOrders).unresolved + UnresolvedNotional(opportunities[i])
         == ExposureOf(opportunities, anyCount).unresolved
  {
    var o, before, after := opportunities[i], opportunities[..i], opportunities[i + 1..];
    OthersSplit(opportunities, i);
    assert opportunities == before + ([o] + after);
    ExposureIsAdditive(before, after, openOrders, Unresolved);
    ExposureIsAdditive(before, [o] + after, anyCount, Unresolved);
    ExposureIsAdditive([o], after, anyCount, Unresolved);
    CountIsIrrelevant(before, openOrders, anyCount);
    CountIsIrrelevant(after, openOrders, anyCount);
    assert [o][..0] == [];
    assert ExposureOf([o], anyCount) == AddOpportunity(ExposureOf([], anyCount), o);
  }

  lemma CountIsIrrelevant(opportunities: seq<Opportunity>, a: int, b: int)
    ensures ExposureOf(opportunities, a).unresolved == ExposureOf(opportunities, b).unresolved
  {
    ReportedIsSumOfShares(opportunities, a, Unresolved);
    ReportedIsSumOfShares(opportunities, b, Unresolved);
  }

  // ---------------------------------------------------------------- the notional cap

  /** The notional of stored orders. */
  function OrdersNotional(orders: seq<LiveOrder>): real {
    if orders == [] then 0.0
    else OrdersNotional(orders[..|orders| - 1]) + Times(orders[|orders| - 1].price, orders[|orders| - 1].quantity)
  }

  lemma {:induction false} AppendedNotional(store: Store, after: Store, batch: Batch, requests: seq<OrderRequest>)
    requires |after.orders| == |store.orders| + |requests| && after.orders[..|store.orders|] == store.orders
    requires forall i :: 0 <= i < |requests| ==> after.orders[|store.orders| + i] == OrderRow(|store.orders| + i, batch, requests[i])
    ensures OrdersNotional(after.orders) == OrdersNotional(store.orders) + Notional(requests)
    decreases |requests|
  {
    hide Times;
    if requests == [] {
      assert after.orders == store.orders;
    } else {
      var n := |requests| - 1;
      var shorter := after.(orders := after.orders[..|after.orders| - 1]);
      AppendedNotional(store, shorter, batch, requests[..n]);
    }
  }

  /** One executed attempt on detector pricing writes at most what the gate approved. */
  lemma AttemptWritesAtMost(hashes: Hashes, controls: Controls, rows: Simulations, store: Store, o: Opportunity, decision: RiskDecision, at: Instant)
    requires ValidRows(rows) && WellFormed(store) && DetectorPricing(o.details)
    ensures var (r, after) := Execute(hashes, controls, rows, store, Attempt(o, decision, None, at));
      && WellFormed(after)
      && (!r.Executed? ==> after == store)
      && (r.Executed? ==> decision.approved && OrdersNotional(after.orders) - OrdersNotional(store.orders) <= UnresolvedNotional(o))
  {
    hide Execute, BuildOrders, WellFormed, DetectorPricing, RoundedLeg, DetectorLeg, OrdersNotional, Notional, ScaledCost, Times;
    var a := Attempt(o, decision, None, at);
    var (r, after) := Execute(hashes, controls, rows, store, a);
    ExecuteEffect(hashes, controls, rows, store, a);
    if r.Executed? {
      var b := BuildOrders(hashes.order, o, decision, Paper, at).value;
      BuiltOrders(hashes.order, o, decision, Paper, at);
      DetectorOrders(hashes.order, o, decision, Paper, at);
      AppendedNotional(store, after, a.BatchOf(), b.requests);
    }
  }

  lemma GrossIsPositive(o: Opportunity)
    requires DetectorPricing(o.details)
    ensures UnresolvedNotional(o) > 0.0
  {
  }

  ghost predicate ValidWorld(world: World) {
    forall n: nat :: ValidRows(world(n).tradeRows)
  }

  /** After `n` opportunities the pass has written at most their gross costs, and nothing at all
      unless the loaded opportunities together stay within the limit. */
  lemma {:induction false} PrefixWithinExposure(settings: RiskSettings, hashes: Hashes, opportunities: seq<Opportunity>, world: World,
                                                at: Instant, store: Store, n: nat)
    requires n <= |opportunities| && Tradable(opportunities) && WellFormed(store) && ValidWorld(world)
    ensures var s := Pass(settings, hashes, opportunities, world, at, store, n);
      var written := OrdersNotional(s.store.orders) - OrdersNotional(store.orders);
      && WellFormed(s.store)
      && written <= ExposureOf(opportunities[..n], 0).unresolved
      && (written == 0.0 || ExposureOf(opportunities, 0).unresolved <= settings.maxUnresolved)
  {
    hide *;
    if n == 0 {
      PassStarts(settings, hashes, opportunities, world, at, store);
    } else {
      PrefixWithinExposure(settings, hashes, opportunities, world, at, store, n - 1);
      PassContinues(settings, hashes, opportunities, world, at, store, n);
      TradableAt(opportunities, n - 1);
      var s := Pass(settings, hashes, opportunities, world, at, store, n - 1);
      if !s.raised {
        IterationWithinExposure(settings, hashes, opportunities, s, n - 1, world(n - 1), at) by { WorldAt(world, n - 1); }
      }
      ExposureGrows(opportunities, n);
    }
  }

  lemma PassStarts(settings: RiskSettings, hashes: Hashes, opportunities: seq<Opportunity>, world: World, at: Instant, store: Store)
    ensures Pass(settings, hashes, opportunities, world, at, store, 0).store == store
    ensures ExposureOf(opportunities[..0], 0).unresolved == 0.0
  {
  }

  lemma PassContinues(settings: RiskSettings, hashes: Hashes, opportunities: seq<Opportunity>, world: World, at: Instant, store: Store, n: nat)
    requires 0 < n <= |opportunities|
    ensures var s := Pass(settings, hashes, opportunities, world, at, store, n - 1);
      Pass(settings, hashes, opportunities, world, at, store, n)
      == if s.raised then s else TryOne(settings, hashes, opportunities, s, opportunities[n - 1], world(n - 1), at)
  {
    hide TryOne;
  }

  lemma TradableAt(opportunities: seq<Opportunity>, i: nat)
    requires Tradable(opportunities) && i < |opportunities|
    ensures opportunities[i].status == Open && UnresolvedNotional(opportunities[i]) > 0.0
  {
    assert opportunities[i] in opportunities;
    GrossIsPositive(opportunities[i]);
  }

  lemma WorldAt(world: World, i: nat)
    requires ValidWorld(world)
    ensures ValidRows(world(i).tradeRows)
  {
  }

  lemma ExposureGrows(opportunities: seq<Opportunity>, n: nat)
    requires 0 < n <= |opportunities| && opportunities[n - 1].status == Open
    ensures ExposureOf(opportunities[..n], 0).unresolved
         == ExposureOf(opportunities[..n - 1], 0).unresolved + UnresolvedNotional(opportunities[n - 1])
  {
    hide AddMarkets, AddTokens;
    assert opportunities[..n][..n - 1] == opportunities[..n - 1];
  }

  /** One iteration writes at most the gross cost of its opportunity, and nothing at all unless all
      the opportunities together stay within the limit. */
  lemma IterationWithinExposure(settings: RiskSettings, hashes: Hashes, opportunities: seq<Opportunity>, s: PassState, i: nat,
                                m: Moment, at: Instant)
    requires Tradable(opportunities) && i < |opportunities| && WellFormed(s.store) && ValidRows(m.tradeRows) && !s.raised
    ensures var after := TryOne(settings, hashes, opportunities, s, opportunities[i], m, at);
      var written := OrdersNotional(after.store.orders) - OrdersNotional(s.store.orders);
      && WellFormed(after.store)
      && written <= UnresolvedNotional(opportunities[i])
      && UnresolvedNotional(opportunities[i]) > 0.0
      && (written == 0.0 || ExposureOf(opportunities, 0).unresolved <= settings.maxUnresolved)
  {
    hide Execute, WellFormed, DetectorPricing, EvaluateRisk, OrdersNotional, Others, LatestSummary, ExposureOf, UnresolvedNotional;
    var o := opportunities[i];
    assert o in opportunities;
    GrossIsPositive(o);
    var decision := Decide(settings, opportunities, o, s.openOrders, m, at);
    var current := ExposureOf(Others(opportunities, o.id), s.openOrders);
    ApprovedAtFullSize(settings, m.gateControls, o, LatestSummary(m.gateRows, o.id), current, at);
    SameProjectedTotal(opportunities, i, s.openOrders, 0);
    AttemptWritesAtMost(hashes, m.tradeControls, m.tradeRows, s.store, o, decision, at);
  }

  lemma {:induction false} PrefixExposure(opportunities: seq<Opportunity>, n: nat)
    requires n <= |opportunities| && forall o :: o in opportunities ==> DetectorPricing(o.details)
    ensures ExposureOf(opportunities[..n], 0).unresolved <= ExposureOf(opportunities, 0).unresolved
  {
    hide DetectorPricing;
    if n < |opportunities| {
      var k := |opportunities| - 1;
      assert opportunities[..k][..n] == opportunities[..n];
      PrefixExposure(opportunities[..k], n);
      assert opportunities[k] in opportunities;
      GrossIsPositive(opportunities[k]);
    } else {
      assert opportunities[..n] == opportunities;
    }
  }

  /** Whole-pass notional cap: over distinct open opportunities with detector-produced pricing and
      any non-negative limit, and whatever other threads do to the controls and the simulations
      in between, the orders one pass writes add up to at most the limit. */
  lemma {:induction false} PassStaysWithinCap(settings: RiskSettings, hashes: Hashes, opportunities: seq<Opportunity>, world: World, at: Instant, store: Store, n: nat)
    requires n <= |opportunities| && Tradable(opportunities) && WellFormed(store) && ValidWorld(world)
    requires settings.maxUnresolved >= 0.0
    ensures var s := Pass(settings, hashes, opportunities, world, at, store, n);
      OrdersNotional(s.store.orders) - OrdersNotional(store.orders) <= settings.maxUnresolved
  {
    PrefixWithinExposure(settings, hashes, opportunities, world, at, store, n);
    PrefixExposure(opportunities, n);
  }

  // ---------------------------------------------------------------- what the query loads

  lemma {:induction false} PermutedIds(s: seq<Opportunity>, t: seq<Opportunity>)
    requires DistinctIds(s) && multiset(s) == multiset(t)
    ensures DistinctIds(t)
  {
    if s == [] {
      assert |multiset(t)| == 0;
    } else {
      var k := HeadInPermutation(s, t);
      var before, after := t[..k], t[k + 1..];
      PermutedIds(s[1..], before + after);
      forall o: Opportunity | o in before + after ensures o.id != s[0].id {
        assert o in multiset(s[1..]);
      }
      InsertedId(before, s[0], after);
    }
  }

  lemma InsertedId(before: seq<Opportunity>, o: Opportunity, after: seq<Opportunity>)
    requires DistinctIds(before + after) && forall p: Opportunity :: p in before + after ==> p.id != o.id
    ensures DistinctIds(before + ([o] + after))
  {
    var rest, all, k := before + after, before + ([o] + after), |before|;
    forall i, j | 0 <= i < j < |all| ensures all[i].id != all[j].id {
      if i == k {
        assert all[j] == rest[j - 1];
      } else if j == k {
        assert all[i] == rest[i];
      } else {
        assert all[i] == rest[if i < k then i else i - 1] && all[j] == rest[if j < k then j else j - 1];
      }
    }
  }

  lemma {:induction false} FilteredIds(keep: Opportunity -> bool, s: seq<Opportunity>)
    requires DistinctIds(s)
    ensures DistinctIds(Filter(keep, s))
  {
    if s != [] {
      FilteredIds(keep, s[1..]);
      FilterMembers(keep, s[1..]);
      forall o: Opportunity | o in Filter(keep, s[1..]) ensures o.id != s[0].id {
        var i :| 0 <= i < |s[1..]| && s[1..][i] == o;
        assert s[i + 1] == o;
      }
    }
  }

  lemma SameMembers<T>(s: seq<T>, t: seq<T>)
    requires multiset(s) == multiset(t)
    ensures forall x :: x in s <==> x in t
  {
    assert forall x :: x in s <==> x in multiset(s);
  }

  lemma DetectedBeforeIsOrder()
    ensures TotalPreorder(DetectedBefore)
  {
  }

  /** Detected earlier, or together under a lower id. */
  ghost predicate Older(a: Opportunity, b: Opportunity) {
    a.detectedAt < b.detectedAt || (a.detectedAt == b.detectedAt && a.id < b.id)
  }

  lemma {:induction false} OldestFirst(opportunities: seq<Opportunity>)
    requires DistinctIds(opportunities) && Sorted(DetectedBefore, opportunities)
    ensures forall i, j :: 0 <= i < j < |opportunities| ==> Older(opportunities[i], opportunities[j])
  {
    forall i, j | 0 <= i < j < |opportunities| ensures Older(opportunities[i], opportunities[j]) {
      assert DetectedBefore(opportunities[i], opportunities[j]);
    }
  }

  /** The query loads exactly the open rows asked for, each once, oldest detection first. */
  lemma LoadedRows(rows: seq<Opportunity>, ids: Option<set<int>>)
    requires DistinctIds(rows)
    ensures DistinctIds(LoadOpen(rows, ids))
    ensures forall i, j :: 0 <= i < j < |LoadOpen(rows, ids)| ==> Older(LoadOpen(rows, ids)[i], LoadOpen(rows, ids)[j])
    ensures forall o :: o in LoadOpen(rows, ids) <==> o in rows && o.status == Open && (ids.Some? ==> o.id in ids.value)
  {
    var kept := Filter(IsOpenAmong(ids), rows);
    FilteredIds(IsOpenAmong(ids), rows);
    FilterMembers(IsOpenAmong(ids), rows);
    DetectedBeforeIsOrder();
    SortSorted(DetectedBefore, kept);
    hide Filter, Sort, DistinctIds;
    PermutedIds(kept, LoadOpen(rows, ids));
    SameMembers(LoadOpen(rows, ids), kept);
    OldestFirst(LoadOpen(rows, ids));
  }
}
