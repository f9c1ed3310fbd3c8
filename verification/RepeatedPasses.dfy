/** Several trading passes in a row. Order ids depend on the submission time, so a later pass writes
    an opportunity that stays open again: the notional limit is a limit per pass. */
module RepeatedPasses {
  import opened Common
  import opened Opportunities
  import FillModel
  import Simulation
  import opened SimulationStore
  import opened Exposure
  import opened RiskPolicy
  import opened OrderBuilder
  import opened OrderStore
  import opened Trading
  import opened TraderRuntime

  /** One pass: what it loads, when it submits and what it finds on its way. */
  datatype ScheduledPass = ScheduledPass(opportunities: seq<Opportunity>, at: Instant, world: World)

  /** An order a pass means to write, with the id of its fill. */
  datatype PlannedOrder = PlannedOrder(request: OrderRequest, fillId: string)

  // ---------------------------------------------------------------- plans

  /** What an opportunity orders at one moment: nothing unless every check before the store passes. */
  function Orders(settings: RiskSettings, hashes: Hashes, opportunities: seq<Opportunity>, o: Opportunity, m: Moment, at: Instant): seq<OrderRequest> {
    var decision := Decide(settings, opportunities, o, 0, m, at);
    if Gate(m.tradeControls, decision, None).Some? || m.tradeControls.mode != Paper then []
    else if CheckLink(m.tradeRows, o.id, decision.simulationRunId.value).Some? then []
    else
      var built := BuildOrders(hashes.order, o, decision, Paper, at);
      if built.Ok? then built.value.requests else []
  }

  function PlanOf(fillHash: FillHash, requests: seq<OrderRequest>): seq<PlannedOrder> {
    seq(|requests|, i requires 0 <= i < |requests| => PlannedOrder(requests[i], fillHash(requests[i].clientOrderId, i + 1)))
  }

  /** What the first `n` opportunities of a pass order. */
  function PassPlan(settings: RiskSettings, hashes: Hashes, p: ScheduledPass, n: nat): seq<PlannedOrder>
    requires n <= |p.opportunities|
  {
    if n == 0 then []
    else
      PassPlan(settings, hashes, p, n - 1)
      + PlanOf(hashes.fill, Orders(settings, hashes, p.opportunities, p.opportunities[n - 1], p.world(n - 1), p.at))
  }

  function WholePlan(settings: RiskSettings, hashes: Hashes, p: ScheduledPass): seq<PlannedOrder> {
    PassPlan(settings, hashes, p, |p.opportunities|)
  }

  function SchedulePlan(settings: RiskSettings, hashes: Hashes, passes: seq<ScheduledPass>): seq<PlannedOrder> {
    if passes == [] then []
    else SchedulePlan(settings, hashes, passes[..|passes| - 1]) + WholePlan(settings, hashes, passes[|passes| - 1])
  }

  function PlanTotal(plan: seq<PlannedOrder>): real {
    if plan == [] then 0.0
    else PlanTotal(plan[..|plan| - 1]) + Times(plan[|plan| - 1].request.price, plan[|plan| - 1].request.quantity)
  }

  lemma {:induction false} PlanTotalSplits(p: seq<PlannedOrder>, q: seq<PlannedOrder>)
    ensures PlanTotal(p + q) == PlanTotal(p) + PlanTotal(q)
  {
    hide Times;
    if q == [] {
      assert p + q == p;
    } else {
      PlanTotalSplits(p, q[..|q| - 1]);
      assert (p + q)[..|p + q| - 1] == p + q[..|q| - 1];
    }
  }

  lemma {:induction false} PlanOfTotal(fillHash: FillHash, requests: seq<OrderRequest>)
    ensures PlanTotal(PlanOf(fillHash, requests)) == Notional(requests)
  {
    hide Times;
    if requests != [] {
      PlanOfTotal(fillHash, requests[..|requests| - 1]);
      assert PlanOf(fillHash, requests)[..|requests| - 1] == PlanOf(fillHash, requests[..|requests| - 1]);
    }
  }

  /** The ids of a plan are not in the store, and none repeats. */
  ghost predicate FreshPlan(store: Store, plan: seq<PlannedOrder>) {
    && (forall i, k :: 0 <= i < |plan| && 0 <= k < |store.orders| ==> plan[i].request.clientOrderId != store.orders[k].clientOrderId)
    && (forall i, k :: 0 <= i < |plan| && 0 <= k < |store.fills| ==> plan[i].fillId != store.fills[k].venueFillId)
    && (forall i, j :: 0 <= i < j < |plan| ==>
          plan[i].request.clientOrderId != plan[j].request.clientOrderId && plan[i].fillId != plan[j].fillId)
  }

  /** `after` is `store` followed by one order and one fill for each planned order. */
  ghost predicate Wrote(store: Store, plan: seq<PlannedOrder>, after: Store) {
    && |after.orders| == |store.orders| + |plan| && |after.fills| == |store.fills| + |plan|
    && after.orders[..|store.orders|] == store.orders && after.fills[..|store.fills|] == store.fills
    && (forall i :: 0 <= i < |plan| ==>
          && after.orders[|store.orders| + i].clientOrderId == plan[i].request.clientOrderId
          && after.orders[|store.orders| + i].price == plan[i].request.price
          && after.orders[|store.orders| + i].quantity == plan[i].request.quantity
          && after.fills[|store.fills| + i].venueFillId == plan[i].fillId)
  }

  lemma {:induction false} WroteTotal(store: Store, plan: seq<PlannedOrder>, after: Store)
    requires Wrote(store, plan, after)
    ensures OrdersNotional(after.orders) == OrdersNotional(store.orders) + PlanTotal(plan)
    decreases |plan|
  {
    hide Times;
    if plan == [] {
      assert after.orders == store.orders;
    } else {
      var n := |plan| - 1;
      var shorter := Store(after.orders[..|after.orders| - 1], after.fills[..|after.fills| - 1]);
      assert shorter.orders[..|store.orders|] == store.orders && shorter.fills[..|store.fills|] == store.fills;
      WroteTotal(store, plan[..n], shorter);
    }
  }

  lemma WroteBoth(store: Store, p: seq<PlannedOrder>, middle: Store, q: seq<PlannedOrder>, after: Store)
    requires Wrote(store, p, middle) && Wrote(middle, q, after)
    ensures Wrote(store, p + q, after)
  {
    assert after.orders[..|store.orders|] == middle.orders[..|store.orders|];
    assert after.fills[..|store.fills|] == middle.fills[..|store.fills|];
    forall i | 0 <= i < |p + q|
      ensures after.orders[|store.orders| + i].clientOrderId == (p + q)[i].request.clientOrderId
      ensures after.orders[|store.orders| + i].price == (p + q)[i].request.price
      ensures after.orders[|store.orders| + i].quantity == (p + q)[i].request.quantity
      ensures after.fills[|store.fills| + i].venueFillId == (p + q)[i].fillId
    {
      if i < |p| {
        assert after.orders[|store.orders| + i] == middle.orders[|store.orders| + i];
        assert after.fills[|store.fills| + i] == middle.fills[|store.fills| + i];
      } else {
        assert after.orders[|store.orders| + i] == after.orders[|middle.orders| + (i - |p|)];
        assert after.fills[|store.fills| + i] == after.fills[|middle.fills| + (i - |p|)];
      }
    }
  }

  /** A plan in two parts is fresh exactly when the first part is, and the second is once the first
      is written. */
  lemma FreshBoth(store: Store, p: seq<PlannedOrder>, q: seq<PlannedOrder>)
    ensures FreshPlan(store, p + q) ==> FreshPlan(store, p)
    ensures forall middle :: Wrote(store, p, middle) && FreshPlan(store, p) ==> (FreshPlan(store, p + q) <==> FreshPlan(middle, q))
  {
    if FreshPlan(store, p + q) {
      assert forall i :: 0 <= i < |p| ==> (p + q)[i] == p[i];
    }
    forall middle | Wrote(store, p, middle) && FreshPlan(store, p) ensures FreshPlan(store, p + q) <==> FreshPlan(middle, q) {
      if FreshPlan(store, p + q) { FreshAfterwards(store, p, middle, q); }
      if FreshPlan(middle, q) { FreshTogether(store, p, middle, q); }
    }
  }

  lemma FreshAfterwards(store: Store, p: seq<PlannedOrder>, middle: Store, q: seq<PlannedOrder>)
    requires Wrote(store, p, middle) && FreshPlan(store, p + q)
    ensures FreshPlan(middle, q)
  {
    var all := p + q;
    forall i | 0 <= i < |q| ensures q[i] == all[|p| + i] {}
    forall k | 0 <= k < |middle.orders|
      ensures middle.orders[k].clientOrderId
           == if k < |store.orders| then store.orders[k].clientOrderId else all[k - |store.orders|].request.clientOrderId
    {
      if k < |store.orders| {
        assert middle.orders[..|store.orders|][k] == store.orders[k];
      } else {
        assert middle.orders[|store.orders| + (k - |store.orders|)].clientOrderId == p[k - |store.orders|].request.clientOrderId;
      }
    }
    forall k | 0 <= k < |middle.fills|
      ensures middle.fills[k].venueFillId == if k < |store.fills| then store.fills[k].venueFillId else all[k - |store.fills|].fillId
    {
      if k < |store.fills| {
        assert middle.fills[..|store.fills|][k] == store.fills[k];
      } else {
        assert middle.fills[|store.fills| + (k - |store.fills|)].venueFillId == p[k - |store.fills|].fillId;
      }
    }
  }

  lemma FreshTogether(store: Store, p: seq<PlannedOrder>, middle: Store, q: seq<PlannedOrder>)
    requires Wrote(store, p, middle) && FreshPlan(store, p) && FreshPlan(middle, q)
    ensures FreshPlan(store, p + q)
  {
    var all := p + q;
    forall k | 0 <= k < |store.orders| ensures middle.orders[k] == store.orders[k] {
      assert middle.orders[..|store.orders|][k] == store.orders[k];
    }
    forall k | 0 <= k < |store.fills| ensures middle.fills[k] == store.fills[k] {
      assert middle.fills[..|store.fills|][k] == store.fills[k];
    }
    forall i, j | 0 <= i < j < |all|
      ensures all[i].request.clientOrderId != all[j].request.clientOrderId && all[i].fillId != all[j].fillId
    {
      if i < |p| <= j {
        assert middle.orders[|store.orders| + i].clientOrderId == p[i].request.clientOrderId;
        assert middle.fills[|store.fills| + i].venueFillId == p[i].fillId;
        assert q[j - |p|] == all[j];
      } else if i >= |p| {
        assert q[i - |p|] == all[i] && q[j - |p|] == all[j];
      }
    }
  }

  // ---------------------------------------------------------------- one batch, one pass, all passes

  lemma OnePersistsExactly(fillHash: FillHash, store: Store, batch: Batch, r: OrderRequest, index: nat)
    ensures var plan, after := [PlannedOrder(r, fillHash(r.clientOrderId, index))], PersistOne(fillHash, store, batch, r, index);
      && (after.Some? <==> FreshPlan(store, plan))
      && (after.Some? ==> Wrote(store, plan, after.value))
  {
    var plan := [PlannedOrder(r, fillHash(r.clientOrderId, index))];
    if FreshPlan(store, plan) {
      assert forall k :: 0 <= k < |store.orders| ==> plan[0].request.clientOrderId != store.orders[k].clientOrderId;
      assert forall k :: 0 <= k < |store.fills| ==> plan[0].fillId != store.fills[k].venueFillId;
    }
  }

  /** A batch is written exactly when its ids are fresh. */
  lemma {:induction false} BatchPersistsExactly(fillHash: FillHash, store: Store, batch: Batch, requests: seq<OrderRequest>)
    ensures var plan, after := PlanOf(fillHash, requests), PersistAll(fillHash, store, batch, requests);
      && (after.Some? <==> FreshPlan(store, plan))
      && (after.Some? ==> Wrote(store, plan, after.value))
  {
    if requests == [] {
      NothingPlanned(store);
    } else {
      hide FreshPlan, Wrote, PersistOne;
      var n := |requests| - 1;
      BatchPersistsExactly(fillHash, store, batch, requests[..n]);
      var last := [PlannedOrder(requests[n], fillHash(requests[n].clientOrderId, n + 1))];
      assert PlanOf(fillHash, requests) == PlanOf(fillHash, requests[..n]) + last;
      FreshBoth(store, PlanOf(fillHash, requests[..n]), last);
      var middle := PersistAll(fillHash, store, batch, requests[..n]);
      if middle.Some? {
        OnePersistsExactly(fillHash, middle.value, batch, requests[n], n + 1);
        var after := PersistAll(fillHash, store, batch, requests);
        if after.Some? { WroteBoth(store, PlanOf(fillHash, requests[..n]), middle.value, last, after.value); }
      }
    }
  }

  lemma NothingPlanned(store: Store)
    ensures FreshPlan(store, []) && Wrote(store, [], store)
  {
  }

  lemma DecisionIgnoresCount(settings: RiskSettings, opportunities: seq<Opportunity>, o: Opportunity, count: int, m: Moment, at: Instant)
    ensures Decide(settings, opportunities, o, count, m, at) == Decide(settings, opportunities, o, 0, m, at)
  {
    hide LatestSummary, ExposureOf, Others;
    CountIsIrrelevant(Others(opportunities, o.id), count, 0);
  }

  /** An iteration writes what the opportunity orders, or nothing, and raises exactly when those ids
      are not fresh. */
  lemma OneIteration(settings: RiskSettings, hashes: Hashes, opportunities: seq<Opportunity>, s: PassState, o: Opportunity, m: Moment, at: Instant)
    requires !s.raised
    ensures var plan, after := PlanOf(hashes.fill, Orders(settings, hashes, opportunities, o, m, at)), TryOne(settings, hashes, opportunities, s, o, m, at);
      && (!after.raised <==> FreshPlan(s.store, plan))
      && (!after.raised ==> Wrote(s.store, plan, after.store))
      && (after.raised ==> after.store == s.store)
  {
    DecisionIgnoresCount(settings, opportunities, o, s.openOrders, m, at);
    hide Decide, BuildOrders, PersistAll, CheckLink, FreshPlan, Wrote, RoundedLeg;
    var decision := Decide(settings, opportunities, o, 0, m, at);
    var requests := Orders(settings, hashes, opportunities, o, m, at);
    NothingPlanned(s.store);
    assert requests == [] ==> PlanOf(hashes.fill, requests) == [];
    BatchPersistsExactly(hashes.fill, s.store, Attempt(o, decision, None, at).BatchOf(), requests);
    if BuildOrders(hashes.order, o, decision, Paper, at).Ok? {
      BuiltOrders(hashes.order, o, decision, Paper, at);
    }
  }

  function RunPass(settings: RiskSettings, hashes: Hashes, p: ScheduledPass, store: Store): PassState {
    Pass(settings, hashes, p.opportunities, p.world, p.at, store, |p.opportunities|)
  }

  lemma {:induction false} PassFollowsPlan(settings: RiskSettings, hashes: Hashes, p: ScheduledPass, store: Store, n: nat)
    requires n <= |p.opportunities|
    ensures var plan, s := PassPlan(settings, hashes, p, n), Pass(settings, hashes, p.opportunities, p.world, p.at, store, n);
      && (!s.raised <==> FreshPlan(store, plan))
      && (!s.raised ==> Wrote(store, plan, s.store))
  {
    hide TryOne, Orders, FreshPlan, Wrote;
    if n == 0 {
      NothingPlanned(store);
    } else {
      PassFollowsPlan(settings, hashes, p, store, n - 1);
      var s := Pass(settings, hashes, p.opportunities, p.world, p.at, store, n - 1);
      var o, m := p.opportunities[n - 1], p.world(n - 1);
      var first, last := PassPlan(settings, hashes, p, n - 1), PlanOf(hashes.fill, Orders(settings, hashes, p.opportunities, o, m, p.at));
      FreshBoth(store, first, last);
      if !s.raised {
        OneIteration(settings, hashes, p.opportunities, s, o, m, p.at);
        var after := TryOne(settings, hashes, p.opportunities, s, o, m, p.at);
        if !after.raised { WroteBoth(store, first, s.store, last, after.store); }
      }
    }
  }

  datatype ScheduleState = ScheduleState(store: Store, raised: bool)

  /** The store after a sequence of passes, and whether one of them ended in a conflict. */
  function RunSchedule(settings: RiskSettings, hashes: Hashes, passes: seq<ScheduledPass>, store: Store): ScheduleState {
    if passes == [] then ScheduleState(store, false)
    else
      var s := RunSchedule(settings, hashes, passes[..|passes| - 1], store);
      var last := RunPass(settings, hashes, passes[|passes| - 1], s.store);
      ScheduleState(last.store, s.raised || last.raised)
  }

  lemma {:induction false} ScheduleFollowsPlan(settings: RiskSettings, hashes: Hashes, passes: seq<ScheduledPass>, store: Store)
    ensures var plan, s := SchedulePlan(settings, hashes, passes), RunSchedule(settings, hashes, passes, store);
      && (!s.raised <==> FreshPlan(store, plan))
      && (!s.raised ==> Wrote(store, plan, s.store))
  {
    hide Pass, PassPlan, FreshPlan, Wrote;
    if passes == [] {
      NothingPlanned(store);
    } else {
      var init, last := passes[..|passes| - 1], passes[|passes| - 1];
      ScheduleFollowsPlan(settings, hashes, init, store);
      var s := RunSchedule(settings, hashes, init, store);
      FreshBoth(store, SchedulePlan(settings, hashes, init), WholePlan(settings, hashes, last));
      if !s.raised {
        PassFollowsPlan(settings, hashes, last, s.store, |last.opportunities|);
        var after := RunPass(settings, hashes, last, s.store);
        if !after.raised { WroteBoth(store, SchedulePlan(settings, hashes, init), s.store, WholePlan(settings, hashes, last), after.store); }
      }
    }
  }

  /** Any sequence of passes, over any opportunities, stores and worlds: no pass ends in a conflict
      exactly when the ids of everything they mean to order are fresh, and then they write exactly
      that, whose notional is the sum over the passes. */
  lemma PassesWriteTheirPlan(settings: RiskSettings, hashes: Hashes, passes: seq<ScheduledPass>, store: Store)
    ensures var plan, s := SchedulePlan(settings, hashes, passes), RunSchedule(settings, hashes, passes, store);
      && (!s.raised <==> FreshPlan(store, plan))
      && (!s.raised ==>
            && |s.store.orders| == |store.orders| + |plan|
            && OrdersNotional(s.store.orders) == OrdersNotional(store.orders) + PlanTotal(plan))
  {
    ScheduleFollowsPlan(settings, hashes, passes, store);
    var plan, s := SchedulePlan(settings, hashes, passes), RunSchedule(settings, hashes, passes, store);
    if !s.raised { WroteTotal(store, plan, s.store); }
  }

  // ---------------------------------------------------------------- the same pass at several times

  /** The same opportunities in the same world, once at each time. */
  function Repeated(opportunities: seq<Opportunity>, world: World, times: seq<Instant>): seq<ScheduledPass> {
    seq(|times|, i requires 0 <= i < |times| => ScheduledPass(opportunities, times[i], world))
  }

  /** Each opportunity is approved at every time or at none. */
  ghost predicate SteadyApprovals(settings: RiskSettings, opportunities: seq<Opportunity>, world: World, times: seq<Instant>) {
    forall i, j, k :: 0 <= i < |opportunities| && 0 <= j < |times| && 0 <= k < |times| ==>
      ApprovedAt(settings, opportunities, world, i, times[j]) == ApprovedAt(settings, opportunities, world, i, times[k])
  }

  predicate ApprovedAt(settings: RiskSettings, opportunities: seq<Opportunity>, world: World, i: nat, at: Instant)
    requires i < |opportunities|
  {
    Decide(settings, opportunities, opportunities[i], 0, world(i), at).approved
  }

  /** The same requests at another time: equal but for the ids. */
  lemma {:induction false} SameRequestsLater(hash: OrderHash, intent: Intent, later: Intent, legs: seq<PricingLeg>, scale: real)
    requires later == intent.(submittedAt := later.submittedAt)
    ensures var a, b := LegRequests(hash, intent, legs, scale), LegRequests(hash, later, legs, scale);
      && (a.Ok? <==> b.Ok?)
      && (a.Ok? ==> |a.value| == |b.value| && Notional(a.value) == Notional(b.value))
  {
    hide Times, LegRequest;
    if legs != [] {
      SameRequestsLater(hash, intent, later, legs[..|legs| - 1], scale);
      SameRequestLater(hash, intent, later, legs[|legs| - 1], |legs|, scale);
    }
  }

  lemma SameRequestLater(hash: OrderHash, intent: Intent, later: Intent, leg: PricingLeg, index: nat, scale: real)
    requires later == intent.(submittedAt := later.submittedAt)
    ensures var a, b := LegRequest(hash, intent, leg, index, scale), LegRequest(hash, later, leg, index, scale);
      && (a.Ok? <==> b.Ok?)
      && (a.Ok? ==> a.value.price == b.value.price && a.value.quantity == b.value.quantity)
  {
    hide Times, RoundDown;
  }

  lemma SameBuildLater(hash: OrderHash, o: Opportunity, decision: RiskDecision, at: Instant, later: Instant)
    ensures var a, b := BuildOrders(hash, o, decision, Paper, at), BuildOrders(hash, o, decision, Paper, later);
      && (a.Ok? <==> b.Ok?)
      && (a.Ok? ==> Notional(a.value.requests) == Notional(b.value.requests))
  {
    hide LegRequests, Notional;
    var sizing := Sizing(o, decision);
    if sizing.Ok? {
      SameRequestsLater(hash, IntentOf(o, decision, Paper, at), IntentOf(o, decision, Paper, later), LegsOf(o.details), sizing.value.2);
    }
  }

  /** Time enters an approval through the age of the sighting only. */
  lemma SameDecisionLater(settings: RiskSettings, opportunities: seq<Opportunity>, o: Opportunity, m: Moment, at: Instant, later: Instant)
    requires Decide(settings, opportunities, o, 0, m, at).approved && Decide(settings, opportunities, o, 0, m, later).approved
    ensures Decide(settings, opportunities, o, 0, m, at) == Decide(settings, opportunities, o, 0, m, later)
  {
    hide LatestSummary, ExposureOf, Others, Simulation.ElapsedSeconds;
  }

  lemma SameOrdersLater(settings: RiskSettings, hashes: Hashes, opportunities: seq<Opportunity>, o: Opportunity, m: Moment, at: Instant, later: Instant)
    requires Decide(settings, opportunities, o, 0, m, at).approved == Decide(settings, opportunities, o, 0, m, later).approved
    ensures Notional(Orders(settings, hashes, opportunities, o, m, at)) == Notional(Orders(settings, hashes, opportunities, o, m, later))
  {
    hide Decide, BuildOrders, CheckLink, Notional;
    var decision := Decide(settings, opportunities, o, 0, m, at);
    if decision.approved {
      SameDecisionLater(settings, opportunities, o, m, at, later);
      SameBuildLater(hashes.order, o, decision, at, later);
    }
  }

  lemma {:induction false} SamePassLater(settings: RiskSettings, hashes: Hashes, p: ScheduledPass, q: ScheduledPass, n: nat)
    requires n <= |p.opportunities| && q == p.(at := q.at)
    requires forall i :: 0 <= i < n ==>
      ApprovedAt(settings, p.opportunities, p.world, i, p.at) == ApprovedAt(settings, p.opportunities, p.world, i, q.at)
    ensures PlanTotal(PassPlan(settings, hashes, p, n)) == PlanTotal(PassPlan(settings, hashes, q, n))
  {
    hide Orders, Decide, PlanOf, PlanTotal, Notional;
    if n > 0 {
      SamePassLater(settings, hashes, p, q, n - 1);
      var o, m := p.opportunities[n - 1], p.world(n - 1);
      assert ApprovedAt(settings, p.opportunities, p.world, n - 1, p.at) == ApprovedAt(settings, p.opportunities, p.world, n - 1, q.at);
      SameOrdersLater(settings, hashes, p.opportunities, o, m, p.at, q.at);
      var a, b := Orders(settings, hashes, p.opportunities, o, m, p.at), Orders(settings, hashes, p.opportunities, o, m, q.at);
      PlanOfTotal(hashes.fill, a);
      PlanOfTotal(hashes.fill, b);
      PlanTotalSplits(PassPlan(settings, hashes, p, n - 1), PlanOf(hashes.fill, a));
      PlanTotalSplits(PassPlan(settings, hashes, q, n - 1), PlanOf(hashes.fill, b));
    }
  }

  lemma {:induction false} RepeatedTotal(settings: RiskSettings, hashes: Hashes, opportunities: seq<Opportunity>, world: World, times: seq<Instant>, first: Instant)
    requires SteadyApprovals(settings, opportunities, world, [first] + times)
    ensures PlanTotal(SchedulePlan(settings, hashes, Repeated(opportunities, world, times)))
         == Times(|times| as real, PlanTotal(WholePlan(settings, hashes, ScheduledPass(opportunities, first, world))))
  {
    hide Times, PassPlan, ApprovedAt;
    var one := PlanTotal(WholePlan(settings, hashes, ScheduledPass(opportunities, first, world)));
    if times == [] {
      TimesZero(one);
    } else {
      var n := |times| - 1;
      var all := [first] + times;
      assert SteadyApprovals(settings, opportunities, world, [first] + times[..n]) by {
        assert forall j :: 0 <= j <= n ==> ([first] + times[..n])[j] == all[j];
      }
      RepeatedTotal(settings, hashes, opportunities, world, times[..n], first);
      var p, q := ScheduledPass(opportunities, first, world), ScheduledPass(opportunities, times[n], world);
      assert Repeated(opportunities, world, times) == Repeated(opportunities, world, times[..n]) + [q];
      assert Repeated(opportunities, world, times)[..n] == Repeated(opportunities, world, times[..n]);
      forall i | 0 <= i < |opportunities|
        ensures ApprovedAt(settings, opportunities, world, i, first) == ApprovedAt(settings, opportunities, world, i, times[n])
      {
        assert all[0] == first && all[n + 1] == times[n];
      }
      SamePassLater(settings, hashes, p, q, |opportunities|);
      PlanTotalSplits(SchedulePlan(settings, hashes, Repeated(opportunities, world, times[..n])), WholePlan(settings, hashes, q));
      TimesAdds(one, n as real, 1.0);
      TimesOne(one);
    }
  }

  /** When the notional limit holds over several passes. A pass repeated `k` times, while every
      opportunity stays approved or stays refused and the order ids do not collide, writes `k` times
      the rounded total of one pass; so the passes together stay within the limit exactly when that
      product does. */
  lemma LimitOverPassesExactly(settings: RiskSettings, hashes: Hashes, opportunities: seq<Opportunity>, world: World,
                               times: seq<Instant>, store: Store)
    requires times != [] && SteadyApprovals(settings, opportunities, world, times)
    requires FreshPlan(store, SchedulePlan(settings, hashes, Repeated(opportunities, world, times)))
    ensures var s := RunSchedule(settings, hashes, Repeated(opportunities, world, times), store);
      var one := PlanTotal(WholePlan(settings, hashes, ScheduledPass(opportunities, times[0], world)));
      var written := OrdersNotional(s.store.orders) - OrdersNotional(store.orders);
      && !s.raised
      && written == Times(|times| as real, one)
      && (written <= settings.maxUnresolved <==> Times(|times| as real, one) <= settings.maxUnresolved)
  {
    hide Times, RunSchedule, SchedulePlan, WholePlan, FreshPlan, ApprovedAt;
    PassesWriteTheirPlan(settings, hashes, Repeated(opportunities, world, times), store);
    var all := [times[0]] + times;
    assert SteadyApprovals(settings, opportunities, world, all) by {
      assert forall j :: 0 <= j < |all| ==> all[j] == times[if j == 0 then 0 else j - 1];
    }
    RepeatedTotal(settings, hashes, opportunities, world, times, times[0]);
  }

  // ---------------------------------------------------------------- the same pass at the same time

  /** Every id of the plan is in the store already. */
  ghost predicate AlreadyWritten(plan: seq<PlannedOrder>, store: Store) {
    forall i :: 0 <= i < |plan| ==> HasClientId(store.orders, plan[i].request.clientOrderId)
  }

  lemma {:induction false} NothingNew(settings: RiskSettings, hashes: Hashes, p: ScheduledPass, store: Store, n: nat)
    requires n <= |p.opportunities| && AlreadyWritten(PassPlan(settings, hashes, p, n), store)
    ensures var s := Pass(settings, hashes, p.opportunities, p.world, p.at, store, n);
      s.store == store && (s.raised <==> PassPlan(settings, hashes, p, n) != [])
  {
    hide TryOne, Orders, FreshPlan, Wrote, HasClientId;
    if n > 0 {
      var first, last := PassPlan(settings, hashes, p, n - 1),
                         PlanOf(hashes.fill, Orders(settings, hashes, p.opportunities, p.opportunities[n - 1], p.world(n - 1), p.at));
      assert first + last == PassPlan(settings, hashes, p, n);
      assert forall i :: 0 <= i < |first| ==> (first + last)[i] == first[i];
      assert forall i :: 0 <= i < |last| ==> (first + last)[|first| + i] == last[i];
      NothingNew(settings, hashes, p, store, n - 1);
      var s := Pass(settings, hashes, p.opportunities, p.world, p.at, store, n - 1);
      if !s.raised {
        OneIteration(settings, hashes, p.opportunities, s, p.opportunities[n - 1], p.world(n - 1), p.at);
        if last == [] {
          NothingPlanned(store);
          EmptyWriteChangesNothing(s.store, TryOne(settings, hashes, p.opportunities, s, p.opportunities[n - 1], p.world(n - 1), p.at).store);
        } else {
          assert HasClientId(store.orders, last[0].request.clientOrderId);
          TakenIsNotFresh(store, last);
        }
      }
    }
  }

  lemma EmptyWriteChangesNothing(store: Store, after: Store)
    ensures Wrote(store, [], after) ==> after == store
  {
    if Wrote(store, [], after) {
      assert after.orders[..|store.orders|] == after.orders && after.fills[..|store.fills|] == after.fills;
    }
  }

  lemma TakenIsNotFresh(store: Store, plan: seq<PlannedOrder>)
    requires plan != [] && HasClientId(store.orders, plan[0].request.clientOrderId)
    ensures !FreshPlan(store, plan)
  {
  }

  /** Submitting a pass again at its own time writes nothing: if it ordered anything, it ends in a
      conflict. Whatever passes came before, it is enough that they included it. */
  lemma SamePassAgainWritesNothing(settings: RiskSettings, hashes: Hashes, passes: seq<ScheduledPass>, store: Store, j: nat)
    requires j < |passes| && !RunSchedule(settings, hashes, passes, store).raised
    ensures var s := RunSchedule(settings, hashes, passes, store);
      var again := RunPass(settings, hashes, passes[j], s.store);
      again.store == s.store && (again.raised <==> WholePlan(settings, hashes, passes[j]) != [])
  {
    hide RunSchedule, FreshPlan, HasClientId, PassPlan;
    ScheduleFollowsPlan(settings, hashes, passes, store);
    var s := RunSchedule(settings, hashes, passes, store);
    var plan := WholePlan(settings, hashes, passes[j]);
    var offset := PlanInSchedule(settings, hashes, passes, j);
    PlanIsStored(store, SchedulePlan(settings, hashes, passes), s.store, plan, offset);
    hide Wrote, AlreadyWritten, SchedulePlan;
    NothingNew(settings, hashes, passes[j], s.store, |passes[j].opportunities|);
  }

  lemma PlanIsStored(store: Store, all: seq<PlannedOrder>, after: Store, plan: seq<PlannedOrder>, offset: nat)
    requires Wrote(store, all, after)
    requires offset + |plan| <= |all| && forall i :: 0 <= i < |plan| ==> all[offset + i] == plan[i]
    ensures AlreadyWritten(plan, after)
  {
    forall i | 0 <= i < |plan| ensures HasClientId(after.orders, plan[i].request.clientOrderId) {
      assert all[offset + i] == plan[i];
      assert after.orders[|store.orders| + (offset + i)].clientOrderId == all[offset + i].request.clientOrderId;
    }
  }

  lemma {:induction false} PlanInSchedule(settings: RiskSettings, hashes: Hashes, passes: seq<ScheduledPass>, j: nat) returns (offset: nat)
    requires j < |passes|
    ensures var all, plan := SchedulePlan(settings, hashes, passes), WholePlan(settings, hashes, passes[j]);
      offset + |plan| <= |all| && forall i :: 0 <= i < |plan| ==> all[offset + i] == plan[i]
  {
    hide WholePlan;
    var n := |passes| - 1;
    if j == n {
      offset := |SchedulePlan(settings, hashes, passes[..n])|;
    } else {
      offset := PlanInSchedule(settings, hashes, passes[..n], j);
    }
  }

  // ---------------------------------------------------------------- a concrete case

  const TIGHT_SETTINGS: RiskSettings := RiskSettings(0.0, 0.0, 2, 1.5, 30)

  /** A world that nobody disturbs. */
  function Always(m: Moment): World {
    (_: nat) => m
  }

  function TwoLegs(): seq<PricingLeg> {
    [ PricingLeg(Some(1), 1, Buy, Some(2.0), Some(2.0), Some(0.25), Some(0.5)),
      PricingLeg(Some(1), 2, Buy, Some(2.0), Some(2.0), Some(0.5), Some(1.0)) ]
  }

  /** Two baskets of 0.75 each, detected and simulated at time zero. */
  function SmallOpportunity(): Opportunity {
    Opportunity(1, 1, None, None, None, "", 0, 0, 0, None, Open, 0.0, Some(3333.0), 0.5,
      Details(Some(Pricing(Some(2.0), Some(1.5), Some(1.5), None, Some(TwoLegs()))), Some([1.0]), Some(1.0), Some(2), None))
  }

  function QuietMoment(): Moment {
    var rows := [SimulatedExecution(0, 1, "run", true, 0, Some(SummaryPayload(None, Some(FillModel.Robust), Some({}), true)))];
    Moment(Controls(false, Paper), rows, Controls(false, Paper), rows)
  }

  lemma SmallOpportunityIsPriced()
    ensures DetectorPricing(SmallOpportunity().details)
  {
    var legs := TwoLegs();
    assert legs[..1] == [legs[0]] && legs[..1][..0] == [];
    assert TotalNotional([]) == PriceTotal([]) == 0.0;
    assert TotalNotional(legs[..1]) == 0.5 && PriceTotal(legs[..1]) == 0.25;
    assert DetectorLeg(legs[0], 2.0) && DetectorLeg(legs[1], 2.0);
  }

  lemma QuietMomentApproves(openOrders: int, at: Instant)
    requires 0 <= at <= 1
    ensures Decide(TIGHT_SETTINGS, [SmallOpportunity()], SmallOpportunity(), openOrders, QuietMoment(), at)
         == RiskDecision(true, Approved, Some(1.5), Some("run"))
  {
    var o, rows := SmallOpportunity(), QuietMoment().gateRows;
    OthersSplit([o], 0);
    assert Others([o], o.id) == [];
    assert rows[..0] == [] && LatestWhere([], IsSummaryOf(1)) == None;
    assert LatestSummary(rows, 1) == Some(rows[0]);
  }

  lemma OnWholeQuanta(amount: real, k: int)
    requires amount * QUANTA_PER_UNIT == k as real
    ensures RoundDown(amount) == amount
  {
    assert IsQuanta(amount, k);
    RoundDownExactly(amount);
  }

  lemma SmallBuild(hash: OrderHash, at: Instant)
    ensures var built := BuildOrders(hash, SmallOpportunity(), RiskDecision(true, Approved, Some(1.5), Some("run")), Paper, at);
      built.Ok? && Notional(built.value.requests) == 1.5
  {
    var o, decision, legs := SmallOpportunity(), RiskDecision(true, Approved, Some(1.5), Some("run")), TwoLegs();
    OnWholeQuanta(2.0, 200_000_000);
    OnWholeQuanta(0.25, 25_000_000);
    OnWholeQuanta(0.5, 50_000_000);
    TimesOne(2.0);
    hide RoundDown;
    var intent := IntentOf(o, decision, Paper, at);
    assert Sizing(o, decision) == Ok((1.5, 1.5, 1.0));
    assert legs[..1] == [legs[0]] && legs[..1][..0] == [];
    assert LegRequest(hash, intent, legs[0], 1, 1.0).Ok? && LegRequest(hash, intent, legs[1], 2, 1.0).Ok?;
    var first, second := LegRequest(hash, intent, legs[0], 1, 1.0).value, LegRequest(hash, intent, legs[1], 2, 1.0).value;
    assert LegRequests(hash, intent, [], 1.0) == Ok([]) && [] + [first] == [first] && [first] + [second] == [first, second];
    assert LegRequests(hash, intent, legs[..1], 1.0) == Ok([first]);
    assert LegRequests(hash, intent, legs, 1.0) == Ok([first, second]);
    assert [first, second][..1] == [first] && [first][..0] == [];
    assert Notional([first]) == 0.5;
  }

  lemma SmallOrders(hashes: Hashes, at: Instant)
    requires 0 <= at <= 1
    ensures var requests := Orders(TIGHT_SETTINGS, hashes, [SmallOpportunity()], SmallOpportunity(), QuietMoment(), at);
      && Notional(requests) == 1.5
      && |requests| == 2
      && requests[0].clientOrderId == hashes.order(OrderIdInput(Paper, 1, "run", 1, 1, at))
      && requests[1].clientOrderId == hashes.order(OrderIdInput(Paper, 1, "run", 2, 2, at))
  {
    var m, rows := QuietMoment(), QuietMoment().tradeRows;
    QuietMomentApproves(0, at);
    SmallBuild(hashes.order, at);
    assert rows[..0] == [] && LatestWhere([], HasRunId("run")) == None && LatestWhere([], IsSummaryOf(1)) == None;
    assert AnyByRunId(rows, "run") == LatestSummary(rows, 1) == Some(rows[0]);
    hide BuildOrders, Decide, RoundedLeg;
    BuiltOrders(hashes.order, SmallOpportunity(), RiskDecision(true, Approved, Some(1.5), Some("run")), Paper, at);
  }

  /** The pass of one small opportunity, at time zero and again a microsecond later. */
  function TwoPasses(): seq<ScheduledPass> {
    Repeated([SmallOpportunity()], Always(QuietMoment()), [0, 1])
  }

  /** The limit can be exceeded by two passes: one tradable opportunity that fills the limit of 1.50
      is written by two passes a microsecond apart, as long as their four orders and four fills
      get different ids. */
  lemma {:induction false} TwoPassesExceedTheLimit(hashes: Hashes)
    requires FreshPlan(EMPTY_STORE, SchedulePlan(TIGHT_SETTINGS, hashes, TwoPasses()))
    ensures Tradable([SmallOpportunity()]) && ValidRows(QuietMoment().tradeRows)
    ensures var s := RunSchedule(TIGHT_SETTINGS, hashes, TwoPasses(), EMPTY_STORE);
      && !s.raised
      && OrdersNotional(s.store.orders) == 3.0 > TIGHT_SETTINGS.maxUnresolved
  {
    SmallOpportunityIsTradable();
    hide *;
    SmallPassTotal(hashes);
    SmallApprovalsAreSteady();
    ThreeDollars();
    TwoPassesAre();
    LimitOverPassesExactly(TIGHT_SETTINGS, hashes, [SmallOpportunity()], Always(QuietMoment()), [0, 1], EMPTY_STORE);
  }

  lemma TwoPassesAre()
    ensures TwoPasses() == Repeated([SmallOpportunity()], Always(QuietMoment()), [0, 1])
  {
  }

  lemma ThreeDollars()
    ensures OrdersNotional(EMPTY_STORE.orders) == 0.0 && Times(2.0, 1.5) == 3.0 > TIGHT_SETTINGS.maxUnresolved
  {
  }

  lemma SmallOpportunityIsTradable()
    ensures Tradable([SmallOpportunity()]) && ValidRows(QuietMoment().tradeRows)
  {
    SmallOpportunityIsPriced();
    hide DetectorPricing;
  }

  lemma SmallApprovalsAreSteady()
    ensures SteadyApprovals(TIGHT_SETTINGS, [SmallOpportunity()], Always(QuietMoment()), [0, 1])
  {
    QuietMomentApproves(0, 0);
    QuietMomentApproves(0, 1);
    hide Decide, SmallOpportunity, QuietMoment;
  }

  lemma SmallPassTotal(hashes: Hashes)
    ensures PlanTotal(WholePlan(TIGHT_SETTINGS, hashes, ScheduledPass([SmallOpportunity()], 0, Always(QuietMoment())))) == 1.5
  {
    SmallOrders(hashes, 0);
    hide Orders, PlanOf, PlanTotal, Notional, SmallOpportunity, QuietMoment;
    var p := ScheduledPass([SmallOpportunity()], 0, Always(QuietMoment()));
    var requests := Orders(TIGHT_SETTINGS, hashes, [SmallOpportunity()], SmallOpportunity(), QuietMoment(), 0);
    PlanOfTotal(hashes.fill, requests);
    assert PassPlan(TIGHT_SETTINGS, hashes, p, 0) == [];
    assert PassPlan(TIGHT_SETTINGS, hashes, p, 1) == [] + PlanOf(hashes.fill, requests) == PlanOf(hashes.fill, requests);
  }

  /** Such ids exist: one per leg and time will do. */
  lemma DifferentIdsExist()
    ensures exists hashes: Hashes :: FreshPlan(EMPTY_STORE, SchedulePlan(TIGHT_SETTINGS, hashes, TwoPasses()))
  {
    var hashes := Hashes(LegAndTime(), ClientIdOnly());
    SmallPlan(hashes);
    var plan := SchedulePlan(TIGHT_SETTINGS, hashes, TwoPasses());
    FourIds(plan);
    hide SchedulePlan, TwoPasses;
    assert FreshPlan(EMPTY_STORE, plan);
  }

  lemma FourIds(plan: seq<PlannedOrder>)
    requires |plan| == 4
    requires plan[0] == IdsAt(Hashes(LegAndTime(), ClientIdOnly()), plan[0], 1, 0)
    requires plan[1] == IdsAt(Hashes(LegAndTime(), ClientIdOnly()), plan[1], 2, 0)
    requires plan[2] == IdsAt(Hashes(LegAndTime(), ClientIdOnly()), plan[2], 1, 1)
    requires plan[3] == IdsAt(Hashes(LegAndTime(), ClientIdOnly()), plan[3], 2, 1)
    ensures FreshPlan(EMPTY_STORE, plan)
  {
    assert plan[0].request.clientOrderId == plan[0].fillId == "a" && plan[1].request.clientOrderId == plan[1].fillId == "b";
    assert plan[2].request.clientOrderId == plan[2].fillId == "c" && plan[3].request.clientOrderId == plan[3].fillId == "d";
    assert "a"[0] != "b"[0] && "a"[0] != "c"[0] && "a"[0] != "d"[0] && "b"[0] != "c"[0] && "b"[0] != "d"[0] && "c"[0] != "d"[0];
  }

  lemma SmallPlan(hashes: Hashes)
    ensures var plan := SchedulePlan(TIGHT_SETTINGS, hashes, TwoPasses());
      && |plan| == 4
      && plan[0] == IdsAt(hashes, plan[0], 1, 0) && plan[1] == IdsAt(hashes, plan[1], 2, 0)
      && plan[2] == IdsAt(hashes, plan[2], 1, 1) && plan[3] == IdsAt(hashes, plan[3], 2, 1)
  {
    SmallOrders(hashes, 0);
    SmallOrders(hashes, 1);
    hide Orders, SmallOpportunity, QuietMoment, Notional;
    PlanOfTwoPasses(hashes, SmallOpportunity(), QuietMoment(), 0, 1);
  }

  lemma PlanOfOne(hashes: Hashes, o: Opportunity, m: Moment, at: Instant)
    ensures WholePlan(TIGHT_SETTINGS, hashes, ScheduledPass([o], at, Always(m)))
         == PlanOf(hashes.fill, Orders(TIGHT_SETTINGS, hashes, [o], o, m, at))
  {
    hide Orders, PlanOf;
    var p := ScheduledPass([o], at, Always(m));
    assert PassPlan(TIGHT_SETTINGS, hashes, p, 0) == [];
  }

  lemma PlanOfTwoPasses(hashes: Hashes, o: Opportunity, m: Moment, at: Instant, later: Instant)
    ensures SchedulePlan(TIGHT_SETTINGS, hashes, Repeated([o], Always(m), [at, later]))
         == PlanOf(hashes.fill, Orders(TIGHT_SETTINGS, hashes, [o], o, m, at))
            + PlanOf(hashes.fill, Orders(TIGHT_SETTINGS, hashes, [o], o, m, later))
  {
    hide Orders, PlanOf, WholePlan;
    var p, q := ScheduledPass([o], at, Always(m)), ScheduledPass([o], later, Always(m));
    PlanOfOne(hashes, o, m, at);
    PlanOfOne(hashes, o, m, later);
    assert Repeated([o], Always(m), [at, later]) == [p, q] && [p, q][..1] == [p] && [p][..0] == [];
    assert SchedulePlan(TIGHT_SETTINGS, hashes, []) == [];
    assert SchedulePlan(TIGHT_SETTINGS, hashes, [p]) == WholePlan(TIGHT_SETTINGS, hashes, p);
    assert SchedulePlan(TIGHT_SETTINGS, hashes, [p, q]) == SchedulePlan(TIGHT_SETTINGS, hashes, [p]) + WholePlan(TIGHT_SETTINGS, hashes, q);
  }

  /** A planned order with the ids hashed for one leg of the small opportunity. */
  function IdsAt(hashes: Hashes, planned: PlannedOrder, leg: nat, at: Instant): PlannedOrder {
    var id := hashes.order(OrderIdInput(Paper, 1, "run", leg, leg, at));
    PlannedOrder(planned.request.(clientOrderId := id), hashes.fill(id, leg))
  }

  function LegAndTime(): OrderHash {
    (x: OrderIdInput) => if x.submittedAt == 0 then (if x.index == 1 then "a" else "b") else if x.index == 1 then "c" else "d"
  }

  function ClientIdOnly(): FillHash {
    (clientOrderId: string, _: nat) => clientOrderId
  }
}
