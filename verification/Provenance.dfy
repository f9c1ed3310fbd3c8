/** Where the orders of the platform come from: which version of an opportunity was loaded, and which
    one was simulated, for every order in every reachable store. */
module Provenance {
  import opened Common
  import opened BookStore
  import opened Opportunities
  import opened OpportunityStore
  import opened DetectorServices
  import opened FillModel
  import opened Simulation
  import opened SimulationStore
  import opened Exposure
  import opened RiskPolicy
  import opened OrderBuilder
  import opened OrderStore
  import opened Trading
  import opened TraderRuntime
  import opened Pipeline
  import opened Platform

  // ---------------------------------------------------------------- summaries

  /** Step `s` is the simulator run that wrote the summary `x`, from the row it names as that row was
      then, on the books cached then. */
  ghost predicate SimulatedBy(c: Config, steps: seq<Step>, x: SimulatedExecution, s: nat)
    requires s < |steps|
  {
    var p := After(c, steps[..s]);
    && steps[s].RunSimulator?
    && 0 <= x.opportunityId < |p.rows|
    && p.rows[x.opportunityId].status == Open
    && x.runId == c.runHash(x.opportunityId, steps[s].simulatedAt)
    && x.payload == Some(SummaryOf(x.runId, SimulationOf(c.simulation, p.rows[x.opportunityId].details, p.feed.books, steps[s].simulatedAt)))
  }

  ghost predicate Simulated(c: Config, steps: seq<Step>, x: SimulatedExecution) {
    exists s :: 0 <= s < |steps| && SimulatedBy(c, steps, x, s)
  }

  /** A row of a simulator run's result was there before or is written by the run. */
  ghost predicate WrittenNow(c: Config, p: Platform, x: SimulatedExecution, at: Instant) {
    && 0 <= x.opportunityId < |p.rows|
    && p.rows[x.opportunityId].status == Open
    && x.runId == c.runHash(x.opportunityId, at)
    && x.payload == Some(SummaryOf(x.runId, SimulationOf(c.simulation, p.rows[x.opportunityId].details, p.feed.books, at)))
  }

  lemma {:induction false} RunWrites(c: Config, p: Platform, chosen: seq<int>, at: Instant)
    requires ValidRows(p.simulations) && PricedRows(p.rows)
    ensures forall x :: x in SimulateChosen(c, p, chosen, at) ==> x in p.simulations || WrittenNow(c, p, x, at)
  {
    hide SimulationOf, ValidRows, UpsertSummary, WrittenNow;
    if chosen != [] {
      var n, id := |chosen| - 1, chosen[|chosen| - 1];
      RunWrites(c, p, chosen[..n], at);
      SimulatorKeepsValid(c, p, chosen[..n], at);
      if 0 <= id < |p.rows| && p.rows[id].status == Open {
        OneWritten(c, p, id, at, SimulateChosen(c, p, chosen[..n], at));
      }
    }
  }

  lemma OneWritten(c: Config, p: Platform, id: nat, at: Instant, rows: Simulations)
    requires id < |p.rows| && p.rows[id].status == Open && PricedRows(p.rows) && ValidRows(rows)
    ensures forall x :: x in SimulateRow(c, p, p.rows[id], at, rows) ==> x in rows || WrittenNow(c, p, x, at)
  {
    var o, runId := p.rows[id], c.runHash(p.rows[id].id, at);
    assert o.id == id by { hide DetectorPricing; }
    var payload := SummaryOf(runId, SimulationOf(c.simulation, o.details, p.feed.books, at));
    hide SimulationOf, SummaryOf, UpsertSummary, ValidRows, PricedRows;
    UpsertMembers(rows, o.id, runId, at, payload);
    assert WrittenNow(c, p, WrittenRow(rows, o.id, runId, at, payload), at);
  }

  lemma EarlierSimulated(c: Config, steps: seq<Step>, x: SimulatedExecution)
    requires steps != [] && Simulated(c, steps[..|steps| - 1], x)
    ensures Simulated(c, steps, x)
  {
    hide After, SimulationOf;
    var init := steps[..|steps| - 1];
    var s :| 0 <= s < |init| && SimulatedBy(c, init, x, s);
    assert init[..s] == steps[..s] && init[s] == steps[s];
    assert SimulatedBy(c, steps, x, s);
  }

  lemma NowSimulated(c: Config, steps: seq<Step>, x: SimulatedExecution)
    requires steps != [] && steps[|steps| - 1].RunSimulator?
    requires WrittenNow(c, After(c, steps[..|steps| - 1]), x, steps[|steps| - 1].simulatedAt)
    ensures Simulated(c, steps, x)
  {
    hide After, SimulationOf;
    assert SimulatedBy(c, steps, x, |steps| - 1);
  }

  /** Every stored summary was computed by a simulator run. */
  lemma {:induction false} SummariesAreSimulated(c: Config, steps: seq<Step>, x: SimulatedExecution)
    requires ProperSteps(steps) && x in After(c, steps).simulations
    ensures Simulated(c, steps, x)
  {
    hide Simulated, WrittenNow, Sound, SimulateChosen, Execute, HandleEvent, LoadOpen, PassDecision, ApplyAll, ProperStep;
    if steps != [] {
      var init, last := steps[..|steps| - 1], steps[|steps| - 1];
      var p := After(c, init);
      ReachableIsSound(c, init);
      if x in p.simulations {
        SummariesAreSimulated(c, init, x);
        EarlierSimulated(c, steps, x);
      } else {
        assert last.RunSimulator?;
        SoundForSimulator(p);
        RunWrites(c, p, last.chosen, last.simulatedAt);
        NowSimulated(c, steps, x);
      }
    }
  }

  lemma SoundForSimulator(p: Platform)
    requires Sound(p)
    ensures ValidRows(p.simulations) && PricedRows(p.rows)
  {
  }

  // ---------------------------------------------------------------- passes

  /** Step `l` started the pass that is in progress. */
  ghost predicate StartedBy(c: Config, steps: seq<Step>, progress: Progress, l: nat)
    requires l < |steps|
  {
    && progress.Passing?
    && steps[l].StartPass?
    && progress.at == steps[l].submittedAt
    && progress.opportunities == LoadOpen(After(c, steps[..l]).rows, steps[l].ids)
  }

  /** The gate decided on opportunity `o` at step `g`. */
  ghost predicate DecidedAt(c: Config, steps: seq<Step>, o: Opportunity, decision: RiskDecision, at: Instant, g: nat)
    requires g < |steps|
  {
    var p := After(c, steps[..g]);
    && steps[g].GateNext?
    && CanGate(p)
    && p.progress.opportunities[p.progress.next] == o
    && p.progress.at == at
    && decision == PassDecision(c, p)
  }

  ghost predicate ProgressExplained(c: Config, steps: seq<Step>, progress: Progress) {
    progress.Passing? ==>
      && (exists l :: 0 <= l < |steps| && StartedBy(c, steps, progress, l))
      && (progress.decision.Some? && progress.next < |progress.opportunities| ==>
            exists g :: 0 <= g < |steps| && DecidedAt(c, steps, progress.opportunities[progress.next], progress.decision.value, progress.at, g))
  }

  lemma EarlierProgress(c: Config, steps: seq<Step>, progress: Progress)
    requires steps != [] && ProgressExplained(c, steps[..|steps| - 1], progress)
    ensures ProgressExplained(c, steps, progress)
  {
    hide After, PassDecision, LoadOpen;
    var init := steps[..|steps| - 1];
    forall k: nat | k < |init| ensures init[..k] == steps[..k] && init[k] == steps[k] {}
    if progress.Passing? {
      var l :| 0 <= l < |init| && StartedBy(c, init, progress, l);
      assert StartedBy(c, steps, progress, l);
      if progress.decision.Some? && progress.next < |progress.opportunities| {
        var g :| 0 <= g < |init| && DecidedAt(c, init, progress.opportunities[progress.next], progress.decision.value, progress.at, g);
        assert DecidedAt(c, steps, progress.opportunities[progress.next], progress.decision.value, progress.at, g);
      }
    }
  }

  lemma {:induction false} PassesAreExplained(c: Config, steps: seq<Step>)
    ensures ProgressExplained(c, steps, After(c, steps).progress)
  {
    hide PassDecision, LoadOpen, Execute, HandleEvent, ApplyAll, SimulateChosen;
    if steps != [] {
      var n := |steps| - 1;
      var init, last := steps[..n], steps[n];
      var p, after := After(c, init), After(c, steps);
      PassesAreExplained(c, init);
      EarlierProgress(c, steps, p.progress);
      StepExplains(c, steps, p, last, after);
    }
  }

  lemma StepExplains(c: Config, steps: seq<Step>, p: Platform, last: Step, after: Platform)
    requires steps != [] && last == steps[|steps| - 1] && p == After(c, steps[..|steps| - 1]) && after == Next(c, p, last)
    requires ProgressExplained(c, steps, p.progress)
    ensures ProgressExplained(c, steps, after.progress)
  {
    hide PassDecision, LoadOpen, Execute, HandleEvent, ApplyAll, SimulateChosen, After;
    var n := |steps| - 1;
    if last.StartPass? && CanStart(p) {
      assert StartedBy(c, steps, after.progress, n);
    } else if last.GateNext? && CanGate(p) {
      var l :| 0 <= l < |steps| && StartedBy(c, steps, p.progress, l);
      assert StartedBy(c, steps, after.progress, l);
      assert DecidedAt(c, steps, after.progress.opportunities[after.progress.next], after.progress.decision.value, after.progress.at, n);
    } else if last.TradeNext? && CanTrade(p) && after.progress.Passing? {
      var l :| 0 <= l < |steps| && StartedBy(c, steps, p.progress, l);
      assert StartedBy(c, steps, after.progress, l);
    }
  }

  // ---------------------------------------------------------------- orders

  /** The order is one of those built from `o` on the decision it records. */
  ghost predicate BuiltFrom(c: Config, o: Opportunity, order: LiveOrder) {
    var a := Attempt(o, order.decision, None, order.submittedAt);
    var built := BuildOrders(c.hashes.order, o, order.decision, Paper, order.submittedAt);
    && built.Ok?
    && exists j :: 0 <= j < |built.value.requests| && order == OrderRow(order.id, a.BatchOf(), built.value.requests[j])
  }

  /** The order was built from an opportunity that step `l` loaded, on a decision made at step `g`. */
  ghost predicate OrderedBy(c: Config, steps: seq<Step>, order: LiveOrder, o: Opportunity, l: nat, g: nat)
    requires l < |steps| && g < |steps|
  {
    && steps[l].StartPass?
    && order.submittedAt == steps[l].submittedAt
    && o in LoadOpen(After(c, steps[..l]).rows, steps[l].ids)
    && BuiltFrom(c, o, order)
    && order.decision.IsApproval()
    && DecidedAt(c, steps, o, order.decision, order.submittedAt, g)
  }

  ghost predicate Ordered(c: Config, steps: seq<Step>, order: LiveOrder) {
    exists o, l, g :: 0 <= l < |steps| && 0 <= g < |steps| && OrderedBy(c, steps, order, o, l, g)
  }

  lemma EarlierOrdered(c: Config, steps: seq<Step>, order: LiveOrder)
    requires steps != [] && Ordered(c, steps[..|steps| - 1], order)
    ensures Ordered(c, steps, order)
  {
    hide After, PassDecision, LoadOpen, BuiltFrom;
    var init := steps[..|steps| - 1];
    var o, l, g :| 0 <= l < |init| && 0 <= g < |init| && OrderedBy(c, init, order, o, l, g);
    assert init[..l] == steps[..l] && init[l] == steps[l] && init[..g] == steps[..g] && init[g] == steps[g];
    assert OrderedBy(c, steps, order, o, l, g);
  }

  /** A trade step appends orders built from the opportunity at hand, and nothing else touches the store. */
  lemma NewOrders(c: Config, p: Platform, step: Step, i: nat)
    requires Sound(p) && |p.store.orders| <= i < |Next(c, p, step).store.orders|
    ensures step.TradeNext? && CanTrade(p)
    ensures var a, order := NextAttempt(p), Next(c, p, step).store.orders[i];
      && BuiltFrom(c, a.o, order) && order.decision == a.decision && a.decision.IsApproval() && order.submittedAt == a.at
  {
    hide Execute, PassDecision, LoadOpen, HandleEvent, ApplyAll, SimulateChosen, PricedRows, WellFormed, ValidRows, BuildOrders;
    if step.TradeNext? && CanTrade(p) {
      ExecuteEffect(c.hashes, p.controls, p.simulations, p.store, NextAttempt(p));
      var built := BuildOrders(c.hashes.order, NextAttempt(p).o, NextAttempt(p).decision, Paper, NextAttempt(p).at);
      var j := i - |p.store.orders|;
      assert Next(c, p, step).store.orders[i] == OrderRow(i, NextAttempt(p).BatchOf(), built.value.requests[j]);
    }
  }

  lemma OldOrders(c: Config, p: Platform, step: Step, i: nat)
    requires Sound(p) && i < |p.store.orders|
    ensures i < |Next(c, p, step).store.orders| && Next(c, p, step).store.orders[i] == p.store.orders[i]
  {
    hide Execute, PassDecision, LoadOpen, HandleEvent, ApplyAll, SimulateChosen, PricedRows, WellFormed, ValidRows, BuildOrders;
    if step.TradeNext? && CanTrade(p) {
      var after := Execute(c.hashes, p.controls, p.simulations, p.store, NextAttempt(p)).1;
      ExecuteEffect(c.hashes, p.controls, p.simulations, p.store, NextAttempt(p));
      assert after.orders[..|p.store.orders|][i] == p.store.orders[i];
    }
  }

  lemma NowOrdered(c: Config, steps: seq<Step>, order: LiveOrder)
    requires steps != []
    requires var p := After(c, steps[..|steps| - 1]);
      && CanTrade(p)
      && ProgressExplained(c, steps[..|steps| - 1], p.progress)
      && BuiltFrom(c, NextAttempt(p).o, order) && order.decision == NextAttempt(p).decision
      && order.decision.IsApproval() && order.submittedAt == NextAttempt(p).at
    ensures Ordered(c, steps, order)
  {
    hide After, PassDecision, LoadOpen, BuiltFrom;
    var init := steps[..|steps| - 1];
    var progress := After(c, init).progress;
    var o := progress.opportunities[progress.next];
    var l :| 0 <= l < |init| && StartedBy(c, init, progress, l);
    var g :| 0 <= g < |init| && DecidedAt(c, init, o, progress.decision.value, progress.at, g);
    assert init[..l] == steps[..l] && init[l] == steps[l] && init[..g] == steps[..g] && init[g] == steps[g];
    assert OrderedBy(c, steps, order, o, l, g);
  }

  lemma {:induction false} OrdersAreOrdered(c: Config, steps: seq<Step>, i: nat)
    requires ProperSteps(steps) && i < |After(c, steps).store.orders|
    ensures Ordered(c, steps, After(c, steps).store.orders[i])
  {
    hide Ordered, Sound, Next, ProperStep, BuiltFrom, ProgressExplained;
    if steps != [] {
      var init, last := steps[..|steps| - 1], steps[|steps| - 1];
      var p := After(c, init);
      ReachableIsSound(c, init);
      if i < |p.store.orders| {
        OrdersAreOrdered(c, init, i);
        OldOrders(c, p, last, i);
        EarlierOrdered(c, steps, p.store.orders[i]);
      } else {
        PassesAreExplained(c, init);
        NewOrders(c, p, last, i);
        NowOrdered(c, steps, After(c, steps).store.orders[i]);
      }
    } else {
      NothingStored(c);
    }
  }

  lemma NothingStored(c: Config)
    ensures |After(c, []).store.orders| == 0
  {
  }

  // ---------------------------------------------------------------- the certificate of an order

  /** The order was built from row `loaded`, as step `l` loaded it, on an approval backed by the
      simulation that step `s` made of row `simulated`, the same row as it was then; that
      simulation was robust, and it concerned the ordered version of the row exactly when no
      detector run refreshed the row between the two steps. */
  ghost predicate Certified(c: Config, steps: seq<Step>, order: LiveOrder, l: nat, s: nat)
    requires l < |steps| && s < |steps|
  {
    var atLoad, atSimulation, r := After(c, steps[..l]), After(c, steps[..s]), order.opportunityId;
    && steps[l].StartPass? && steps[s].RunSimulator?
    && 0 <= r < |atLoad.rows| && r < |atSimulation.rows|
    && var loaded, simulated := atLoad.rows[r], atSimulation.rows[r];
    && loaded.status == simulated.status == Open
    && order.submittedAt == steps[l].submittedAt
    && BuiltFrom(c, loaded, order)
    && order.simulationRunId == c.runHash(r, steps[s].simulatedAt)
    && (var result := SimulationOf(c.simulation, simulated.details, atSimulation.feed.books, steps[s].simulatedAt);
        && result.classification == Robust
        && (forall leg :: leg in result.legs ==> leg.fill.filled == leg.fill.desired > 0.0)
        && result.expectedPnl == result.downsideBound > 0.0)
    && (simulated.details == loaded.details <==>
          !RefreshedBetween(c, steps, r, if l < s then l else s, if l < s then s else l))
  }

  lemma LoadedIsRow(c: Config, p: Platform, ids: Option<set<int>>, o: Opportunity)
    requires Sound(p) && o in LoadOpen(p.rows, ids)
    ensures 0 <= o.id < |p.rows| && p.rows[o.id] == o && o.status == Open
  {
    var rows := p.rows;
    assert forall i :: 0 <= i < |rows| ==> rows[i].id == i by { hide DetectorPricing; }
    hide LoadOpen, PricedRows;
    LoadedRows(rows, ids);
    var i :| 0 <= i < |rows| && rows[i] == o;
  }

  /** Two versions of an open row are the same exactly when no detector run came between. */
  lemma VersionsDiffer(c: Config, steps: seq<Step>, r: nat, from: nat, to: nat)
    requires ProperSteps(steps) && from <= to <= |steps|
    requires r < |After(c, steps[..from]).rows| && r < |After(c, steps[..to]).rows|
    requires After(c, steps[..to]).rows[r].status == Open
    ensures After(c, steps[..from]).rows[r].details == After(c, steps[..to]).rows[r].details
      <==> !RefreshedBetween(c, steps, r, from, to)
  {
    hide After, Refreshes, ProperStep;
    assert steps[..to][..from] == steps[..from];
    VersionsCount(c, steps[..to], r, from);
    forall j: nat | j < to ensures Refreshes(c, steps[..to], j, r) <==> Refreshes(c, steps, j, r) {
      SameRefresh(c, steps, to, j, r);
    }
  }

  /** An approval rests on a summary that a simulator run made of an open version of the row. */
  lemma ApprovalIsSimulated(c: Config, steps: seq<Step>, o: Opportunity, decision: RiskDecision, at: Instant, g: nat) returns (s: nat)
    requires ProperSteps(steps) && g < |steps| && DecidedAt(c, steps, o, decision, at, g) && decision.IsApproval()
    ensures s < g && BackedBy(c, steps, o, decision, s)
  {
    hide *;
    var p := After(c, steps[..g]);
    var x := GateSummary(c, p, steps, o, decision, at, g);
    SummariesAreSimulated(c, steps[..g], x) by { ProperPrefix(steps, g); }
    s := SimulatorStep(c, steps[..g], x);
    SummaryBacks(c, steps, p, x, o, decision, at, g, s);
  }

  lemma ProperPrefix(steps: seq<Step>, g: nat)
    requires ProperSteps(steps) && g <= |steps|
    ensures ProperSteps(steps[..g])
  {
    hide ProperStep;
  }

  lemma SimulatorStep(c: Config, steps: seq<Step>, x: SimulatedExecution) returns (s: nat)
    requires Simulated(c, steps, x)
    ensures s < |steps| && SimulatedBy(c, steps, x, s)
  {
    hide SimulatedBy;
    s :| 0 <= s < |steps| && SimulatedBy(c, steps, x, s);
  }

  /** The summary an approval was based on. */
  lemma GateSummary(c: Config, p: Platform, steps: seq<Step>, o: Opportunity, decision: RiskDecision, at: Instant, g: nat)
    returns (x: SimulatedExecution)
    requires g < |steps| && p == After(c, steps[..g]) && DecidedAt(c, steps, o, decision, at, g) && decision.IsApproval()
    ensures x in p.simulations && x.opportunityId == o.id && LatestSummary(p.simulations, o.id) == Some(x)
    ensures exists current :: decision == EvaluateRisk(c.risk, p.controls, o, Some(x), current, at)
  {
    hide After, ExposureOf, Others;
    var current := ExposureOf(Others(p.progress.opportunities, o.id), |p.store.orders|);
    assert decision == EvaluateRisk(c.risk, p.controls, o, LatestSummary(p.simulations, o.id), current, at);
    assert LatestSummary(p.simulations, o.id).Some?;
    hide EvaluateRisk;
    x := LatestSummary(p.simulations, o.id).value;
    assert IsSummaryOf(o.id)(x);
  }

  lemma SummaryBacks(c: Config, steps: seq<Step>, p: Platform, x: SimulatedExecution, o: Opportunity, decision: RiskDecision,
                     at: Instant, g: nat, s: nat)
    requires s < g < |steps| && SimulatedBy(c, steps[..g], x, s) && x.opportunityId == o.id
    requires LatestSummary(p.simulations, o.id) == Some(x) && decision.IsApproval()
    requires exists current :: decision == EvaluateRisk(c.risk, p.controls, o, Some(x), current, at)
    ensures BackedBy(c, steps, o, decision, s)
  {
    hide After, SimulationOf, EvaluateRisk, LatestSummary;
    assert steps[..g][..s] == steps[..s] && steps[..g][s] == steps[s];
    var current :| decision == EvaluateRisk(c.risk, p.controls, o, Some(x), current, at);
    var q := After(c, steps[..s]);
    ApprovalCertifiesSimulatedProfit(c.risk, p.controls, o, p.simulations, current, at, c.simulation, q.rows[o.id].details, q.feed.books,
                                     steps[s].simulatedAt, x.runId);
  }

  lemma BuiltOrderNames(c: Config, o: Opportunity, order: LiveOrder)
    requires BuiltFrom(c, o, order)
    ensures order.opportunityId == o.id && order.decision.simulationRunId == Some(order.simulationRunId)
  {
    hide BuildOrders, RoundedLeg;
    BuiltOrders(c.hashes.order, o, order.decision, Paper, order.submittedAt);
  }

  /** Every order of every reachable store names a summary that the simulator computed: a robust
      simulation, at a positive profit, of the ordered row as it was at some step. That was the
      ordered version of the row exactly when no detector run refreshed it between simulation and
      load, in whichever order they came. */
  lemma {:induction false} EveryOrderIsCertified(c: Config, steps: seq<Step>, i: nat) returns (l: nat, s: nat)
    requires ProperSteps(steps) && i < |After(c, steps).store.orders|
    ensures l < |steps| && s < |steps| && Certified(c, steps, After(c, steps).store.orders[i], l, s)
  {
    OrdersAreOrdered(c, steps, i);
    hide *;
    var o, g;
    o, l, g := OrderSource(c, steps, After(c, steps).store.orders[i]);
    s := OrderSimulation(c, steps, After(c, steps).store.orders[i], o, l, g);
    OrderIsCertified(c, steps, After(c, steps).store.orders[i], o, l, s);
  }

  lemma OrderSource(c: Config, steps: seq<Step>, order: LiveOrder) returns (o: Opportunity, l: nat, g: nat)
    requires Ordered(c, steps, order)
    ensures l < |steps| && g < |steps| && OrderedBy(c, steps, order, o, l, g)
  {
    hide OrderedBy;
    o, l, g :| 0 <= l < |steps| && 0 <= g < |steps| && OrderedBy(c, steps, order, o, l, g);
  }

  /** The simulation behind the decision of an order, of the opportunity it was built from. */
  ghost predicate BackedBy(c: Config, steps: seq<Step>, o: Opportunity, decision: RiskDecision, s: nat)
    requires s < |steps|
  {
    var p := After(c, steps[..s]);
    && steps[s].RunSimulator?
    && 0 <= o.id < |p.rows| && p.rows[o.id].status == Open
    && decision.simulationRunId == Some(c.runHash(o.id, steps[s].simulatedAt))
    && var result := SimulationOf(c.simulation, p.rows[o.id].details, p.feed.books, steps[s].simulatedAt);
    && result.classification == Robust
    && (forall leg :: leg in result.legs ==> leg.fill.filled == leg.fill.desired > 0.0)
    && result.expectedPnl == result.downsideBound > 0.0
  }

  lemma OrderSimulation(c: Config, steps: seq<Step>, order: LiveOrder, o: Opportunity, l: nat, g: nat) returns (s: nat)
    requires ProperSteps(steps) && l < |steps| && g < |steps| && OrderedBy(c, steps, order, o, l, g)
    ensures s < |steps| && BackedBy(c, steps, o, order.decision, s)
  {
    hide After, SimulationOf, BuiltFrom, LoadOpen, DecidedAt, ProperStep;
    s := ApprovalIsSimulated(c, steps, o, order.decision, order.submittedAt, g);
  }

  lemma OrderIsCertified(c: Config, steps: seq<Step>, order: LiveOrder, o: Opportunity, l: nat, s: nat)
    requires ProperSteps(steps) && l < |steps| && s < |steps| && BackedBy(c, steps, o, order.decision, s)
    requires steps[l].StartPass? && order.submittedAt == steps[l].submittedAt && BuiltFrom(c, o, order)
    requires o in LoadOpen(After(c, steps[..l]).rows, steps[l].ids)
    ensures Certified(c, steps, order, l, s)
  {
    hide After, ProperStep, BuiltFrom, LoadOpen, SimulationOf, RefreshedBetween, Sound;
    BuiltOrderNames(c, o, order);
    ReachableIsSound(c, steps[..l]);
    LoadedIsRow(c, After(c, steps[..l]), steps[l].ids, o);
    hide ProperSteps;
    VersionsEither(c, steps, o.id, l, s);
  }

  lemma VersionsEither(c: Config, steps: seq<Step>, r: nat, a: nat, b: nat)
    requires ProperSteps(steps) && a <= |steps| && b <= |steps|
    requires r < |After(c, steps[..a]).rows| && After(c, steps[..a]).rows[r].status == Open
    requires r < |After(c, steps[..b]).rows| && After(c, steps[..b]).rows[r].status == Open
    ensures After(c, steps[..b]).rows[r].details == After(c, steps[..a]).rows[r].details
      <==> !RefreshedBetween(c, steps, r, if a < b then a else b, if a < b then b else a)
  {
    hide After, ProperSteps, RefreshedBetween;
    if a < b { VersionsDiffer(c, steps, r, a, b); } else { VersionsDiffer(c, steps, r, b, a); }
  }
}
