/** What the steps of the platform do: the feed and the rows are those of the stages run on their
    own, and every simulator run writes its summaries. */
module PlatformSteps {
  import opened Common
  import opened Sorting
  import opened ExecutablePricing
  import opened BookStore
  import opened Opportunities
  import opened OpportunityStore
  import opened DetectorServices
  import opened FillModel
  import opened Simulation
  import opened SimulationStore
  import opened OrderStore
  import Trading
  import opened TraderRuntime
  import opened Pipeline
  import opened Platform

  // ---------------------------------------------------------------- the stages on their own

  /** The books received, in order. */
  function Received(steps: seq<Step>): seq<Option<BookSnapshot>> {
    if steps == [] then []
    else
      var init, last := Received(steps[..|steps| - 1]), steps[|steps| - 1];
      if last.ReceiveBook? then init + [last.book] else init
  }

  /** The detector runs, each with the books cached when it ran. */
  function DetectorRuns(c: Config, steps: seq<Step>): seq<ServiceRun> {
    if steps == [] then []
    else
      var init, last := steps[..|steps| - 1], steps[|steps| - 1];
      if last.RunDetector? then
        DetectorRuns(c, init) + [ServiceRun(last.constraints, HandleAll(EMPTY_FEED, Received(init), c.maxDepthLevels).books, last.detectedAt)]
      else DetectorRuns(c, init)
  }

  /** Whatever else happens, the feed is that of the received books, and the rows are those of the
      detector runs; so all that holds of these stages on their own holds in the platform. */
  lemma {:induction false} StagesAreSeparate(c: Config, steps: seq<Step>)
    ensures After(c, steps).feed == HandleAll(EMPTY_FEED, Received(steps), c.maxDepthLevels)
    ensures After(c, steps).rows == StoredRows(c.keyHash, c.detection, DetectorRuns(c, steps))
  {
    hide HandleEvent, ApplyAll, Evaluations, LoadOpen, PassDecision, Trading.Execute, SimulateChosen;
    if steps != [] {
      var init, last := steps[..|steps| - 1], steps[|steps| - 1];
      StagesAreSeparate(c, init);
      var events, runs := Received(init), DetectorRuns(c, init);
      if last.ReceiveBook? {
        assert (events + [last.book])[..|events|] == events;
      }
      if last.RunDetector? {
        var run := ServiceRun(last.constraints, After(c, init).feed.books, last.detectedAt);
        OneMoreRun(c, runs, run);
      }
    }
  }

  lemma {:induction false} OneMoreRun(c: Config, runs: seq<ServiceRun>, run: ServiceRun)
    ensures StoredRows(c.keyHash, c.detection, runs + [run])
         == ApplyAll(StoredRows(c.keyHash, c.detection, runs), Evaluations(c.keyHash, c.detection, run.constraints, run.books), run.at)
  {
    hide ApplyAll, Evaluations;
    var all := AsRuns(c.keyHash, c.detection, runs + [run]);
    assert all[..|runs|] == AsRuns(c.keyHash, c.detection, runs);
  }

  // ---------------------------------------------------------------- one pass at a time

  /** A pass is under way: it has an opportunity left. */
  predicate UnderWay(p: Platform) {
    p.progress.Passing? && p.progress.next < |p.progress.opportunities|
  }

  /** A pass starts only when none is under way, gates an opportunity only before it trades it and
      trades it only after; each of its steps leaves the feed, the rows, the simulations and the
      controls alone, and only a trade touches the store. The controls are those set last. */
  lemma {:induction false} PassStepsAreDue(c: Config, p: Platform, step: Step)
    ensures var after := Next(c, p, step);
      && (step.StartPass? && UnderWay(p) ==> after == p)
      && (step.GateNext? && (!UnderWay(p) || p.progress.decision != None) ==> after == p)
      && (step.TradeNext? && (!UnderWay(p) || p.progress.decision == None) ==> after == p)
      && (step.StartPass? && !UnderWay(p) ==>
            && after.progress.Passing? && after.progress.at == step.submittedAt && after.progress.next == 0 && after.progress.decision == None
            && forall o :: o in after.progress.opportunities <==> o in p.rows && o.status == Open && (step.ids.Some? ==> o.id in step.ids.value))
      && (step.SetControls? ==> after == p.(controls := step.controls))
      && (step.StartPass? || step.GateNext? ==> after == p.(progress := after.progress))
      && (step.TradeNext? ==> after == p.(progress := after.progress, store := after.store))
  {
    hide HandleEvent, ApplyAll, Evaluations, PassDecision, Trading.Execute, SimulateChosen, LoadOpen;
    if step.StartPass? {
      LoadedMembers(p.rows, step.ids);
    }
  }

  lemma LoadedMembers(rows: Rows, ids: Option<set<int>>)
    ensures forall o :: o in LoadOpen(rows, ids) <==> o in rows && o.status == Open && (ids.Some? ==> o.id in ids.value)
  {
    var kept := Filter(IsOpenAmong(ids), rows);
    FilterMembers(IsOpenAmong(ids), rows);
    DetectedBeforeIsOrder();
    SortSorted(DetectedBefore, kept);
    hide Filter, Sort;
    SameMembers(LoadOpen(rows, ids), kept);
  }

  // ---------------------------------------------------------------- a simulator run

  /** The summary of row `r` as it is now, on the books cached now. */
  ghost predicate SummarizedNow(c: Config, p: Platform, x: SimulatedExecution, r: nat, at: Instant)
    requires r < |p.rows|
  {
    var result := SimulationOf(c.simulation, p.rows[r].details, p.feed.books, at);
    && x.opportunityId == r && x.runId == c.runHash(r, at) && x.summary && x.executedAt == at
    && x.payload.Some?
    && x.payload.value.runId == Some(x.runId)
    && x.payload.value.classification == Some(result.classification)
    && x.payload.value.flags == Some(result.flags)
    && x.payload.value.hasResult
  }

  ghost predicate IsChosen(p: Platform, chosen: seq<int>, r: int) {
    0 <= r < |p.rows| && p.rows[r].status == Open && r in chosen
  }

  lemma PositionIsId(p: Platform, r: nat)
    requires PricedRows(p.rows) && r < |p.rows|
    ensures p.rows[r].id == r
  {
    hide DetectorPricing;
  }

  lemma {:induction false} OneSummary(c: Config, p: Platform, r: nat, at: Instant, rows: Simulations)
    requires PricedRows(p.rows) && ValidRows(rows) && r < |p.rows|
    ensures var after := SimulateRow(c, p, p.rows[r], at, rows);
      && ValidRows(after)
      && (exists x :: x in after && SummarizedNow(c, p, x, r, at))
      && (forall x: SimulatedExecution :: x.opportunityId != r || x.runId != c.runHash(r, at) ==> (x in after <==> x in rows))
      && (forall x, y :: x in after && y in after && x.opportunityId == y.opportunityId && x.runId == y.runId ==> x == y)
  {
    PositionIsId(p, r);
    var runId := c.runHash(r, at);
    var payload := SummaryOf(runId, SimulationOf(c.simulation, p.rows[r].details, p.feed.books, at));
    hide PricedRows, SimulationOf, UpsertSummary;
    UpsertKeepsValid(rows, r, runId, at, payload);
    UpsertMembers(rows, r, runId, at, payload);
    assert SummarizedNow(c, p, WrittenRow(rows, r, runId, at, payload), r, at);
    var after := SimulateRow(c, p, p.rows[r], at, rows);
    forall x, y | x in after && y in after && x.opportunityId == y.opportunityId && x.runId == y.runId ensures x == y {
      UniqueRun(after, x, y);
    }
  }

  lemma UniqueRun(rows: Simulations, x: SimulatedExecution, y: SimulatedExecution)
    requires ValidRows(rows) && x in rows && y in rows && x.opportunityId == y.opportunityId && x.runId == y.runId
    ensures x == y
  {
    var i :| 0 <= i < |rows| && rows[i] == x;
    var j :| 0 <= j < |rows| && rows[j] == y;
  }

  lemma {:induction false} ChosenAreSummarized(c: Config, p: Platform, chosen: seq<int>, at: Instant)
    requires PricedRows(p.rows) && ValidRows(p.simulations)
    ensures var after := SimulateChosen(c, p, chosen, at);
      && ValidRows(after)
      && (forall r :: IsChosen(p, chosen, r) ==> exists x :: x in after && SummarizedNow(c, p, x, r, at))
      && (forall x: SimulatedExecution :: !IsChosen(p, chosen, x.opportunityId) ==> (x in after <==> x in p.simulations))
      && (forall x: SimulatedExecution :: x.runId != c.runHash(x.opportunityId, at) ==> (x in after <==> x in p.simulations))
  {
    hide PricedRows, ValidRows, SummarizedNow, SimulateRow;
    if chosen != [] {
      var n, id := |chosen| - 1, chosen[|chosen| - 1];
      ChosenAreSummarized(c, p, chosen[..n], at);
      var before, after := SimulateChosen(c, p, chosen[..n], at), SimulateChosen(c, p, chosen, at);
      assert chosen == chosen[..n] + [id];
      if 0 <= id < |p.rows| && p.rows[id].status == Open {
        OneSummary(c, p, id, at, before);
        forall r | IsChosen(p, chosen, r) ensures exists x :: x in after && SummarizedNow(c, p, x, r, at) {
          if r != id {
            assert IsChosen(p, chosen[..n], r);
            var x :| x in before && SummarizedNow(c, p, x, r, at);
            SummaryNames(c, p, x, r, at);
            assert x in after;
          }
        }
      } else {
        assert forall r :: IsChosen(p, chosen, r) ==> IsChosen(p, chosen[..n], r);
      }
    }
  }

  lemma SummaryNames(c: Config, p: Platform, x: SimulatedExecution, r: nat, at: Instant)
    requires r < |p.rows| && SummarizedNow(c, p, x, r, at)
    ensures x.opportunityId == r && x.runId == c.runHash(r, at) && x.summary && x.executedAt == at
  {
    hide SimulationOf;
  }

  /** A simulator run writes one summary for every chosen open row, of that row as it is on the books
      cached; it changes nothing for other opportunities or other runs; and the summary it writes is
      the latest of its opportunity when no other summary of it is as late. */
  lemma {:induction false} SimulatorWritesSummaries(c: Config, p: Platform, chosen: seq<int>, at: Instant)
    requires Sound(p)
    ensures var after := Next(c, p, RunSimulator(chosen, at));
      && after == p.(simulations := after.simulations)
      && (forall r :: IsChosen(p, chosen, r) ==> exists x :: x in after.simulations && SummarizedNow(c, p, x, r, at))
      && (forall x: SimulatedExecution :: !IsChosen(p, chosen, x.opportunityId) ==> (x in after.simulations <==> x in p.simulations))
      && (forall x: SimulatedExecution :: x.runId != c.runHash(x.opportunityId, at) ==> (x in after.simulations <==> x in p.simulations))
  {
    hide PricedRows, ValidRows, SummarizedNow, SimulateChosen;
    ChosenAreSummarized(c, p, chosen, at);
  }

  lemma {:induction false} WritesValid(c: Config, p: Platform, chosen: seq<int>, at: Instant)
    requires Sound(p)
    ensures ValidRows(Next(c, p, RunSimulator(chosen, at)).simulations)
  {
    hide PricedRows, ValidRows, SummarizedNow, SimulateChosen;
    ChosenAreSummarized(c, p, chosen, at);
  }

  lemma {:induction false} WrittenSummaryIsLatest(c: Config, p: Platform, chosen: seq<int>, at: Instant, r: nat)
    requires Sound(p) && IsChosen(p, chosen, r)
    requires forall x :: x in p.simulations && x.opportunityId == r && x.summary && x.runId != c.runHash(r, at) ==> x.executedAt < at
    ensures var latest := LatestSummary(Next(c, p, RunSimulator(chosen, at)).simulations, r);
      latest.Some? && SummarizedNow(c, p, latest.value, r, at)
  {
    SimulatorWritesSummaries(c, p, chosen, at);
    WritesValid(c, p, chosen, at);
    hide Next, Sound, SummarizedNow, IsChosen, ValidRows, LatestWhere;
    var after := Next(c, p, RunSimulator(chosen, at)).simulations;
    var x :| x in after && SummarizedNow(c, p, x, r, at);
    SummaryNames(c, p, x, r, at);
    assert IsSummaryOf(r)(x);
    var latest := LatestSummary(after, r).value;
    assert IsSummaryOf(r)(latest);
    assert latest.runId == c.runHash(r, at);
    UniqueRun(after, x, latest);
  }
}
