/** The platform as one state machine: book events, detector runs, simulator runs, control changes
    and trader passes, the steps of a pass interleaved with all the others
    (src/constraint_scanner/runtime.py, simulation/simulator_service.py). */
module Platform {
  import opened Common
  import opened ExecutablePricing
  import opened BookStore
  import opened Opportunities
  import opened Detection
  import opened OpportunityStore
  import opened DetectorServices
  import opened FillModel
  import opened Simulation
  import opened SimulationStore
  import opened Exposure
  import opened RiskPolicy
  import opened OrderBuilder
  import opened OrderStore
  import opened Trading
  import opened TraderRuntime
  import opened Pipeline

  /** The settings of a deployment and the hashes behind its identifiers. */
  datatype Config = Config(
    keyHash: KeyHash, detection: Settings, simulation: SimulationSettings, risk: RiskSettings, hashes: Hashes,
    runHash: (int, Instant) -> string, maxDepthLevels: nat)

  /** A pass in progress: what it loaded, how far it is, and the decision on the next opportunity. */
  datatype Progress =
    | Idle
    | Passing(opportunities: seq<Opportunity>, at: Instant, next: nat, decision: Option<RiskDecision>)

  datatype Platform = Platform(
    feed: FeedView, rows: Rows, simulations: Simulations, controls: Controls, store: Store, progress: Progress)

  const START: Platform := Platform(EMPTY_FEED, [], [], Controls(false, Disabled), EMPTY_STORE, Idle)

  datatype Step =
    | ReceiveBook(book: Option<BookSnapshot>)
    | RunDetector(constraints: seq<LoadedConstraint>, detectedAt: Instant)
    | RunSimulator(chosen: seq<int>, simulatedAt: Instant)
    | SetControls(controls: Controls)
    | StartPass(ids: Option<set<int>>, submittedAt: Instant)
    | GateNext
    | TradeNext

  /** The summary one simulation writes. */
  function SimulateRow(c: Config, p: Platform, o: Opportunity, at: Instant, rows: Simulations): Simulations {
    var runId := c.runHash(o.id, at);
    UpsertSummary(rows, o.id, runId, at, SummaryOf(runId, SimulationOf(c.simulation, o.details, p.feed.books, at)))
  }

  /** A simulator run over the open opportunities its query returns, in any order and number. */
  function SimulateChosen(c: Config, p: Platform, chosen: seq<int>, at: Instant): Simulations {
    if chosen == [] then p.simulations
    else
      var rows, id := SimulateChosen(c, p, chosen[..|chosen| - 1], at), chosen[|chosen| - 1];
      if 0 <= id < |p.rows| && p.rows[id].status == Open then SimulateRow(c, p, p.rows[id], at, rows) else rows
  }

  function PassDecision(c: Config, p: Platform): RiskDecision
    requires p.progress.Passing? && p.progress.next < |p.progress.opportunities|
  {
    var o := p.progress.opportunities[p.progress.next];
    EvaluateRisk(c.risk, p.controls, o, LatestSummary(p.simulations, o.id),
                 ExposureOf(Others(p.progress.opportunities, o.id), |p.store.orders|), p.progress.at)
  }

  predicate CanGate(p: Platform) {
    p.progress.Passing? && p.progress.next < |p.progress.opportunities| && p.progress.decision.None?
  }

  predicate CanTrade(p: Platform) {
    p.progress.Passing? && p.progress.next < |p.progress.opportunities| && p.progress.decision.Some?
  }

  predicate CanStart(p: Platform) {
    p.progress.Idle? || p.progress.next >= |p.progress.opportunities|
  }

  function NextAttempt(p: Platform): Attempt
    requires CanTrade(p)
  {
    Attempt(p.progress.opportunities[p.progress.next], p.progress.decision.value, None, p.progress.at)
  }

  function Trade(c: Config, p: Platform): Platform
    requires CanTrade(p)
  {
    var (result, store) := Execute(c.hashes, p.controls, p.simulations, p.store, NextAttempt(p));
    p.(store := store,
       progress := if result.Raised? then Idle else p.progress.(next := p.progress.next + 1, decision := None))
  }

  /** One step; a step of a pass that is not due changes nothing. */
  function Next(c: Config, p: Platform, step: Step): Platform {
    match step
    case ReceiveBook(book) => p.(feed := HandleEvent(p.feed, book, c.maxDepthLevels))
    case RunDetector(constraints, at) =>
      p.(rows := ApplyAll(p.rows, Evaluations(c.keyHash, c.detection, constraints, p.feed.books), at))
    case RunSimulator(chosen, at) => p.(simulations := SimulateChosen(c, p, chosen, at))
    case SetControls(controls) => p.(controls := controls)
    case StartPass(ids, at) => if CanStart(p) then p.(progress := Passing(LoadOpen(p.rows, ids), at, 0, None)) else p
    case GateNext => if CanGate(p) then p.(progress := p.progress.(decision := Some(PassDecision(c, p)))) else p
    case TradeNext => if CanTrade(p) then Trade(c, p) else p
  }

  function After(c: Config, steps: seq<Step>): Platform {
    if steps == [] then START else Next(c, After(c, steps[..|steps| - 1]), steps[|steps| - 1])
  }

  /** Constraint ids are primary keys: one detector run loads each constraint at most once. */
  ghost predicate ProperStep(step: Step) {
    step.RunDetector? ==>
      forall i, j :: 0 <= i < j < |step.constraints| ==> step.constraints[i].constraintId != step.constraints[j].constraintId
  }

  ghost predicate ProperSteps(steps: seq<Step>) {
    forall k :: 0 <= k < |steps| ==> ProperStep(steps[k])
  }

  // ---------------------------------------------------------------- what every step keeps

  ghost predicate HasLifecycles(rows: Rows) {
    forall i :: 0 <= i < |rows| ==> rows[i].details.lifecycle.Some?
  }

  ghost predicate Sound(p: Platform) {
    && AtMostOneOpen(p.rows) && PricedRows(p.rows) && HasLifecycles(p.rows)
    && ValidRows(p.simulations)
    && WellFormed(p.store)
  }

  lemma RunKeepsLifecycles(rows: Rows, evaluations: seq<Evaluation>, at: Instant)
    requires AtMostOneOpen(rows) && DistinctConstraints(evaluations) && HasLifecycles(rows)
    ensures HasLifecycles(ApplyAll(rows, evaluations, at))
  {
    RunEffect(rows, evaluations, at);
    var after := ApplyAll(rows, evaluations, at);
    hide ApplyAll;
    forall i | 0 <= i < |after| ensures after[i].details.lifecycle.Some? {
      if i < |rows| {
        RowAfterRun(rows, evaluations, at, i);
      } else {
        assert OpenedBy(after, |rows|, evaluations, at, i);
      }
    }
  }

  /** The row carries the pricing of the finding that confirms its key. */
  ghost predicate RepricedBy(evaluations: seq<Evaluation>, row: Opportunity) {
    exists m :: 0 <= m < |evaluations| && evaluations[m].constraintId == row.constraintId && Confirms(evaluations[m], row.persistenceKey)
      && row.details.pricing == evaluations[m].outcome.finding.details.pricing
      && row.details.grossPayoffs == evaluations[m].outcome.finding.details.grossPayoffs
  }

  /** What a run makes of one row: refreshed by the finding that confirms its key, closed, or left alone. */
  lemma RowAfterRun(rows: Rows, evaluations: seq<Evaluation>, at: Instant, i: nat)
    requires AtMostOneOpen(rows) && DistinctConstraints(evaluations) && i < |rows|
    requires rows[i].details.lifecycle.Some?
    ensures var row, after := rows[i], ApplyAll(rows, evaluations, at);
      && i < |after|
      && after[i].id == row.id && after[i].constraintId == row.constraintId && after[i].persistenceKey == row.persistenceKey
      && after[i].details.lifecycle.Some?
      && (row.status == Closed ==> after[i] == row)
      && (after[i].status == Open ==>
            if Detects(evaluations, row.constraintId, row.persistenceKey)
            then after[i].details.lifecycle.value.seenCount == row.details.lifecycle.value.seenCount + 1 && RepricedBy(evaluations, after[i])
            else after[i] == row)
  {
    RunEffect(rows, evaluations, at);
    RunKeepsIdentity(rows, evaluations, at, i);
    hide ApplyAll;
    if rows[i].status == Open {
      if Evaluates(evaluations, rows[i].constraintId) {
        var m :| 0 <= m < |evaluations| && evaluations[m].constraintId == rows[i].constraintId;
        AfterRunEvaluated(rows[i], evaluations, at, m);
      } else {
        AfterRunUnevaluated(rows[i], evaluations, at);
      }
    }
  }

  lemma {:induction false} SimulatorKeepsValid(c: Config, p: Platform, chosen: seq<int>, at: Instant)
    requires ValidRows(p.simulations)
    ensures ValidRows(SimulateChosen(c, p, chosen, at))
  {
    hide ValidRows, UpsertSummary, SimulationOf;
    if chosen != [] {
      var n, id := |chosen| - 1, chosen[|chosen| - 1];
      SimulatorKeepsValid(c, p, chosen[..n], at);
      if 0 <= id < |p.rows| && p.rows[id].status == Open {
        var o, runId := p.rows[id], c.runHash(p.rows[id].id, at);
        UpsertKeepsValid(SimulateChosen(c, p, chosen[..n], at), o.id, runId, at,
                         SummaryOf(runId, SimulationOf(c.simulation, o.details, p.feed.books, at)));
      }
    }
  }

  lemma NextKeepsSound(c: Config, p: Platform, step: Step)
    requires Sound(p) && ProperStep(step)
    ensures Sound(Next(c, p, step))
  {
    match step
    case ReceiveBook(_) => { hide HandleEvent, PricedRows, WellFormed; }
    case RunDetector(constraints, at) => { DetectorKeepsSound(c, p, constraints, at); }
    case RunSimulator(chosen, at) => { hide SimulateChosen, PricedRows, WellFormed, ValidRows; SimulatorKeepsValid(c, p, chosen, at); }
    case SetControls(_) => { hide PricedRows, WellFormed; }
    case StartPass(_, _) => { hide LoadOpen, PricedRows, WellFormed; }
    case GateNext => { hide PassDecision, PricedRows, WellFormed; }
    case TradeNext => {
      hide Execute, PricedRows, WellFormed, ValidRows;
      if CanTrade(p) { ExecuteEffect(c.hashes, p.controls, p.simulations, p.store, NextAttempt(p)); }
    }
  }

  lemma DetectorKeepsSound(c: Config, p: Platform, constraints: seq<LoadedConstraint>, at: Instant)
    requires Sound(p) && ProperStep(RunDetector(constraints, at))
    ensures Sound(Next(c, p, RunDetector(constraints, at)))
  {
    var evaluations := Evaluations(c.keyHash, c.detection, constraints, p.feed.books);
    ProperEvaluations(c, p, constraints, at);
    hide Evaluations, ApplyAll, PricedRows, WellFormed, ValidRows, HasLifecycles, AtMostOneOpen, DistinctConstraints;
    RunEffect(p.rows, evaluations, at);
    EvaluationsAreSound(c.keyHash, c.detection, constraints, p.feed.books);
    ApplyAllKeepsPricing(p.rows, evaluations, at);
    RunKeepsLifecycles(p.rows, evaluations, at);
  }

  lemma ProperEvaluations(c: Config, p: Platform, constraints: seq<LoadedConstraint>, at: Instant)
    requires ProperStep(RunDetector(constraints, at))
    ensures DistinctConstraints(Evaluations(c.keyHash, c.detection, constraints, p.feed.books))
  {
    hide DetectCombinatorial;
  }

  lemma {:induction false} ReachableIsSound(c: Config, steps: seq<Step>)
    requires ProperSteps(steps)
    ensures Sound(After(c, steps))
  {
    hide Sound, Next, ProperStep;
    if steps == [] {
      StartIsSound();
    } else {
      ReachableIsSound(c, steps[..|steps| - 1]);
      NextKeepsSound(c, After(c, steps[..|steps| - 1]), steps[|steps| - 1]);
    }
  }

  lemma StartIsSound()
    ensures Sound(START)
  {
  }

  // ---------------------------------------------------------------- versions of a row

  /** Step `j` is a detector run that finds row `r` again and overwrites its details. */
  ghost predicate Refreshes(c: Config, steps: seq<Step>, j: nat, r: int)
    requires j < |steps|
  {
    var p := After(c, steps[..j]);
    && steps[j].RunDetector?
    && 0 <= r < |p.rows|
    && Detects(Evaluations(c.keyHash, c.detection, steps[j].constraints, p.feed.books), p.rows[r].constraintId, p.rows[r].persistenceKey)
  }

  ghost predicate RefreshedBetween(c: Config, steps: seq<Step>, r: int, from: nat, to: nat)
    requires to <= |steps|
  {
    exists j :: from <= j < to && Refreshes(c, steps, j, r)
  }

  lemma DetectorStep(c: Config, p: Platform, step: Step, r: nat)
    requires Sound(p) && ProperStep(step) && r < |p.rows|
    ensures var after := Next(c, p, step);
      && r < |after.rows| && (p.rows[r].status == Closed ==> after.rows[r] == p.rows[r])
      && after.rows[r].details.lifecycle.Some? && p.rows[r].details.lifecycle.Some?
      && (after.rows[r].status == Open ==>
            if step.RunDetector? && Detects(Evaluations(c.keyHash, c.detection, step.constraints, p.feed.books), p.rows[r].constraintId, p.rows[r].persistenceKey)
            then
              && after.rows[r].details.lifecycle.value.seenCount == p.rows[r].details.lifecycle.value.seenCount + 1
              && RepricedBy(Evaluations(c.keyHash, c.detection, step.constraints, p.feed.books), after.rows[r])
            else after.rows[r] == p.rows[r])
  {
    hide Execute, HandleEvent, LoadOpen, PassDecision, SimulateChosen, Evaluations, ApplyAll, Detects, RepricedBy, PricedRows, WellFormed, ValidRows;
    if step.RunDetector? {
      ProperEvaluations(c, p, step.constraints, step.detectedAt);
      RowAfterRun(p.rows, Evaluations(c.keyHash, c.detection, step.constraints, p.feed.books), step.detectedAt, r);
    }
  }

  /** The sightings of a row grow by one with every refresh; a row open at the end was open all along. */
  lemma {:induction false} VersionsCount(c: Config, steps: seq<Step>, r: nat, from: nat)
    requires ProperSteps(steps) && from <= |steps|
    requires r < |After(c, steps[..from]).rows|
    ensures var a, b := After(c, steps[..from]).rows, After(c, steps).rows;
      && r < |b|
      && a[r].details.lifecycle.Some? && b[r].details.lifecycle.Some?
      && (a[r].status == Closed ==> b[r] == a[r])
      && (b[r].status == Open ==>
            if RefreshedBetween(c, steps, r, from, |steps|)
            then b[r].details.lifecycle.value.seenCount > a[r].details.lifecycle.value.seenCount
            else b[r] == a[r])
  {
    hide Sound, Next, Refreshes, ProperStep;
    ReachableIsSound(c, steps[..from]);
    if from == |steps| {
      assert steps[..from] == steps;
      SoundLifecycle(After(c, steps), r);
    } else {
      var n := |steps| - 1;
      var init := steps[..n];
      assert init[..from] == steps[..from];
      ReachableIsSound(c, init);
      VersionsCount(c, init, r, from);
      DetectorStep(c, After(c, init), steps[n], r);
      RefreshedUpTo(c, steps, r, from);
      RefreshExactly(c, steps, n, r);
    }
  }

  lemma SoundLifecycle(p: Platform, r: nat)
    requires Sound(p) && r < |p.rows|
    ensures p.rows[r].details.lifecycle.Some?
  {
  }

  /** A refreshed row carries the pricing found by its last refresh, on the books of that run. */
  lemma {:induction false} LastRefreshPrices(c: Config, steps: seq<Step>, r: nat, from: nat) returns (j: nat)
    requires ProperSteps(steps) && from <= |steps| && r < |After(c, steps[..from]).rows|
    requires r < |After(c, steps).rows| && After(c, steps).rows[r].status == Open
    requires RefreshedBetween(c, steps, r, from, |steps|)
    ensures from <= j < |steps| && Refreshes(c, steps, j, r) && !RefreshedBetween(c, steps, r, j + 1, |steps|)
    ensures RepricedBy(Evaluations(c.keyHash, c.detection, steps[j].constraints, After(c, steps[..j]).feed.books), After(c, steps).rows[r])
  {
    hide Sound, Next, Refreshes, ProperStep, RepricedBy, Evaluations, Detects;
    var n := |steps| - 1;
    var init := steps[..n];
    assert init[..from] == steps[..from];
    ReachableIsSound(c, init);
    VersionsCount(c, init, r, from);
    DetectorStep(c, After(c, init), steps[n], r);
    RefreshExactly(c, steps, n, r);
    if Refreshes(c, steps, n, r) {
      j := n;
      NothingAfterwards(c, steps, r);
    } else {
      var k :| from <= k < |steps| && Refreshes(c, steps, k, r);
      SameRefresh(c, steps, n, k, r);
      assert Refreshes(c, init, k, r);
      UnrefreshedSince(c, steps, r);
      j := LastRefreshPrices(c, init, r, from);
      SameRefresh(c, steps, n, j, r);
      assert init[..j] == steps[..j] && init[j] == steps[j];
    }
  }

  lemma NothingAfterwards(c: Config, steps: seq<Step>, r: int)
    ensures !RefreshedBetween(c, steps, r, |steps|, |steps|)
  {
  }

  /** A last step that does not refresh the row extends every stretch without a refresh. */
  lemma UnrefreshedSince(c: Config, steps: seq<Step>, r: nat)
    requires steps != [] && !Refreshes(c, steps, |steps| - 1, r)
    ensures var n := |steps| - 1;
      forall j: nat :: !RefreshedBetween(c, steps[..n], r, j, n) ==> !RefreshedBetween(c, steps, r, j, |steps|)
  {
    hide *;
    var n := |steps| - 1;
    forall j: nat | RefreshedBetween(c, steps, r, j, |steps|) ensures RefreshedBetween(c, steps[..n], r, j, n) {
      var k := SomeRefresh(c, steps, r, j, |steps|);
      SameRefresh(c, steps, n, k, r);
      IsRefreshed(c, steps[..n], r, j, n, k);
    }
  }

  lemma {:induction false} RefreshExactly(c: Config, steps: seq<Step>, j: nat, r: nat)
    requires j < |steps| && r < |After(c, steps[..j]).rows|
    ensures var p := After(c, steps[..j]);
      Refreshes(c, steps, j, r) <==>
        (steps[j].RunDetector?
         && Detects(Evaluations(c.keyHash, c.detection, steps[j].constraints, p.feed.books), p.rows[r].constraintId, p.rows[r].persistenceKey))
  {
    hide After, Evaluations, Detects;
  }

  lemma {:induction false} RefreshedUpTo(c: Config, steps: seq<Step>, r: nat, from: nat)
    requires from < |steps|
    ensures var n := |steps| - 1;
      RefreshedBetween(c, steps, r, from, |steps|) <==> RefreshedBetween(c, steps[..n], r, from, n) || Refreshes(c, steps, n, r)
  {
    var n := |steps| - 1;
    hide After, Evaluations, Detects;
    forall j: nat | j < n ensures Refreshes(c, steps, j, r) <==> Refreshes(c, steps[..n], j, r) {
      SameRefresh(c, steps, n, j, r);
    }
    if RefreshedBetween(c, steps[..n], r, from, n) {
      var j :| from <= j < n && Refreshes(c, steps[..n], j, r);
      assert Refreshes(c, steps, j, r);
    }
    if RefreshedBetween(c, steps, r, from, |steps|) {
      var j :| from <= j < |steps| && Refreshes(c, steps, j, r);
    }
  }

  lemma SomeRefresh(c: Config, steps: seq<Step>, r: int, from: nat, to: nat) returns (j: nat)
    requires to <= |steps| && RefreshedBetween(c, steps, r, from, to)
    ensures from <= j < to && Refreshes(c, steps, j, r)
  {
    hide Refreshes;
    j :| from <= j < to && Refreshes(c, steps, j, r);
  }

  lemma IsRefreshed(c: Config, steps: seq<Step>, r: int, from: nat, to: nat, j: nat)
    requires from <= j < to <= |steps| && Refreshes(c, steps, j, r)
    ensures RefreshedBetween(c, steps, r, from, to)
  {
    hide Refreshes;
  }

  lemma {:induction false} SameRefresh(c: Config, steps: seq<Step>, n: nat, j: nat, r: int)
    requires j < n <= |steps|
    ensures Refreshes(c, steps, j, r) <==> Refreshes(c, steps[..n], j, r)
  {
    hide After, Evaluations, Detects;
    assert steps[..n][..j] == steps[..j] && steps[..n][j] == steps[j];
  }

  // ---------------------------------------------------------------- an undisturbed pass

  /** Gate and trade the next `n` opportunities with nothing in between. */
  function Cycles(c: Config, p: Platform, n: nat): Platform {
    if n == 0 then p else Next(c, Next(c, Cycles(c, p, n - 1), GateNext), TradeNext)
  }

  /** The world a pass sees when no other step comes in between. */
  function Undisturbed(p: Platform): World {
    (_: nat) => Moment(p.controls, p.simulations, p.controls, p.simulations)
  }

  lemma SameDecision(c: Config, p: Platform, openOrders: int)
    requires p.progress.Passing? && p.progress.next < |p.progress.opportunities|
    ensures var o := p.progress.opportunities[p.progress.next];
      PassDecision(c, p) == Decide(c.risk, p.progress.opportunities, o, openOrders, Undisturbed(p)(p.progress.next), p.progress.at)
  {
    hide LatestSummary, ExposureOf, Others;
    var o := p.progress.opportunities[p.progress.next];
    CountIsIrrelevant(Others(p.progress.opportunities, o.id), |p.store.orders|, openOrders);
  }

  lemma OneCycle(c: Config, p: Platform, s: PassState)
    requires CanGate(p) && s.store == p.store && !s.raised
    ensures var q := p.progress;
      var t := TryOne(c.risk, c.hashes, q.opportunities, s, q.opportunities[q.next], Undisturbed(p)(q.next), q.at);
      Next(c, Next(c, p, GateNext), TradeNext)
      == p.(store := t.store, progress := if t.raised then Idle else q.(next := q.next + 1))
  {
    hide Execute, PassDecision, Decide;
    SameDecision(c, p, s.openOrders);
    var gated := Next(c, p, GateNext);
    var a := NextAttempt(gated);
    if Execute(c.hashes, p.controls, p.simulations, p.store, a).0.Raised? {
      RaisedLeavesStore(c.hashes, p.controls, p.simulations, p.store, a);
    }
  }

  /** A pass of the platform with nothing in between is the pass of the runtime. */
  lemma {:induction false} UndisturbedPassIsPass(c: Config, p: Platform, ids: Option<set<int>>, at: Instant, n: nat)
    requires CanStart(p) && n <= |LoadOpen(p.rows, ids)|
    ensures var opportunities := LoadOpen(p.rows, ids);
      var s := Pass(c.risk, c.hashes, opportunities, Undisturbed(p), at, p.store, n);
      Cycles(c, Next(c, p, StartPass(ids, at)), n)
      == p.(store := s.store, progress := if s.raised then Idle else Passing(opportunities, at, n, None))
  {
    hide TryOne, Trade, PassDecision, LoadOpen;
    if n > 0 {
      UndisturbedPassIsPass(c, p, ids, at, n - 1);
      var opportunities := LoadOpen(p.rows, ids);
      var s := Pass(c.risk, c.hashes, opportunities, Undisturbed(p), at, p.store, n - 1);
      if !s.raised {
        var q := Cycles(c, Next(c, p, StartPass(ids, at)), n - 1);
        assert Undisturbed(q)(n - 1) == Undisturbed(p)(n - 1);
        OneCycle(c, q, s);
      }
    }
  }
}
