/** A run of the platform that ends with stored orders: what is proved of every order is proved of
    something. */
module FirstOrder {
  import opened Common
  import opened Sorting
  import opened ExecutablePricing
  import opened BasketPricing
  import opened BookStore
  import opened Templates
  import opened Opportunities
  import opened Detection
  import opened SizeChoice
  import opened OpportunityStore
  import opened DetectorServices
  import opened FillModel
  import opened Simulation
  import opened SimulationStore
  import opened Exposure
  import opened RiskPolicy
  import opened OrderBuilder
  import opened OrderGuarantees
  import opened OrderStore
  import opened Trading
  import opened TraderRuntime
  import opened RepeatedPasses
  import opened StaleCertificates
  import opened Platform
  import opened PlatformSteps

  function OneKey(): KeyHash {
    (_: KeyInput) => "key"
  }

  function OneRun(): (int, Instant) -> string {
    (_: int, _: Instant) => "run"
  }

  function Deployment(): Config {
    Config(OneKey(), DETECTION, STRESS, RISK, Hashes(LegAndTime(), ClientIdOnly()), OneRun(), 10)
  }

  const BOOK_ONE: BookSnapshot := BookSnapshot(1, 0, [], [BookLevel(0.25, 2.0)])
  const BOOK_TWO: BookSnapshot := BookSnapshot(2, 0, [], [BookLevel(0.5, 2.0)])

  /** Two books, a detector run, a simulator run, trading switched to paper, and a pass of one opportunity. */
  function Steps(): seq<Step> {
    [ ReceiveBook(Some(BOOK_ONE)), ReceiveBook(Some(BOOK_TWO)), RunDetector([LoadedConstraint(1, None, CONTEXT, 1.0)], 0),
      RunSimulator([0], 0), SetControls(Controls(false, Paper)), StartPass(None, 0), GateNext, TradeNext ]
  }

  function At(k: nat): Platform
    requires k <= |Steps()|
  {
    After(Deployment(), Steps()[..k])
  }

  lemma StartIsEmpty()
    ensures START.rows == [] && START.simulations == [] && START.progress == Idle && START.store == EMPTY_STORE
  {
  }

  lemma {:induction false} OneStep(k: nat, step: Step)
    requires k < |Steps()| && Steps()[k] == step
    ensures At(k + 1) == Next(Deployment(), At(k), step)
  {
    hide Next, Steps, Deployment;
    assert Steps()[..k + 1][..k] == Steps()[..k] && Steps()[..k + 1][k] == Steps()[k];
  }

  lemma {:induction false} Proper()
    ensures ProperSteps(Steps()) && forall k :: 0 <= k <= |Steps()| ==> ProperSteps(Steps()[..k])
  {
  }

  lemma {:induction false} AllSteps()
    ensures |Steps()| == 8
    ensures Steps()[2] == RunDetector([LoadedConstraint(1, None, CONTEXT, 1.0)], 0) && Steps()[3] == RunSimulator([0], 0)
    ensures Steps()[4] == SetControls(Controls(false, Paper)) && Steps()[5] == StartPass(None, 0)
    ensures Steps()[6] == GateNext && Steps()[7] == TradeNext
  {
  }

  lemma {:induction false} LastState()
    requires |Steps()| == 8
    ensures At(8) == After(Deployment(), Steps())
  {
    hide Steps, After, Deployment;
    assert Steps()[..8] == Steps();
  }

  lemma {:induction false} ReachedSound(k: nat)
    requires k <= |Steps()|
    ensures Sound(At(k))
  {
    Proper();
    hide Sound, After, Steps, ProperSteps, Deployment;
    ReachableIsSound(Deployment(), Steps()[..k]);
  }

  // ---------------------------------------------------------------- books and detection

  /** The row the detector opens. */
  function Row(): Opportunity
    requires OutcomeAt(OneKey(), 0.25).Found?
  {
    OpenRow(Evaluation(1, None, OutcomeAt(OneKey(), 0.25)), OutcomeAt(OneKey(), 0.25).finding, None, 0, 0)
  }

  lemma {:induction false} BooksArrive()
    ensures At(2) == START.(feed := At(2).feed) && At(2).feed.books == TwoTokenMarket(0.25)
  {
    assert Steps()[..0] == [];
    OneStep(0, ReceiveBook(Some(BOOK_ONE)));
    OneStep(1, ReceiveBook(Some(BOOK_TWO)));
    hide TopOf, ReplaceDepth, DepthRows;
    assert At(1).feed.books == map[1 := BOOK_ONE];
    assert At(2).feed.books == map[1 := BOOK_ONE, 2 := BOOK_TWO];
  }

  lemma {:induction false} OneEvaluation(books: Books)
    requires books == TwoTokenMarket(0.25)
    ensures Evaluations(OneKey(), DETECTION, [LoadedConstraint(1, None, CONTEXT, 1.0)], books) == [Evaluation(1, None, OutcomeAt(OneKey(), 0.25))]
  {
    hide DetectCombinatorial;
  }

  lemma {:induction false} FirstRow(e: Evaluation)
    requires e.outcome.Found?
    ensures ApplyAll([], [e], 0) == [OpenRow(e, e.outcome.finding, None, 0, 0)]
  {
    assert [e][..0] == [];
    NoRowsAtAll();
    ApplyEffect([], e, 0);
    hide Apply, OpenRow;
    assert ApplyAll([], [], 0) == [];
    assert ApplyAll([], [e], 0) == Apply([], e, 0);
  }

  lemma NoRowsAtAll()
    ensures AtMostOneOpen([])
  {
  }

  lemma {:induction false} DetectorStepOpens(p: Platform)
    requires p.rows == [] && p.feed.books == TwoTokenMarket(0.25) && OutcomeAt(OneKey(), 0.25).Found?
    ensures Next(Deployment(), p, RunDetector([LoadedConstraint(1, None, CONTEXT, 1.0)], 0)) == p.(rows := [Row()])
  {
    hide OutcomeAt, ApplyAll, Evaluations, OpenRow;
    OneEvaluation(p.feed.books);
    FirstRow(Evaluation(1, None, OutcomeAt(OneKey(), 0.25)));
  }

  lemma {:induction false} RowOpens()
    ensures OutcomeAt(OneKey(), 0.25).Found?
    ensures At(3) == START.(feed := At(3).feed, rows := [Row()]) && At(3).feed.books == TwoTokenMarket(0.25)
  {
    hide *;
    FoundAt(OneKey(), 0.25);
    StartIsEmpty();
    BooksArrive();
    AllSteps();
    OneStep(2, RunDetector([LoadedConstraint(1, None, CONTEXT, 1.0)], 0));
    DetectorStepOpens(At(2));
  }

  lemma {:induction false} RowFacts()
    requires OutcomeAt(OneKey(), 0.25).Found?
    ensures var o := Row();
      && o.id == 0 && o.status == Open && o.lastSeenAt == 0
      && DetectorPricing(o.details) && LegsOf(o.details) == LegsOf(OutcomeAt(OneKey(), 0.25).finding.details)
      && BasketSize(o.details) == 2.0 && UnresolvedNotional(o) == 1.5
      && EdgeBps(o) >= 0.0 && OrZero(o.details.confidence) == 1.0 && LegCount(o) == 2
      && exists lifecycle :: o.details == OutcomeAt(OneKey(), 0.25).finding.details.(lifecycle := lifecycle)
  {
    FoundBaskets(OneKey(), 0.25);
    FindingKeepsDetails(OneKey(), 0.25);
    hide OutcomeAt, PriceTotal, TotalNotional, DetectorLeg;
    var f := OutcomeAt(OneKey(), 0.25).finding;
    PositiveRatio(f.expectedValueUsd, f.maxExecutableNotional);
    assert Row().details == f.details.(lifecycle := Row().details.lifecycle);
  }

  // ---------------------------------------------------------------- simulation

  lemma {:induction false} RowIsRobust()
    requires OutcomeAt(OneKey(), 0.25).Found?
    ensures var r := SimulationOf(STRESS, Row().details, TwoTokenMarket(0.25), 0);
      r.classification == Robust && TimingMismatch !in r.flags && StaleQuote !in r.flags
  {
    RowFacts();
    hide OutcomeAt, Row, SimulationOf, DetectorPricing, TwoTokenMarket;
    var lifecycle :| Row().details == OutcomeAt(OneKey(), 0.25).finding.details.(lifecycle := lifecycle);
    StressOfVersion(OneKey(), 0.25, lifecycle);
    RobustRaisesNoFlags(Row().details, TwoTokenMarket(0.25));
  }

  /** What the gate and the trader need of the stored summaries. */
  ghost predicate Backed(rows: Simulations) {
    && ValidRows(rows)
    && var latest := LatestSummary(rows, 0);
    && latest.Some? && latest.value.runId == "run" && Robustly(latest) && latest.value.payload.value.runId == Some("run")
    && forall x :: x in rows ==> x.opportunityId == 0
  }

  lemma DeploymentFields()
    ensures Deployment().simulation == STRESS && Deployment().risk == RISK && Deployment().hashes == Hashes(LegAndTime(), ClientIdOnly())
    ensures forall r, at :: Deployment().runHash(r, at) == "run"
  {
  }

  lemma {:induction false} FirstIsChosen(p: Platform)
    requires OutcomeAt(OneKey(), 0.25).Found? && p.rows == [Row()]
    ensures IsChosen(p, [0], 0)
  {
    hide OutcomeAt, Row;
    RowIsOpen();
  }

  /** The summary of a robust simulation is what the gate asks for. */
  lemma {:induction false} RobustSummary(c: Config, p: Platform, x: SimulatedExecution)
    requires |p.rows| > 0 && SummarizedNow(c, p, x, 0, 0)
    requires var r := SimulationOf(c.simulation, p.rows[0].details, p.feed.books, 0);
      r.classification == Robust && TimingMismatch !in r.flags && StaleQuote !in r.flags
    ensures x.runId == c.runHash(0, 0) && Robustly(Some(x)) && x.payload.value.runId == Some(x.runId)
  {
    hide SimulationOf;
  }

  lemma {:induction false} OnlyFirstWritten(c: Config, p: Platform)
    requires Sound(p) && p.simulations == []
    ensures forall x :: x in Next(c, p, RunSimulator([0], 0)).simulations ==> x.opportunityId == 0
  {
    hide Sound, Next;
    SimulatorWritesSummaries(c, p, [0], 0);
    assert forall r :: r != 0 ==> !IsChosen(p, [0], r);
  }

  lemma {:induction false} SimulatorStepBacks(p: Platform)
    requires Sound(p) && OutcomeAt(OneKey(), 0.25).Found? && p.rows == [Row()] && p.feed.books == TwoTokenMarket(0.25) && p.simulations == []
    ensures var after := Next(Deployment(), p, RunSimulator([0], 0)); after == p.(simulations := after.simulations) && Backed(after.simulations)
  {
    hide *;
    FirstIsChosen(p);
    WrittenSummaryIsLatest(Deployment(), p, [0], 0, 0);
    SimulatorWritesSummaries(Deployment(), p, [0], 0);
    RowIsRobust();
    DeploymentFields();
    OnlyFirstWritten(Deployment(), p);
    var after := Next(Deployment(), p, RunSimulator([0], 0));
    RobustSummary(Deployment(), p, LatestSummary(after.simulations, 0).value);
    SimulatedKeepsSound(p);
    SoundSummaries(after);
    MakesBacked(after.simulations);
  }

  lemma {:induction false} SimulatedKeepsSound(p: Platform)
    requires Sound(p)
    ensures Sound(Next(Deployment(), p, RunSimulator([0], 0)))
  {
    hide Sound, Next, Deployment;
    NextKeepsSound(Deployment(), p, RunSimulator([0], 0));
  }

  lemma {:induction false} MakesBacked(rows: Simulations)
    requires ValidRows(rows) && LatestSummary(rows, 0).Some?
    requires var x := LatestSummary(rows, 0).value; x.runId == "run" && Robustly(Some(x)) && x.payload.value.runId == Some("run")
    requires forall x :: x in rows ==> x.opportunityId == 0
    ensures Backed(rows)
  {
    hide ValidRows, LatestSummary, Robustly;
  }

  lemma SoundSummaries(p: Platform)
    requires Sound(p)
    ensures ValidRows(p.simulations)
  {
  }

  lemma {:induction false} SummaryWritten()
    requires OutcomeAt(OneKey(), 0.25).Found?
    ensures At(4) == START.(feed := At(4).feed, rows := [Row()], simulations := At(4).simulations) && Backed(At(4).simulations)
  {
    hide *;
    RowOpens();
    StartIsEmpty();
    AllSteps();
    OneStep(3, RunSimulator([0], 0));
    ReachedSound(3);
    SimulatorStepBacks(At(3));
  }

  // ---------------------------------------------------------------- the pass

  lemma {:induction false} SingleLoaded(o: Opportunity)
    requires o.status == Open
    ensures LoadOpen([o], None) == [o]
  {
    assert [o][1..] == [];
    assert Filter(IsOpenAmong(None), []) == [] && Filter(IsOpenAmong(None), [o]) == [o] + [];
    assert Sort(DetectedBefore, []) == [] && Sort(DetectedBefore, [o]) == Insert(DetectedBefore, o, []);
  }

  lemma {:induction false} StartStep(p: Platform, o: Opportunity)
    requires p.rows == [o] && o.status == Open && p.progress == Idle
    ensures var q := Next(Deployment(), p, SetControls(Controls(false, Paper)));
      Next(Deployment(), q, StartPass(None, 0)) == p.(controls := Controls(false, Paper), progress := Passing([o], 0, 0, None))
  {
    hide LoadOpen, Deployment;
    SingleLoaded(o);
  }

  lemma {:induction false} PassStarted()
    requires OutcomeAt(OneKey(), 0.25).Found?
    ensures At(6) == START.(feed := At(6).feed, rows := [Row()], simulations := At(6).simulations, controls := Controls(false, Paper),
                            progress := Passing([Row()], 0, 0, None))
    ensures Backed(At(6).simulations)
  {
    hide *;
    SummaryWritten();
    StartIsEmpty();
    AllSteps();
    OneStep(4, SetControls(Controls(false, Paper)));
    OneStep(5, StartPass(None, 0));
    RowIsOpen();
    StartStep(At(4), Row());
  }

  lemma {:induction false} GateOpens(o: Opportunity, simulation: Option<SimulatedExecution>, current: ExposureState)
    requires Robustly(simulation) && simulation.value.payload.value.runId == Some("run") && current.unresolved == 0.0
    requires o.lastSeenAt == 0 && EdgeBps(o) >= 0.0 && OrZero(o.details.confidence) == 1.0 && LegCount(o) == 2 && UnresolvedNotional(o) == 1.5
    ensures EvaluateRisk(RISK, Controls(false, Paper), o, simulation, current, 0) == RiskDecision(true, Approved, Some(1.5), Some("run"))
  {
    hide EdgeBps, LegCount, UnresolvedNotional;
  }

  lemma {:induction false} NothingElseOpen(o: Opportunity, count: int)
    ensures ExposureOf(Others([o], o.id), count).unresolved == 0.0
  {
    OthersSplit([o], 0);
    assert Others([o], o.id) == [];
  }

  lemma {:induction false} GateStepOpens(p: Platform)
    requires OutcomeAt(OneKey(), 0.25).Found? && Backed(p.simulations)
    requires p.controls == Controls(false, Paper) && p.progress == Passing([Row()], 0, 0, None)
    ensures PassDecision(Deployment(), p) == RiskDecision(true, Approved, Some(1.5), Some("run"))
  {
    RowFacts();
    hide OutcomeAt, Row, DetectorPricing, LatestSummary, EvaluateRisk, ExposureOf, Others, EdgeBps, LegCount, UnresolvedNotional, Robustly, ValidRows;
    var current := ExposureOf(Others([Row()], Row().id), |p.store.orders|);
    NothingElseOpen(Row(), |p.store.orders|);
    GateOpens(Row(), LatestSummary(p.simulations, 0), current);
  }

  lemma {:induction false} GateStep(p: Platform, o: Opportunity)
    requires p.progress == Passing([o], 0, 0, None)
    ensures Next(Deployment(), p, GateNext) == p.(progress := Passing([o], 0, 0, Some(PassDecision(Deployment(), p))))
  {
    hide PassDecision, Deployment;
  }

  lemma {:induction false} Gated()
    requires OutcomeAt(OneKey(), 0.25).Found?
    ensures At(7) == At(6).(progress := Passing([Row()], 0, 0, Some(RiskDecision(true, Approved, Some(1.5), Some("run")))))
  {
    hide *;
    PassStarted();
    AllSteps();
    OneStep(6, GateNext);
    GateStepOpens(At(6));
    GateStep(At(6), Row());
  }

  lemma {:induction false} AveragesOfRow()
    requires OutcomeAt(OneKey(), 0.25).Found?
    ensures var legs := LegsOf(OutcomeAt(OneKey(), 0.25).finding.details);
      |legs| == 2 && legs[0].averagePrice == Some(0.25) && legs[1].averagePrice == Some(0.5)
  {
    var books, legs := TwoTokenMarket(0.25), BasketLegs(MEMBERS);
    MarketSizes(0.25);
    FindingStores(OneKey(), DETECTION, CONTEXT, books, 1.0);
    OneLevelBook(BookLevel(0.25, 2.0));
    OneLevelBook(BookLevel(0.5, 2.0));
    FillsByToken(books, legs, 2.0);
    TimesOne(2.0);
    hide DetectCombinatorial, MaxBasketQuantity, WeightedFill, Fills, Times, GrossNotional;
    assert legs[0].tokenId == 1 && legs[1].tokenId == 2;
    assert LegFill(books, legs[0], 2.0) == WeightedFill([BookLevel(0.25, 2.0)], 2.0, Buy);
    assert LegFill(books, legs[1], 2.0) == WeightedFill([BookLevel(0.5, 2.0)], 2.0, Buy);
  }

  /** A summary that passes the gate. */
  function GoodSummary(): SimulatedExecution {
    SimulatedExecution(0, 0, "run", true, 0, Some(SummaryPayload(Some("run"), Some(Robust), Some({}), true)))
  }

  lemma {:induction false} GoodSummaryPasses()
    ensures Robustly(Some(GoodSummary())) && GoodSummary().payload.value.runId == Some("run") && NOTHING_OPEN.unresolved == 0.0
  {
  }

  lemma {:induction false} RowIsApproved()
    requires OutcomeAt(OneKey(), 0.25).Found?
    ensures EvaluateRisk(RISK, Controls(false, Paper), Row(), Some(GoodSummary()), NOTHING_OPEN, 0) == RiskDecision(true, Approved, Some(1.5), Some("run"))
  {
    hide *;
    RowFacts();
    GoodSummaryPasses();
    GateOpens(Row(), Some(GoodSummary()), NOTHING_OPEN);
  }

  lemma {:induction false} PricesOnQuanta()
    ensures RoundDown(2.0) == 2.0 && RoundDown(0.25) == 0.25 && RoundDown(0.5) == 0.5
  {
    hide RoundDown;
    OnWholeQuanta(2.0, 200_000_000);
    OnWholeQuanta(0.25, 25_000_000);
    OnWholeQuanta(0.5, 50_000_000);
  }

  lemma {:induction false} TwoMeaningful(legs: seq<PricingLeg>)
    requires |legs| == 2 && legs[0].averagePrice == Some(0.25) && legs[1].averagePrice == Some(0.5)
    ensures MeaningfulLegs(legs, 2.0)
  {
    PricesOnQuanta();
    hide RoundDown;
  }

  lemma {:induction false} RowCanBuild()
    requires OutcomeAt(OneKey(), 0.25).Found?
    ensures DetectorPricing(Row().details) && |LegsOf(Row().details)| == 2
    ensures RoundDown(BasketSize(Row().details)) > 0.0 && MeaningfulLegs(LegsOf(Row().details), BasketSize(Row().details))
  {
    hide *;
    RowFacts();
    RowKeepsLegs();
    AveragesOfRow();
    PricesOnQuanta();
    TwoMeaningful(LegsOf(Row().details));
  }

  lemma {:induction false} RowKeepsLegs()
    requires OutcomeAt(OneKey(), 0.25).Found?
    ensures LegsOf(Row().details) == LegsOf(OutcomeAt(OneKey(), 0.25).finding.details)
  {
    hide OutcomeAt;
  }

  lemma {:induction false} FirstTwoIds(o: Opportunity, decision: RiskDecision)
    requires BuildOrders(LegAndTime(), o, decision, Paper, 0).Ok? && |LegsOf(o.details)| == 2
    ensures var requests := BuildOrders(LegAndTime(), o, decision, Paper, 0).value.requests;
      |requests| == 2 && requests[0].clientOrderId == "a" && requests[1].clientOrderId == "b"
  {
    hide BuildOrders, RoundDown;
    BuiltOrders(LegAndTime(), o, decision, Paper, 0);
  }

  lemma {:induction false} RowBuilds()
    requires OutcomeAt(OneKey(), 0.25).Found?
    ensures var decision := RiskDecision(true, Approved, Some(1.5), Some("run"));
      var built := BuildOrders(LegAndTime(), Row(), decision, Paper, 0);
      && built.Ok? && |built.value.requests| == 2
      && built.value.requests[0].clientOrderId == "a" && built.value.requests[1].clientOrderId == "b"
  {
    hide *;
    RowCanBuild();
    RowIsApproved();
    PolicyApprovalsBuildExactly(RISK, Controls(false, Paper), Some(GoodSummary()), NOTHING_OPEN, LegAndTime(), Row(), Paper, 0);
    FirstTwoIds(Row(), RiskDecision(true, Approved, Some(1.5), Some("run")));
  }

  lemma {:induction false} FreshPair(requests: seq<OrderRequest>)
    requires |requests| == 2 && requests[0].clientOrderId == "a" && requests[1].clientOrderId == "b"
    ensures FreshPlan(EMPTY_STORE, PlanOf(ClientIdOnly(), requests))
  {
    assert "a"[0] != "b"[0];
    var plan := PlanOf(ClientIdOnly(), requests);
    assert plan[0].fillId == "a" && plan[1].fillId == "b";
  }

  lemma {:induction false} TradeStep(c: Config, p: Platform, o: Opportunity, decision: RiskDecision)
    requires p.progress == Passing([o], 0, 0, Some(decision))
    ensures Next(c, p, TradeNext).store == Execute(c.hashes, p.controls, p.simulations, p.store, Attempt(o, decision, None, 0)).1
  {
    hide Execute;
  }

  lemma {:induction false} BatchIsWritten(batch: Batch, requests: seq<OrderRequest>)
    requires |requests| == 2 && requests[0].clientOrderId == "a" && requests[1].clientOrderId == "b"
    ensures PersistAll(ClientIdOnly(), EMPTY_STORE, batch, requests).Some?
  {
    EmptyIsWellFormed();
    hide PersistAll, FreshPlan, PlanOf, WellFormed, EMPTY_STORE;
    FreshPair(requests);
    BatchPersistsExactly(ClientIdOnly(), EMPTY_STORE, batch, requests);
  }

  /** An approved attempt on a backed row is executed. */
  lemma {:induction false} AttemptExecutes(hashes: Hashes, rows: Simulations, store: Store, o: Opportunity)
    requires Backed(rows) && o.id == 0
    requires var a := Attempt(o, RiskDecision(true, Approved, Some(1.5), Some("run")), None, 0);
      var built := BuildOrders(hashes.order, o, a.decision, Paper, 0);
      built.Ok? && PersistAll(hashes.fill, store, a.BatchOf(), built.value.requests).Some?
    ensures Execute(hashes, Controls(false, Paper), rows, store, Attempt(o, RiskDecision(true, Approved, Some(1.5), Some("run")), None, 0)).0.Executed?
  {
    hide BuildOrders, PersistAll, Execute, LatestSummary, ValidRows, Robustly;
    ExecutesExactly(hashes, Controls(false, Paper), rows, store, Attempt(o, RiskDecision(true, Approved, Some(1.5), Some("run")), None, 0));
  }

  lemma {:induction false} TradeStepStores(p: Platform)
    requires OutcomeAt(OneKey(), 0.25).Found? && Backed(p.simulations) && p.store == EMPTY_STORE
    requires p.controls == Controls(false, Paper)
    requires p.progress == Passing([Row()], 0, 0, Some(RiskDecision(true, Approved, Some(1.5), Some("run"))))
    ensures |Next(Deployment(), p, TradeNext).store.orders| == 2
  {
    hide *;
    var decision := RiskDecision(true, Approved, Some(1.5), Some("run"));
    var a := Attempt(Row(), decision, None, 0);
    DeploymentFields();
    RowBuilds();
    RowIdIsZero();
    BatchIsWritten(a.BatchOf(), BuildOrders(LegAndTime(), Row(), decision, Paper, 0).value.requests);
    AttemptExecutes(Deployment().hashes, p.simulations, EMPTY_STORE, Row());
    TradeStep(Deployment(), p, Row(), decision);
    EmptyIsWellFormed();
    NoOrdersYet();
    BackedIsValid(p.simulations);
    ExecutedWritesAll(Deployment().hashes, p.controls, p.simulations, EMPTY_STORE, a);
  }

  lemma {:induction false} ExecutedWritesAll(hashes: Hashes, controls: Controls, rows: Simulations, store: Store, a: Attempt)
    requires ValidRows(rows) && WellFormed(store) && Execute(hashes, controls, rows, store, a).0.Executed?
    ensures var built := BuildOrders(hashes.order, a.o, a.decision, Paper, a.at);
      built.Ok? && |Execute(hashes, controls, rows, store, a).1.orders| == |store.orders| + |built.value.requests|
  {
    hide BuildOrders, Execute, ValidRows, WellFormed;
    ExecuteEffect(hashes, controls, rows, store, a);
  }

  lemma {:induction false} BackedIsValid(rows: Simulations)
    requires Backed(rows)
    ensures ValidRows(rows)
  {
    hide ValidRows, LatestSummary;
  }

  lemma NoOrdersYet()
    ensures EMPTY_STORE.orders == []
  {
  }

  lemma {:induction false} RowIsOpen()
    requires OutcomeAt(OneKey(), 0.25).Found?
    ensures Row().status == Open
  {
    hide OutcomeAt;
  }

  lemma {:induction false} RowIdIsZero()
    requires OutcomeAt(OneKey(), 0.25).Found?
    ensures Row().id == 0
  {
    hide OutcomeAt;
  }

  lemma EmptyIsWellFormed()
    ensures WellFormed(EMPTY_STORE)
  {
  }

  /** The run stores two orders; so there are orders to certify. */
  lemma {:induction false} OrdersAreStored()
    ensures ProperSteps(Steps()) && |After(Deployment(), Steps()).store.orders| == 2
  {
    hide *;
    FoundAt(OneKey(), 0.25);
    Proper();
    PassStarted();
    StartIsEmpty();
    Gated();
    AllSteps();
    OneStep(7, TradeNext);
    TradeStepStores(At(7));
    LastState();
  }
}
