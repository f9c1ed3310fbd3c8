/** One trade attempt: gates, simulation link, order building, routing and commit
    (src/constraint_scanner/trading/trader_service.py, order_router.py, mode_state.py,
    risk/kill_switch.py). */
module Trading {
  import opened Common
  import opened Checks
  import opened Opportunities
  import opened SimulationStore
  import opened RiskPolicy
  import opened OrderBuilder
  import opened OrderStore

  datatype Refusal =
    | KillSwitchOn | RiskNotApproved | TradingModeMismatch | SimulationLinkMissing | ApprovedNotionalMissing
    | ApprovedNotionalNonPositive | ModeDisabled | LinkNotFound | LinkOpportunityMismatch | LinkNotSummary
    | LinkLatestMissing | LinkStale | ValidationError | ModeNotImplemented

  /** `Raised` stands for an exception the service does not handle: an id conflict in the store. */
  datatype TradeResult = Executed(orderCount: nat) | Refused(reason: Refusal) | Raised

  datatype Attempt = Attempt(o: Opportunity, decision: RiskDecision, requested: Option<TradingMode>, at: Instant)
  {
    function BatchOf(): Batch {
      Batch(o.id, decision, if decision.simulationRunId.Some? then decision.simulationRunId.value else "", at)
    }
  }

  datatype Hashes = Hashes(order: OrderHash, fill: FillHash)

  /** The checks made before the store is read; none when they all pass. */
  function Gate(controls: Controls, decision: RiskDecision, requested: Option<TradingMode>): Option<Refusal> {
    if controls.killSwitchActive then Some(KillSwitchOn)
    else if !decision.IsApproval() then Some(RiskNotApproved)
    else if requested.Some? && requested.value != controls.mode then Some(TradingModeMismatch)
    else if decision.simulationRunId.None? || decision.simulationRunId.value == "" then Some(SimulationLinkMissing)
    else if decision.maxSizeUsd.None? then Some(ApprovedNotionalMissing)
    else if decision.maxSizeUsd.value <= 0.0 then Some(ApprovedNotionalNonPositive)
    else if controls.mode == Disabled then Some(ModeDisabled)
    else None
  }

  function CheckLink(rows: Simulations, opportunityId: int, runId: string): Option<Refusal> {
    var row := AnyByRunId(rows, runId);
    if row.None? then Some(LinkNotFound)
    else if row.value.opportunityId != opportunityId then Some(LinkOpportunityMismatch)
    else if !row.value.summary then Some(LinkNotSummary)
    else
      var latest := LatestSummary(rows, opportunityId);
      if latest.None? then Some(LinkLatestMissing)
      else if latest.value.id != row.value.id then Some(LinkStale)
      else None
  }

  datatype RouteOutcome = Routed(store: Store) | NotRouted(reason: Refusal) | Conflict

  function Route(fillHash: FillHash, store: Store, batch: Batch, requests: seq<OrderRequest>, mode: TradingMode): RouteOutcome {
    if requests == [] then NotRouted(ValidationError)
    else match mode
      case Disabled => NotRouted(ModeDisabled)
      case Paper =>
        var written := PersistAll(fillHash, store, batch, requests);
        if written.Some? then Routed(written.value) else Conflict
      case Shadow => NotRouted(ModeNotImplemented)
      case Live => NotRouted(ModeNotImplemented)
  }

  function Execute(hashes: Hashes, controls: Controls, rows: Simulations, store: Store, a: Attempt): (TradeResult, Store) {
    var gate := Gate(controls, a.decision, a.requested);
    if gate.Some? then (Refused(gate.value), store)
    else
      var link := CheckLink(rows, a.o.id, a.decision.simulationRunId.value);
      if link.Some? then (Refused(link.value), store)
      else
        var built := BuildOrders(hashes.order, a.o, a.decision, controls.mode, a.at);
        if built.Error? then (Refused(ValidationError), store)
        else match Route(hashes.fill, store, a.BatchOf(), built.value.requests, controls.mode)
          case Routed(after) => (Executed(|built.value.requests|), after)
          case NotRouted(reason) => (Refused(reason), store)
          case Conflict => (Raised, store)
  }

  // ---------------------------------------------------------------- the services

  class KillSwitch {
    var active: bool

    constructor (active: bool)
      ensures this.active == active
    {
      this.active := active;
    }

    method Activate()
      modifies this
      ensures active
    {
      active := true;
    }

    method Clear()
      modifies this
      ensures !active
    {
      active := false;
    }
  }

  class TradingModeState {
    var mode: TradingMode

    constructor (mode: TradingMode)
      ensures this.mode == mode
    {
      this.mode := mode;
    }

    method SetMode(mode: TradingMode)
      modifies this
      ensures this.mode == mode
    {
      this.mode := mode;
    }
  }

  class OrderRouter {
    const tracker: PaperOrderTracker

    constructor (tracker: PaperOrderTracker)
      ensures this.tracker == tracker
    {
      this.tracker := tracker;
    }

    /** Hands the requests to the paper tracker in paper mode; every other mode is refused
        before anything is written. */
    method RouteRequests(batch: Batch, requests: seq<OrderRequest>, mode: TradingMode) returns (written: Option<nat>, failure: Option<Refusal>)
      modifies tracker.repository
      ensures match Route(tracker.fillHash, old(tracker.repository.View()), batch, requests, mode)
        case Routed(after) => written == Some(|requests|) && tracker.repository.View() == after
        case NotRouted(reason) => written == None && failure == Some(reason) && tracker.repository.View() == old(tracker.repository.View())
        case Conflict => written == None && failure == None
    {
      written, failure := None, None;
      if requests == [] {
        failure := Some(ValidationError);
        return;
      }
      match mode {
        case Disabled => failure := Some(ModeDisabled);
        case Paper => written := tracker.Persist(batch, requests);
        case Shadow => failure := Some(ModeNotImplemented);
        case Live => failure := Some(ModeNotImplemented);
      }
    }
  }

  class TraderService {
    const orderHash: OrderHash
    const killSwitch: KillSwitch
    const modeState: TradingModeState
    const simulations: SimulationsRepository
    const router: OrderRouter

    constructor (orderHash: OrderHash, killSwitch: KillSwitch, modeState: TradingModeState, simulations: SimulationsRepository,
                 router: OrderRouter)
      ensures this.orderHash == orderHash && this.killSwitch == killSwitch && this.modeState == modeState
      ensures this.simulations == simulations && this.router == router
    {
      this.orderHash, this.killSwitch, this.modeState := orderHash, killSwitch, modeState;
      this.simulations, this.router := simulations, router;
    }

    function CurrentControls(): Controls
      reads killSwitch, modeState
    {
      Controls(killSwitch.active, modeState.mode)
    }

    function HashesUsed(): Hashes {
      Hashes(orderHash, router.tracker.fillHash)
    }

    /** One attempt against the current controls and simulations; every write is rolled back
        unless the whole attempt executes. */
    method ExecuteOpportunity(a: Attempt) returns (r: TradeResult)
      modifies router.tracker.repository
      ensures (r, router.tracker.repository.View())
           == Execute(HashesUsed(), old(CurrentControls()), old(simulations.rows), old(router.tracker.repository.View()), a)
    {
      hide BuildOrders, PersistAll, CheckLink, Gate;
      var controls := CurrentControls();
      var gate := Gate(controls, a.decision, a.requested);
      if gate.Some? {
        return Refused(gate.value);
      }
      assert a.decision.simulationRunId.Some? by { PassedGate(controls, a.decision, a.requested); }
      var link := CheckLink(simulations.rows, a.o.id, a.decision.simulationRunId.value);
      if link.Some? {
        return Refused(link.value);
      }
      var built := BuildOrderRequests(orderHash, a.o, a.decision, controls.mode, a.at);
      if built.Error? {
        return Refused(ValidationError);
      }
      var repository := router.tracker.repository;
      var saved := repository.View();
      var written, failure := router.RouteRequests(a.BatchOf(), built.value.requests, controls.mode);
      if written.Some? {
        return Executed(written.value);
      }
      repository.Rollback(saved);
      r := if failure.Some? then Refused(failure.value) else Raised;
    }
  }

  lemma PassedGate(controls: Controls, decision: RiskDecision, requested: Option<TradingMode>)
    requires Gate(controls, decision, requested).None?
    ensures !controls.killSwitchActive && decision.IsApproval() && controls.mode != Disabled
    ensures decision.simulationRunId.Some? && decision.simulationRunId.value != ""
    ensures decision.maxSizeUsd.Some? && decision.maxSizeUsd.value > 0.0
    ensures requested.None? || requested.value == controls.mode
  {
  }

  // ---------------------------------------------------------------- one attempt

  /** The link checks accept a run id exactly when the opportunity's latest summary carries it and
      no row of another opportunity under the same run id was executed later. The check for a
      missing latest summary never fails on its own. */
  lemma LinkAcceptedExactly(rows: Simulations, opportunityId: int, runId: string)
    requires ValidRows(rows)
    ensures CheckLink(rows, opportunityId, runId) != Some(LinkLatestMissing)
    ensures CheckLink(rows, opportunityId, runId).None? <==>
      var latest := LatestSummary(rows, opportunityId);
      && latest.Some?
      && latest.value.runId == runId
      && forall s :: s in rows && s.runId == runId && s.opportunityId != opportunityId ==> !Later(s, latest.value)
  {
    RunIdNamesLatestExactly(rows, opportunityId, runId);
    var row, latest := AnyByRunId(rows, runId), LatestSummary(rows, opportunityId);
    if row.Some? && row.value.opportunityId == opportunityId && row.value.summary {
      assert IsSummaryOf(opportunityId)(row.value);
      if latest.Some? && latest.value.id == row.value.id {
        var i :| 0 <= i < |rows| && rows[i] == row.value;
        var j :| 0 <= j < |rows| && rows[j] == latest.value;
      }
    }
  }

  /** What an executed attempt needed, and what it wrote. */
  ghost predicate ProperExecution(hashes: Hashes, controls: Controls, rows: Simulations, store: Store, a: Attempt, after: Store) {
    && !controls.killSwitchActive
    && controls.mode == Paper
    && a.decision.IsApproval()
    && a.decision.simulationRunId.Some?
    && LatestSummary(rows, a.o.id).Some?
    && LatestSummary(rows, a.o.id).value.runId == a.decision.simulationRunId.value != ""
    && var built := BuildOrders(hashes.order, a.o, a.decision, Paper, a.at);
    && built.Ok?
    && |after.orders| == |store.orders| + |built.value.requests|
    && |after.fills| == |after.orders| && |store.fills| == |store.orders|
    && after.orders[..|store.orders|] == store.orders && after.fills[..|store.fills|] == store.fills
    && forall i :: 0 <= i < |built.value.requests| ==>
         after.orders[|store.orders| + i] == OrderRow(|store.orders| + i, a.BatchOf(), built.value.requests[i])
  }

  /** An attempt that does not execute leaves the store unchanged. One that executes ran with the
      kill switch off, in paper mode, on an approved decision whose run id is the opportunity's
      latest summary, and wrote exactly the built requests. The store stays well formed. */
  lemma {:induction false} ExecuteEffect(hashes: Hashes, controls: Controls, rows: Simulations, store: Store, a: Attempt)
    requires ValidRows(rows) && WellFormed(store)
    ensures var (r, after) := Execute(hashes, controls, rows, store, a);
      && WellFormed(after)
      && (!r.Executed? ==> after == store)
      && (r.Executed? ==> ProperExecution(hashes, controls, rows, store, a, after) && r.orderCount == |after.orders| - |store.orders|)
  {
    hide BuildOrders, PersistAll, WellFormed;
    var (r, after) := Execute(hashes, controls, rows, store, a);
    if r.Executed? {
      PassedGate(controls, a.decision, a.requested);
      LinkAcceptedExactly(rows, a.o.id, a.decision.simulationRunId.value);
      SameLength(store);
      BatchAppends(hashes.fill, store, a.BatchOf(), BuildOrders(hashes.order, a.o, a.decision, controls.mode, a.at).value.requests);
    }
  }

  /** An attempt executes exactly when the kill switch is off, the mode is paper and not another one
      than asked for, the decision approves a positive size, its run id is the opportunity's latest
      summary and no later row of another opportunity carries it, the orders build, and no order or
      fill id is taken. */
  lemma ExecutesExactly(hashes: Hashes, controls: Controls, rows: Simulations, store: Store, a: Attempt)
    requires ValidRows(rows)
    ensures Execute(hashes, controls, rows, store, a).0.Executed? <==>
      && !controls.killSwitchActive
      && controls.mode == Paper
      && (a.requested == None || a.requested == Some(Paper))
      && a.decision.IsApproval()
      && a.decision.maxSizeUsd.Some? && a.decision.maxSizeUsd.value > 0.0
      && a.decision.simulationRunId.Some? && a.decision.simulationRunId.value != ""
      && (var runId, latest := a.decision.simulationRunId.value, LatestSummary(rows, a.o.id);
          && latest.Some?
          && latest.value.runId == runId
          && forall s :: s in rows && s.runId == runId && s.opportunityId != a.o.id ==> !Later(s, latest.value))
      && var built := BuildOrders(hashes.order, a.o, a.decision, Paper, a.at);
      && built.Ok?
      && PersistAll(hashes.fill, store, a.BatchOf(), built.value.requests).Some?
  {
    hide BuildOrders, PersistAll, CheckLink, LatestSummary, RoundedLeg;
    if a.decision.simulationRunId.Some? {
      LinkAcceptedExactly(rows, a.o.id, a.decision.simulationRunId.value);
      if BuildOrders(hashes.order, a.o, a.decision, Paper, a.at).Ok? {
        BuiltOrders(hashes.order, a.o, a.decision, Paper, a.at);
      }
    }
  }

  /** Once an order carries the client id of any leg of an attempt, the attempt cannot execute. */
  lemma RepeatedAttemptFails(hashes: Hashes, controls: Controls, rows: Simulations, store: Store, a: Attempt, i: nat)
    requires WellFormed(store)
    requires var built := BuildOrders(hashes.order, a.o, a.decision, Paper, a.at);
      built.Ok? && i < |built.value.requests| && HasClientId(store.orders, built.value.requests[i].clientOrderId)
    ensures !Execute(hashes, controls, rows, store, a).0.Executed?
  {
    hide BuildOrders, PersistAll, WellFormed, HasClientId;
    var requests := BuildOrders(hashes.order, a.o, a.decision, Paper, a.at).value.requests;
    RepeatedIdConflicts(hashes.fill, store, a.BatchOf(), requests, i);
  }

  // ---------------------------------------------------------------- why an attempt is refused

  /** The row a run id names: of the rows that carry it, the one executed last. */
  ghost predicate Names(rows: Simulations, runId: string, x: SimulatedExecution) {
    x in rows && x.runId == runId && forall y :: y in rows && y.runId == runId ==> !Later(y, x)
  }

  ghost predicate NamesNothing(rows: Simulations, runId: string) {
    forall x :: x in rows ==> x.runId != runId
  }

  ghost predicate NamesAnother(rows: Simulations, runId: string, opportunityId: int) {
    exists x :: Names(rows, runId, x) && x.opportunityId != opportunityId
  }

  ghost predicate NamesNoSummary(rows: Simulations, runId: string) {
    exists x :: Names(rows, runId, x) && !x.summary
  }

  ghost predicate NamesOutdated(rows: Simulations, runId: string) {
    exists x, later :: Names(rows, runId, x) && later in rows && later.summary && later.opportunityId == x.opportunityId && Later(later, x)
  }

  /** The checks of an attempt, in the order of the trader service. */
  ghost function TradeChecks(hashes: Hashes, controls: Controls, rows: Simulations, a: Attempt): seq<Check<Refusal>> {
    GateChecks(controls, a) + LinkChecks(rows, a.o.id, a.BatchOf().simulationRunId) + BuildChecks(hashes, controls, a)
  }

  function GateChecks(controls: Controls, a: Attempt): seq<Check<Refusal>> {
    [ Check(KillSwitchOn, controls.killSwitchActive),
      Check(RiskNotApproved, !a.decision.approved || a.decision.reason != Approved),
      Check(TradingModeMismatch, a.requested.Some? && a.requested != Some(controls.mode)),
      Check(SimulationLinkMissing, a.BatchOf().simulationRunId == ""),
      Check(ApprovedNotionalMissing, a.decision.maxSizeUsd.None?),
      Check(ApprovedNotionalNonPositive, a.decision.maxSizeUsd.Some? && a.decision.maxSizeUsd.value <= 0.0),
      Check(ModeDisabled, controls.mode == Disabled) ]
  }

  ghost function LinkChecks(rows: Simulations, opportunityId: int, runId: string): seq<Check<Refusal>> {
    [ Check(LinkNotFound, NamesNothing(rows, runId)),
      Check(LinkOpportunityMismatch, NamesAnother(rows, runId, opportunityId)),
      Check(LinkNotSummary, NamesNoSummary(rows, runId)),
      Check(LinkStale, NamesOutdated(rows, runId)) ]
  }

  function BuildChecks(hashes: Hashes, controls: Controls, a: Attempt): seq<Check<Refusal>> {
    [ Check(ValidationError, BuildOrders(hashes.order, a.o, a.decision, controls.mode, a.at).Error?),
      Check(ModeNotImplemented, controls.mode == Shadow || controls.mode == Live) ]
  }

  /** The code of the link check, from the rows that carry the run id. */
  lemma {:induction false} LinkRefusal(rows: Simulations, opportunityId: int, runId: string)
    requires ValidRows(rows)
    ensures CheckLink(rows, opportunityId, runId)
      == FirstCode(LinkChecks(rows, opportunityId, runId))
  {
    FirstOfFour(LinkChecks(rows, opportunityId, runId));
    var row, latest := AnyByRunId(rows, runId), LatestSummary(rows, opportunityId);
    hide LatestWhere, FirstCode;
    if row.Some? {
      assert HasRunId(runId)(row.value);
      forall x | x in rows && x.runId == runId ensures HasRunId(runId)(x) {}
      assert Names(rows, runId, row.value);
      forall x | Names(rows, runId, x) ensures x == row.value { OneLatest(rows, x, row.value); }
      if row.value.opportunityId == opportunityId && row.value.summary {
        assert IsSummaryOf(opportunityId)(row.value);
        forall x | x in rows && x.opportunityId == opportunityId && x.summary ensures IsSummaryOf(opportunityId)(x) {}
        if latest.value != row.value {
          OneLatest(rows, latest.value, row.value);
        }
      }
    } else {
      forall x | x in rows ensures x.runId != runId { assert !HasRunId(runId)(x); }
    }
  }

  /** Of two different rows one is later. */
  lemma OneLatest(rows: Simulations, x: SimulatedExecution, y: SimulatedExecution)
    requires ValidRows(rows) && x in rows && y in rows
    ensures x == y || (x.id != y.id && (Later(x, y) || Later(y, x)))
  {
    var i :| 0 <= i < |rows| && rows[i] == x;
    var j :| 0 <= j < |rows| && rows[j] == y;
  }

  lemma {:induction false} GateRefusal(controls: Controls, a: Attempt)
    ensures Gate(controls, a.decision, a.requested) == FirstCode(GateChecks(controls, a))
  {
    var checks := GateChecks(controls, a);
    FirstOfSeven(checks);
  }

  /** An attempt that passes gate and link is refused for its orders or for its mode. */
  lemma {:induction false} RoutedOrRefused(hashes: Hashes, controls: Controls, rows: Simulations, store: Store, a: Attempt)
    requires Gate(controls, a.decision, a.requested).None?
    requires a.decision.simulationRunId.Some? && CheckLink(rows, a.o.id, a.decision.simulationRunId.value).None?
    ensures var r, code := Execute(hashes, controls, rows, store, a).0, FirstCode(BuildChecks(hashes, controls, a));
      (r.Refused? <==> code.Some?) && (code.Some? ==> r == Refused(code.value))
  {
    hide BuildOrders, PersistAll, CheckLink, RoundedLeg, FirstCode;
    PassedGate(controls, a.decision, a.requested);
    FirstOfTwo(BuildChecks(hashes, controls, a));
    if BuildOrders(hashes.order, a.o, a.decision, controls.mode, a.at).Ok? {
      BuiltOrders(hashes.order, a.o, a.decision, controls.mode, a.at);
    }
  }

  /** Every refusal names the first check that fails, and an attempt none of them fails is not refused. */
  lemma {:induction false} FirstFailingCheckRefuses(hashes: Hashes, controls: Controls, rows: Simulations, store: Store, a: Attempt)
    requires ValidRows(rows)
    ensures var r, checks := Execute(hashes, controls, rows, store, a).0, TradeChecks(hashes, controls, rows, a);
      && (r.Refused? <==> SomeFails(checks))
      && (forall i: nat :: FirstFails(checks, i) ==> r == Refused(checks[i].code))
  {
    hide ValidRows, Gate, CheckLink, BuildOrders, Route, FirstCode, GateChecks, LinkChecks, BuildChecks, FirstFails, SomeFails;
    var gates, links, builds := GateChecks(controls, a), LinkChecks(rows, a.o.id, a.BatchOf().simulationRunId), BuildChecks(hashes, controls, a);
    GateRefusal(controls, a);
    LinkRefusal(rows, a.o.id, a.BatchOf().simulationRunId);
    FirstCodeJoins(gates + links, builds);
    FirstCodeJoins(gates, links);
    FirstCodeIsFirst(TradeChecks(hashes, controls, rows, a));
    if Gate(controls, a.decision, a.requested).None? {
      PassedGate(controls, a.decision, a.requested);
      if CheckLink(rows, a.o.id, a.BatchOf().simulationRunId).None? {
        RoutedOrRefused(hashes, controls, rows, store, a);
      }
    }
  }
}
