/** The paper store in every reachable state: control changes, simulations and trade attempts
    interleaved in any order, each an atomic step. */
module TradingHistory {
  import opened Common
  import opened Opportunities
  import opened SimulationStore
  import opened RiskPolicy
  import opened OrderBuilder
  import opened OrderStore
  import opened Trading

  datatype Step =
    | SetControls(controls: Controls)
    | Summarize(opportunityId: int, runId: string, executedAt: Instant, payload: SummaryPayload)
    | RecordExecution(opportunityId: int, runId: string, executedAt: Instant)
    | Trade(attempt: Attempt)

  datatype System = System(controls: Controls, rows: Simulations, store: Store)

  const INITIAL := System(Controls(false, Disabled), [], EMPTY_STORE)

  /** A row that is no summary; refused when the opportunity already has the run id. */
  function AddExecution(rows: Simulations, opportunityId: int, runId: string, executedAt: Instant): Simulations {
    if RunIndex(rows, opportunityId, runId).Some? then rows
    else rows + [SimulatedExecution(|rows|, opportunityId, runId, false, executedAt, None)]
  }

  function Next(hashes: Hashes, s: System, step: Step): System {
    match step
    case SetControls(controls) => s.(controls := controls)
    case Summarize(opportunityId, runId, at, payload) => s.(rows := UpsertSummary(s.rows, opportunityId, runId, at, payload))
    case RecordExecution(opportunityId, runId, at) => s.(rows := AddExecution(s.rows, opportunityId, runId, at))
    case Trade(a) => s.(store := Execute(hashes, s.controls, s.rows, s.store, a).1)
  }

  function After(hashes: Hashes, steps: seq<Step>): System {
    if steps == [] then INITIAL else Next(hashes, After(hashes, steps[..|steps| - 1]), steps[|steps| - 1])
  }

  ghost predicate ValidSystem(s: System) {
    ValidRows(s.rows) && WellFormed(s.store)
  }

  lemma NextKeepsValid(hashes: Hashes, s: System, step: Step)
    requires ValidSystem(s)
    ensures ValidSystem(Next(hashes, s, step))
  {
    hide WellFormed, Execute;
    match step
    case SetControls(_) =>
    case Summarize(opportunityId, runId, at, payload) => UpsertKeepsValid(s.rows, opportunityId, runId, at, payload);
    case RecordExecution(_, _, _) =>
    case Trade(a) => ExecuteEffect(hashes, s.controls, s.rows, s.store, a);
  }

  lemma {:induction false} ReachableIsValid(hashes: Hashes, steps: seq<Step>)
    ensures ValidSystem(After(hashes, steps))
  {
    hide ValidSystem, Next;
    if steps == [] {
      assert ValidSystem(INITIAL) by { InitialIsValid(); }
    } else {
      ReachableIsValid(hashes, steps[..|steps| - 1]);
      NextKeepsValid(hashes, After(hashes, steps[..|steps| - 1]), steps[|steps| - 1]);
    }
  }

  lemma InitialIsValid()
    ensures ValidSystem(INITIAL)
  {
  }

  /** Step `k` executed the attempt that wrote order `i`, from request `j` of its build. */
  ghost predicate WrittenAt(hashes: Hashes, steps: seq<Step>, order: LiveOrder, i: nat, k: nat, j: nat)
    requires k < |steps|
  {
    && steps[k].Trade?
    && var before, a := After(hashes, steps[..k]), steps[k].attempt;
    && Execute(hashes, before.controls, before.rows, before.store, a).0.Executed?
    && !before.controls.killSwitchActive
    && before.controls.mode == Paper
    && a.decision.IsApproval()
    && LatestSummary(before.rows, a.o.id).Some?
    && a.decision.simulationRunId == Some(LatestSummary(before.rows, a.o.id).value.runId) == Some(order.simulationRunId)
    && order.opportunityId == a.o.id && order.decision == a.decision && order.submittedAt == a.at
    && var built := BuildOrders(hashes.order, a.o, a.decision, Paper, a.at);
    && built.Ok?
    && j < |built.value.requests|
    && i == |before.store.orders| + j
    && order == OrderRow(i, a.BatchOf(), built.value.requests[j])
  }

  ghost predicate Explained(hashes: Hashes, steps: seq<Step>, i: nat)
    requires i < |After(hashes, steps).store.orders|
  {
    exists k, j :: 0 <= k < |steps| && WrittenAt(hashes, steps, After(hashes, steps).store.orders[i], i, k, j)
  }

  /** One step only appends to the store. */
  lemma StoreGrows(hashes: Hashes, s: System, step: Step)
    requires ValidSystem(s)
    ensures var after := Next(hashes, s, step).store;
      |s.store.orders| <= |after.orders| && after.orders[..|s.store.orders|] == s.store.orders
    ensures var after := Next(hashes, s, step).store;
      after != s.store ==>
        && step.Trade?
        && Execute(hashes, s.controls, s.rows, s.store, step.attempt).0.Executed?
        && ProperExecution(hashes, s.controls, s.rows, s.store, step.attempt, after)
  {
    hide WellFormed, Execute, ProperExecution;
    if step.Trade? {
      ExecuteEffect(hashes, s.controls, s.rows, s.store, step.attempt);
      if Execute(hashes, s.controls, s.rows, s.store, step.attempt).0.Executed? {
        ProperExecutionAppends(hashes, s.controls, s.rows, s.store, step.attempt, Next(hashes, s, step).store);
      }
    }
  }

  lemma ProperExecutionAppends(hashes: Hashes, controls: Controls, rows: Simulations, store: Store, a: Attempt, after: Store)
    requires ProperExecution(hashes, controls, rows, store, a, after)
    ensures |store.orders| <= |after.orders| && after.orders[..|store.orders|] == store.orders
  {
    hide BuildOrders;
  }

  /** Paper-store safety in every reachable state: each order has exactly one fill, of equal
      price and quantity, and no venue id, and was written by an attempt made with the kill
      switch off, in paper mode, on an approved decision whose run id named the opportunity's
      latest summary at that moment. */
  lemma {:induction false} EveryOrderIsExplained(hashes: Hashes, steps: seq<Step>, i: nat)
    requires i < |After(hashes, steps).store.orders|
    ensures var store := After(hashes, steps).store;
      && |store.fills| == |store.orders|
      && FillsOf(store, store.orders[i].id) == {i}
      && Paired(store.orders[i], store.fills[i], i)
      && Explained(hashes, steps, i)
  {
    ReachableIsValid(hashes, steps);
    ExactlyOneFill(After(hashes, steps).store, i);
    OrderIsExplained(hashes, steps, i);
  }

  lemma {:induction false} OrderIsExplained(hashes: Hashes, steps: seq<Step>, i: nat)
    requires i < |After(hashes, steps).store.orders|
    ensures Explained(hashes, steps, i)
  {
    hide ValidSystem, WrittenAt, Next, ProperExecution;
    var n := |steps| - 1;
    var init, last := steps[..n], steps[n];
    var before, after := After(hashes, init), After(hashes, steps);
    ReachableIsValid(hashes, init);
    StoreGrows(hashes, before, last);
    if i < |before.store.orders| {
      OrderIsExplained(hashes, init, i);
      assert after.store.orders[i] == before.store.orders[i];
      var k, j :| 0 <= k < n && WrittenAt(hashes, init, before.store.orders[i], i, k, j);
      EarlierWitness(hashes, init, last, before.store.orders[i], i, k, j);
      assert steps == init + [last];
      assert WrittenAt(hashes, steps, after.store.orders[i], i, k, j);
    } else {
      var j := i - |before.store.orders|;
      LastWitness(hashes, before, last, i);
      LastStepWrote(hashes, steps, i, j);
    }
  }

  lemma EarlierWitness(hashes: Hashes, init: seq<Step>, last: Step, order: LiveOrder, i: nat, k: nat, j: nat)
    requires k < |init| && WrittenAt(hashes, init, order, i, k, j)
    ensures WrittenAt(hashes, init + [last], order, i, k, j)
  {
    hide After, BuildOrders, Execute;
    assert (init + [last])[..k] == init[..k] && (init + [last])[k] == init[k];
  }

  lemma LastWitness(hashes: Hashes, before: System, last: Step, i: nat)
    requires ValidSystem(before)
    requires |before.store.orders| <= i < |Next(hashes, before, last).store.orders|
    ensures last.Trade?
    ensures Execute(hashes, before.controls, before.rows, before.store, last.attempt).0.Executed?
    ensures ProperExecution(hashes, before.controls, before.rows, before.store, last.attempt, Next(hashes, before, last).store)
  {
    hide ValidSystem, Next, ProperExecution, Execute;
    StoreGrows(hashes, before, last);
  }

  lemma LastStepWrote(hashes: Hashes, steps: seq<Step>, i: nat, j: nat)
    requires steps != [] && steps[|steps| - 1].Trade?
    requires var before, a := After(hashes, steps[..|steps| - 1]), steps[|steps| - 1].attempt;
      && Execute(hashes, before.controls, before.rows, before.store, a).0.Executed?
      && ProperExecution(hashes, before.controls, before.rows, before.store, a, After(hashes, steps).store)
      && i == |before.store.orders| + j
    requires i < |After(hashes, steps).store.orders|
    ensures Explained(hashes, steps, i)
  {
    hide After, BuildOrders, Execute;
    var n := |steps| - 1;
    var before, a := After(hashes, steps[..n]), steps[n].attempt;
    var requests := BuildOrders(hashes.order, a.o, a.decision, Paper, a.at).value.requests;
    var order := After(hashes, steps).store.orders[i];
    assert j < |requests|;
    assert order == OrderRow(i, a.BatchOf(), requests[j]);
    assert WrittenAt(hashes, steps, order, i, n, j);
  }

  // ---------------------------------------------------------------- no double execution

  lemma {:induction false} HistoryGrows(hashes: Hashes, steps: seq<Step>, k: nat)
    requires k <= |steps|
    ensures var earlier, now := After(hashes, steps[..k]).store.orders, After(hashes, steps).store.orders;
      |earlier| <= |now| && now[..|earlier|] == earlier
  {
    hide ValidSystem, Next, ProperExecution;
    if k == |steps| {
      assert steps[..k] == steps;
    } else {
      var n := |steps| - 1;
      assert steps[..n][..k] == steps[..k];
      HistoryGrows(hashes, steps[..n], k);
      ReachableIsValid(hashes, steps[..n]);
      StoreGrows(hashes, After(hashes, steps[..n]), steps[n]);
      var earlier, middle := After(hashes, steps[..k]).store.orders, After(hashes, steps[..n]).store.orders;
      assert After(hashes, steps).store.orders[..|earlier|] == middle[..|earlier|];
    }
  }

  ghost predicate ExecutedAt(hashes: Hashes, steps: seq<Step>, k: nat)
    requires k < |steps|
  {
    var before := After(hashes, steps[..k]);
    steps[k].Trade? && Execute(hashes, before.controls, before.rows, before.store, steps[k].attempt).0.Executed?
  }

  /** Both attempts have a leg at position `i`, for the same token. */
  ghost predicate ShareLeg(a: Attempt, b: Attempt, i: nat) {
    && i < |LegsOf(a.o.details)| && i < |LegsOf(b.o.details)|
    && LegsOf(a.o.details)[i].tokenId == LegsOf(b.o.details)[i].tokenId
  }

  /** An opportunity submitted twice for the same simulation run at the same time executes at
      most once, whatever happens in between: its row may be refreshed with other prices and
      quantities, as long as one leg keeps its token. */
  lemma {:induction false} ExecutesAtMostOnce(hashes: Hashes, steps: seq<Step>, k: nat, m: nat, i: nat)
    requires k < m < |steps| && ExecutedAt(hashes, steps, k) && steps[m].Trade?
    requires steps[m].attempt.o.id == steps[k].attempt.o.id && steps[m].attempt.at == steps[k].attempt.at
    requires ShareLeg(steps[k].attempt, steps[m].attempt, i)
    requires steps[m].attempt.decision.simulationRunId == steps[k].attempt.decision.simulationRunId
    ensures !ExecutedAt(hashes, steps, m)
  {
    hide Execute, BuildOrders, ValidSystem, WellFormed, ProperExecution, After, HasClientId, ShareLeg;
    var before, later := After(hashes, steps[..k]), After(hashes, steps[..m]);
    var a, b := steps[k].attempt, steps[m].attempt;
    ReachableIsValid(hashes, steps[..k]);
    ReachableIsValid(hashes, steps[..m]);
    OrderWritten(hashes, before, a, i) by { assert i < |LegsOf(a.o.details)| by { LegsShared(a, b, i); } }
    assert steps[..k + 1][..k] == steps[..k] && steps[..k + 1][k] == steps[k];
    AfterStep(hashes, steps[..k + 1]);
    HistoryGrows(hashes, steps[..m], k + 1);
    assert steps[..m][..k + 1] == steps[..k + 1];
    var j := |before.store.orders| + i;
    assert later.store.orders[j] == After(hashes, steps[..k + 1]).store.orders[j];
    if ExecutedAt(hashes, steps, m) {
      OrderWritten(hashes, later, b, i) by { assert i < |LegsOf(b.o.details)| by { LegsShared(a, b, i); } }
      LegsShared(a, b, i);
      assert LegClientId(hashes, a, i) == LegClientId(hashes, b, i);
      ClientIdStored(later.store.orders, j);
      AttemptConflicts(hashes, later, b, i);
    }
  }

  lemma LegsShared(a: Attempt, b: Attempt, i: nat)
    requires ShareLeg(a, b, i)
    ensures i < |LegsOf(a.o.details)| && i < |LegsOf(b.o.details)|
    ensures LegsOf(a.o.details)[i].tokenId == LegsOf(b.o.details)[i].tokenId
  {
  }

  lemma AfterStep(hashes: Hashes, steps: seq<Step>)
    requires steps != []
    ensures After(hashes, steps) == Next(hashes, After(hashes, steps[..|steps| - 1]), steps[|steps| - 1])
  {
  }

  lemma ClientIdStored(orders: seq<LiveOrder>, i: nat)
    requires i < |orders|
    ensures HasClientId(orders, orders[i].clientOrderId)
  {
  }

  /** The client order id of one leg of an attempt. */
  function LegClientId(hashes: Hashes, a: Attempt, i: nat): string
    requires i < |LegsOf(a.o.details)|
  {
    hashes.order(OrderIdInput(Paper, a.o.id, a.BatchOf().simulationRunId, LegsOf(a.o.details)[i].tokenId, i + 1, a.at))
  }

  lemma OrderWritten(hashes: Hashes, s: System, a: Attempt, i: nat)
    requires ValidSystem(s) && Execute(hashes, s.controls, s.rows, s.store, a).0.Executed?
    requires i < |LegsOf(a.o.details)|
    ensures var after := Next(hashes, s, Trade(a)).store;
      && |s.store.orders| + i < |after.orders|
      && after.orders[|s.store.orders| + i].clientOrderId == LegClientId(hashes, a, i)
    ensures var built := BuildOrders(hashes.order, a.o, a.decision, Paper, a.at);
      built.Ok? && i < |built.value.requests| && built.value.requests[i].clientOrderId == LegClientId(hashes, a, i)
  {
    hide Execute, BuildOrders, WellFormed, RoundedLeg;
    ExecuteEffect(hashes, s.controls, s.rows, s.store, a);
    BuiltOrders(hashes.order, a.o, a.decision, Paper, a.at);
  }

  lemma AttemptConflicts(hashes: Hashes, s: System, a: Attempt, i: nat)
    requires ValidSystem(s)
    requires var built := BuildOrders(hashes.order, a.o, a.decision, Paper, a.at);
      built.Ok? && i < |built.value.requests| && HasClientId(s.store.orders, built.value.requests[i].clientOrderId)
    ensures !Execute(hashes, s.controls, s.rows, s.store, a).0.Executed?
  {
    hide Execute, BuildOrders, WellFormed, HasClientId;
    RepeatedAttemptFails(hashes, s.controls, s.rows, s.store, a, i);
  }
}
