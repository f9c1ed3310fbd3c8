/** From detector runs to written orders: the guarantees that span every stage. */
module Pipeline {
  import opened Common
  import opened Opportunities
  import opened BasketPricing
  import opened Detection
  import opened FillModel
  import opened Simulation
  import opened SimulationStore
  import opened DetectorServices
  import opened Exposure
  import opened RiskPolicy
  import opened OrderBuilder
  import opened OrderGuarantees
  import opened OrderStore
  import opened Trading
  import opened TraderRuntime

  // ---------------------------------------------------------------- accounting of one pass

  /** While a pass runs undisturbed by other order writers, its running order count is the number
      of stored orders, every opportunity has an entry, and only approved ones are executed. */
  lemma {:induction false} PassCounts(settings: RiskSettings, hashes: Hashes, opportunities: seq<Opportunity>, world: World,
                                      at: Instant, store: Store, n: nat)
    requires n <= |opportunities| && WellFormed(store) && ValidWorld(world)
    ensures var s := Pass(settings, hashes, opportunities, world, at, store, n);
      && WellFormed(s.store)
      && s.openOrders == |s.store.orders| == |s.store.fills|
      && s.executed <= s.approved <= |s.entries| <= n
      && (!s.raised ==> |s.entries| == n)
      && (s.executed == 0 ==> s.store == store)
  {
    hide Execute, WellFormed, EvaluateRisk, Others, LatestSummary, ExposureOf;
    OrderStore.SameLength(store);
    if n > 0 {
      PassCounts(settings, hashes, opportunities, world, at, store, n - 1);
      var s := Pass(settings, hashes, opportunities, world, at, store, n - 1);
      var o, m := opportunities[n - 1], world(n - 1);
      var a := Attempt(o, Decide(settings, opportunities, o, s.openOrders, m, at), None, at);
      ExecuteEffect(hashes, m.tradeControls, m.tradeRows, s.store, a);
      OrderStore.SameLength(Execute(hashes, m.tradeControls, m.tradeRows, s.store, a).1);
    }
  }

  function IsApprovedEntry(): Entry -> bool {
    (e: Entry) => e.decision.approved
  }

  function IsExecutedEntry(): Entry -> bool {
    (e: Entry) => e.result.Executed?
  }

  /** The entry of attempt `k`: gated against the exposure of all the others and the orders stored
      by then, and executed on the store as the attempts before left it. */
  ghost predicate IsEntryOf(settings: RiskSettings, hashes: Hashes, opportunities: seq<Opportunity>, world: World, at: Instant, store: Store,
                            k: nat, e: Entry)
    requires k < |opportunities|
  {
    var o, m, before := opportunities[k], world(k), Pass(settings, hashes, opportunities, world, at, store, k).store;
    && e.opportunityId == o.id
    && e.decision == EvaluateRisk(settings, m.gateControls, o, LatestSummary(m.gateRows, o.id),
                                  ExposureOf(Others(opportunities, o.id), |before.orders|), at)
    && (e.result, Pass(settings, hashes, opportunities, world, at, store, k + 1).store)
       == Execute(hashes, m.tradeControls, m.tradeRows, before, Attempt(o, e.decision, None, at))
  }

  /** A pass reports its attempts in order, one entry each, and counts the approved decisions and the
      executed trades among them; an attempt that raises is the first without an entry. */
  lemma {:induction false} PassIsReported(settings: RiskSettings, hashes: Hashes, opportunities: seq<Opportunity>, world: World,
                                          at: Instant, store: Store, n: nat)
    requires n <= |opportunities| && WellFormed(store) && ValidWorld(world)
    ensures var s := Pass(settings, hashes, opportunities, world, at, store, n);
      && |s.entries| <= n && (s.raised <==> |s.entries| < n)
      && (forall k :: 0 <= k < |s.entries| ==> IsEntryOf(settings, hashes, opportunities, world, at, store, k, s.entries[k]))
      && s.approved == |Filter(IsApprovedEntry(), s.entries)|
      && s.executed == |Filter(IsExecutedEntry(), s.entries)|
  {
    hide Execute, WellFormed, EvaluateRisk, Others, LatestSummary, ExposureOf, ValidWorld, Filter;
    if n > 0 {
      PassIsReported(settings, hashes, opportunities, world, at, store, n - 1);
      PassCounts(settings, hashes, opportunities, world, at, store, n - 1);
      var s, after := Pass(settings, hashes, opportunities, world, at, store, n - 1), Pass(settings, hashes, opportunities, world, at, store, n);
      if !after.raised {
        var e := after.entries[n - 1];
        assert after.entries == s.entries + [e];
        OneMoreEntry(IsApprovedEntry(), s.entries, e);
        OneMoreEntry(IsExecutedEntry(), s.entries, e);
      }
    } else {
      NoEntries(IsApprovedEntry());
      NoEntries(IsExecutedEntry());
    }
  }

  lemma NoEntries(keep: Entry -> bool)
    ensures Filter(keep, []) == []
  {
  }

  lemma {:induction false} OneMoreEntry(keep: Entry -> bool, entries: seq<Entry>, e: Entry)
    ensures |Filter(keep, entries + [e])| == |Filter(keep, entries)| + (if keep(e) then 1 else 0)
  {
    FilterSplit(keep, entries, [e]);
    assert [e][1..] == [];
  }

  // ---------------------------------------------------------------- from detection to the cap

  lemma StoredRowsAreTradable(hash: KeyHash, detection: Settings, history: seq<ServiceRun>, ids: Option<set<int>>)
    ensures Tradable(LoadOpen(StoredRows(hash, detection, history), ids))
  {
    hide StoredRows, LoadOpen, DetectorPricing;
    var rows := StoredRows(hash, detection, history);
    StoredRowsArePriced(hash, detection, history);
    LoadedRows(rows, ids);
    forall o | o in rows ensures DetectorPricing(o.details) {
      var i :| 0 <= i < |rows| && rows[i] == o;
    }
  }

  /** The notional cap from end to end: whatever the detector found and stored over any history of
      runs, and whichever opportunities a pass is asked to trade, the orders that pass writes add
      up to at most the configured limit. */
  lemma DetectedPassStaysWithinCap(hash: KeyHash, detection: Settings, history: seq<ServiceRun>, ids: Option<set<int>>,
                                   settings: RiskSettings, hashes: Hashes, world: World, at: Instant, store: Store)
    requires settings.maxUnresolved >= 0.0 && WellFormed(store) && ValidWorld(world)
    ensures var opportunities := LoadOpen(StoredRows(hash, detection, history), ids);
      var s := Pass(settings, hashes, opportunities, world, at, store, |opportunities|);
      OrdersNotional(s.store.orders) - OrdersNotional(store.orders) <= settings.maxUnresolved
  {
    hide StoredRows, LoadOpen, Tradable, Pass;
    StoredRowsAreTradable(hash, detection, history, ids);
    var opportunities := LoadOpen(StoredRows(hash, detection, history), ids);
    PassStaysWithinCap(settings, hashes, opportunities, world, at, store, |opportunities|);
  }

  /** Every attempt that executes on a stored opportunity buys all legs of the basket in one common
      quantity for less than the dollar per basket that every state of its constraint pays. */
  lemma {:induction false} ExecutedAttemptIsProfitable(hash: KeyHash, detection: Settings, history: seq<ServiceRun>, hashes: Hashes,
                                    controls: Controls, rows: Simulations, store: Store, a: Attempt)
    requires a.o in StoredRows(hash, detection, history)
    requires ValidRows(rows) && WellFormed(store)
    requires Execute(hashes, controls, rows, store, a).0.Executed?
    ensures var b := BuildOrders(hashes.order, a.o, a.decision, Paper, a.at).value;
      var s := OrderedQuantity(a.o.details, b.scale);
      var after := Execute(hashes, controls, rows, store, a).1;
      && |b.requests| == |LegsOf(a.o.details)|
      && (forall i :: 0 <= i < |b.requests| ==> b.requests[i].side == Buy && b.requests[i].quantity == s)
      && OrdersNotional(after.orders) - OrdersNotional(store.orders) == b.roundedTotal < s
  {
    hide Execute, BuildOrders, DetectorPricing, StoredRows, WellFormed, RoundedLeg, DetectorLeg, Notional, ScaledCost, PriceTotal, Times, OrderedQuantity;
    var stored := StoredRows(hash, detection, history);
    StoredRowsArePriced(hash, detection, history);
    var i :| 0 <= i < |stored| && stored[i] == a.o;
    ExecuteEffect(hashes, controls, rows, store, a);
    BuiltOrders(hashes.order, a.o, a.decision, Paper, a.at);
    DetectorOrders(hashes.order, a.o, a.decision, Paper, a.at);
    AppendedNotional(store, Execute(hashes, controls, rows, store, a).1, a.BatchOf(),
                     BuildOrders(hashes.order, a.o, a.decision, Paper, a.at).value.requests);
  }

  // ---------------------------------------------------------------- from simulation to approval

  /** The payload the simulator stores for a result. */
  function SummaryOf(runId: string, r: SimulationResult): SummaryPayload {
    SummaryPayload(Some(runId), Some(r.classification), Some(r.flags), true)
  }

  /** What an approval certifies: the opportunity's latest summary, when the simulator wrote it,
      found a whole basket fillable on fresh books at a positive profit after slippage, and the
      projected exposure fits the limit. The basket is the one that was simulated, which need not
      be the one that is approved. */
  lemma {:induction false} ApprovalCertifiesSimulatedProfit(settings: RiskSettings, controls: Controls, o: Opportunity, rows: Simulations,
                                         current: ExposureState, at: Instant,
                                         simulation: SimulationSettings, simulated: Details, books: Books, simulatedAt: Instant, runId: string)
    requires EvaluateRisk(settings, controls, o, LatestSummary(rows, o.id), current, at).approved
    requires LatestSummary(rows, o.id).value.payload == Some(SummaryOf(runId, SimulationOf(simulation, simulated, books, simulatedAt)))
    ensures var r := SimulationOf(simulation, simulated, books, simulatedAt);
      && r.classification == Robust && StaleQuote !in r.flags && TimingMismatch !in r.flags
      && (forall l :: l in r.legs ==> l.fill.filled == l.fill.desired > 0.0)
      && simulated.pricing.Some? && r.completed == OrZero(simulated.pricing.value.basketQuantity) > 0.0
      && r.expectedPnl == r.downsideBound > 0.0
      && simulation.robustThreshold <= r.fillProbability
      && EvaluateRisk(settings, controls, o, LatestSummary(rows, o.id), current, at).simulationRunId == Some(runId)
      && current.unresolved + UnresolvedNotional(o) <= settings.maxUnresolved
  {
    hide SimulationOf;
    ApprovedAtFullSize(settings, controls, o, LatestSummary(rows, o.id), current, at);
    assert SimulationOf(simulation, simulated, books, simulatedAt).classification == Robust;
    RobustCertifiesProfit(simulation, simulated, books, simulatedAt);
  }

  /** A simulation reads the pricing and the payoffs of an opportunity and nothing else; so the
      certificate of an approval concerns the approved basket when these are the simulated ones. */
  lemma SimulationReadsPricing(simulation: SimulationSettings, a: Details, b: Details, books: Books, at: Instant)
    requires a.pricing == b.pricing && a.grossPayoffs == b.grossPayoffs
    ensures SimulationOf(simulation, a, books, at) == SimulationOf(simulation, b, books, at)
  {
    hide Conclude, SimulateLegs, PayoutFloor;
  }

  /** What the gate reads of an opportunity: its last sighting, edge, gross cost, confidence and
      number of legs. */
  predicate LooksTheSame(a: Opportunity, b: Opportunity) {
    && a.lastSeenAt == b.lastSeenAt && EdgeBps(a) == EdgeBps(b) && UnresolvedNotional(a) == UnresolvedNotional(b)
    && OrZero(a.details.confidence) == OrZero(b.details.confidence) && LegCount(a) == LegCount(b)
  }

  /** The gate does not ask what was simulated, or when: any other opportunity that looks the same,
      judged by a summary of any age with the same payload under the same run, gets the same decision. */
  lemma GateIgnoresWhatWasSimulated(settings: RiskSettings, controls: Controls, a: Opportunity, b: Opportunity,
                                    summary: SimulatedExecution, other: SimulatedExecution, current: ExposureState, at: Instant)
    requires LooksTheSame(a, b) && other.payload == summary.payload && other.runId == summary.runId
    ensures EvaluateRisk(settings, controls, a, Some(summary), current, at) == EvaluateRisk(settings, controls, b, Some(other), current, at)
  {
    hide EdgeBps, LegCount, UnresolvedNotional, ElapsedSeconds;
  }
}
