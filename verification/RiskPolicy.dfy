/** The risk gate (src/constraint_scanner/risk/policy.py, approvals.py). */
module RiskPolicy {
  import opened Common
  import opened Checks
  import opened ExecutablePricing
  import opened Opportunities
  import opened FillModel
  import opened Simulation
  import opened SimulationStore
  import opened Exposure

  datatype RiskSettings = RiskSettings(
    minEdgeBps: real, minConfidence: real, maxLegs: int, maxUnresolved: real, staleSeconds: int)

  datatype TradingMode = Disabled | Paper | Shadow | Live

  /** The operator's controls as read at one moment. */
  datatype Controls = Controls(killSwitchActive: bool, mode: TradingMode)

  datatype Reason =
    | Approved | KillSwitchActive | TradingDisabled | SimulationMissing | SimulationTimingMismatch | SimulationStaleQuote
    | SimulationNotRobust | OpportunityStale | EdgeBelowMinimum | ConfidenceBelowMinimum | MaxLegsExceeded
    | UnresolvedExposureTooHigh

  datatype RiskDecision = RiskDecision(approved: bool, reason: Reason, maxSizeUsd: Option<real>, simulationRunId: Option<string>)
  {
    predicate IsApproval() { approved && reason == Approved }
  }

  function Reject(reason: Reason, runId: Option<string>): RiskDecision {
    RiskDecision(false, reason, None, runId)
  }

  datatype SimulationView = SimulationView(runId: string, classification: Classification, flags: set<Flag>)

  /** The gate's view of a summary row; none when its payload is incomplete. */
  function ViewOf(simulation: Option<SimulatedExecution>): Option<SimulationView> {
    if simulation.None? || simulation.value.payload.None? then None
    else
      var payload := simulation.value.payload.value;
      if payload.classification.None? || payload.flags.None? || !payload.hasResult then None
      else
        Some(SimulationView(if payload.runId.Some? then payload.runId.value else simulation.value.runId,
                            payload.classification.value, payload.flags.value))
  }

  function EdgeBps(o: Opportunity): real {
    if o.edgeBps.Some? then o.edgeBps.value
    else if o.details.pricing.Some? && o.details.pricing.value.netEdgePct.Some? then o.details.pricing.value.netEdgePct.value * 10000.0
    else 0.0
  }

  function LegCount(o: Opportunity): nat {
    if o.details.pricing.Some? && o.details.pricing.value.legs.Some? then |o.details.pricing.value.legs.value|
    else if o.details.memberCount.Some? then o.details.memberCount.value
    else 0
  }

  function EvaluateRisk(settings: RiskSettings, controls: Controls, o: Opportunity, simulation: Option<SimulatedExecution>,
                        current: ExposureState, at: Instant): RiskDecision {
    if controls.killSwitchActive then Reject(KillSwitchActive, None)
    else if controls.mode == Disabled then Reject(TradingDisabled, None)
    else
      var seen := ViewOf(simulation);
      if seen.None? then Reject(SimulationMissing, None)
      else
        var runId := Some(seen.value.runId);
        if TimingMismatch in seen.value.flags then Reject(SimulationTimingMismatch, runId)
        else if StaleQuote in seen.value.flags then Reject(SimulationStaleQuote, runId)
        else if seen.value.classification != Robust then Reject(SimulationNotRobust, runId)
        else if ElapsedSeconds(o.lastSeenAt, at) > settings.staleSeconds then Reject(OpportunityStale, runId)
        else if EdgeBps(o) < settings.minEdgeBps then Reject(EdgeBelowMinimum, runId)
        else if OrZero(o.details.confidence) < settings.minConfidence then Reject(ConfidenceBelowMinimum, runId)
        else if LegCount(o) > settings.maxLegs then Reject(MaxLegsExceeded, runId)
        else if current.unresolved + UnresolvedNotional(o) > settings.maxUnresolved then Reject(UnresolvedExposureTooHigh, runId)
        else
          var capacity := Max(settings.maxUnresolved - current.unresolved, 0.0);
          RiskDecision(true, Approved, Some(Min(capacity, UnresolvedNotional(o))), runId)
  }

  /** The gate never sizes an opportunity down: it is refused, or approved at its full gross cost,
      and then the projected exposure stays within the limit. An approval always names a run. */
  lemma ApprovedAtFullSize(settings: RiskSettings, controls: Controls, o: Opportunity, simulation: Option<SimulatedExecution>,
                           current: ExposureState, at: Instant)
    ensures var d := EvaluateRisk(settings, controls, o, simulation, current, at);
      && (d.approved <==> d.reason == Approved)
      && (d.approved <==> d.maxSizeUsd.Some?)
      && (d.approved ==>
            && d.maxSizeUsd == Some(UnresolvedNotional(o))
            && current.unresolved + UnresolvedNotional(o) <= settings.maxUnresolved
            && d.simulationRunId.Some?)
  {
  }

  // ---------------------------------------------------------------- what each gate reads

  /** The summary row is complete and shows this verdict and these flags; the run is the payload's,
      or else the row's own. */
  ghost predicate Shows(simulation: Option<SimulatedExecution>, runId: string, verdict: Classification, flags: set<Flag>) {
    && simulation.Some?
    && (simulation.value.payload == Some(SummaryPayload(Some(runId), Some(verdict), Some(flags), true))
        || (simulation.value.payload == Some(SummaryPayload(None, Some(verdict), Some(flags), true)) && simulation.value.runId == runId))
  }

  ghost predicate ShowsNothing(simulation: Option<SimulatedExecution>) {
    forall runId, verdict, flags :: !Shows(simulation, runId, verdict, flags)
  }

  ghost predicate ShowsFlag(simulation: Option<SimulatedExecution>, flag: Flag) {
    exists runId, verdict, flags :: Shows(simulation, runId, verdict, flags) && flag in flags
  }

  ghost predicate ShowsOther(simulation: Option<SimulatedExecution>, expected: Classification) {
    exists runId, verdict, flags :: Shows(simulation, runId, verdict, flags) && verdict != expected
  }

  ghost predicate ShowsRun(simulation: Option<SimulatedExecution>, runId: Option<string>) {
    runId.Some? && exists verdict, flags :: Shows(simulation, runId.value, verdict, flags)
  }

  lemma {:induction false} ViewExactly(simulation: Option<SimulatedExecution>)
    ensures forall runId, verdict, flags ::
      Shows(simulation, runId, verdict, flags) <==> ViewOf(simulation) == Some(SimulationView(runId, verdict, flags))
  {
  }

  lemma {:induction false} SeenExactly(simulation: Option<SimulatedExecution>, runId: Option<string>)
    ensures ViewOf(simulation).None? <==> ShowsNothing(simulation)
    ensures forall flag :: ShowsFlag(simulation, flag) <==> ViewOf(simulation).Some? && flag in ViewOf(simulation).value.flags
    ensures forall expected :: ShowsOther(simulation, expected) <==> ViewOf(simulation).Some? && ViewOf(simulation).value.classification != expected
    ensures ShowsRun(simulation, runId) <==> ViewOf(simulation).Some? && runId == Some(ViewOf(simulation).value.runId)
  {
    ViewExactly(simulation);
    var view := ViewOf(simulation);
    hide Shows, ViewOf;
    if view.Some? {
      assert Shows(simulation, view.value.runId, view.value.classification, view.value.flags);
    }
  }

  /** At least `seconds` and one second have passed; below zero, more than `seconds` have. */
  predicate LongerAgo(from: Instant, at: Instant, seconds: int) {
    if seconds >= 0 then at - from >= (seconds + 1) * 1_000_000 else at - from > seconds * 1_000_000
  }

  lemma LongerAgoExactly(from: Instant, at: Instant, seconds: int)
    ensures ElapsedSeconds(from, at) > seconds <==> LongerAgo(from, at, seconds)
  {
  }

  /** The recorded edge lies below the limit: the row's own, else its pricing's, else none. */
  predicate EdgeBelow(o: Opportunity, limit: real) {
    match (o.edgeBps, o.details.pricing)
    case (Some(edge), _) => edge < limit
    case (None, Some(Pricing(_, _, _, Some(share), _))) => share < limit / 10000.0
    case _ => 0.0 < limit
  }

  predicate ConfidenceBelow(o: Opportunity, limit: real) {
    match o.details.confidence
    case Some(confidence) => confidence < limit
    case None => 0.0 < limit
  }

  /** More legs than the limit: by the priced legs, else by the recorded members, else none. */
  predicate MoreLegs(o: Opportunity, limit: int) {
    match o.details
    case Details(Some(Pricing(_, _, _, _, Some(legs))), _, _, _, _) => |legs| > limit
    case Details(_, _, _, Some(count), _) => count > limit
    case _ => 0 > limit
  }

  /** With the gross cost of the opportunity the exposure would pass the limit. */
  predicate ExposureAbove(o: Opportunity, current: real, limit: real) {
    match o.details.pricing
    case Some(Pricing(_, Some(gross), _, _, _)) => current + gross > limit
    case _ => current > limit
  }

  lemma RecordedExactly(o: Opportunity, edge: real, confidence: real, legs: int, current: real, limit: real)
    ensures EdgeBelow(o, edge) <==> EdgeBps(o) < edge
    ensures ConfidenceBelow(o, confidence) <==> OrZero(o.details.confidence) < confidence
    ensures MoreLegs(o, legs) <==> LegCount(o) > legs
    ensures ExposureAbove(o, current, limit) <==> current + UnresolvedNotional(o) > limit
  {
  }

  // ---------------------------------------------------------------- the gates in order

  /** The gates in the order of the policy's guard chain. */
  ghost function RiskGates(settings: RiskSettings, controls: Controls, o: Opportunity, simulation: Option<SimulatedExecution>,
                           current: ExposureState, at: Instant): seq<Check<Reason>> {
    [ Check(KillSwitchActive, controls.killSwitchActive),
      Check(TradingDisabled, controls.mode == Disabled),
      Check(SimulationMissing, ShowsNothing(simulation)),
      Check(SimulationTimingMismatch, ShowsFlag(simulation, TimingMismatch)),
      Check(SimulationStaleQuote, ShowsFlag(simulation, StaleQuote)),
      Check(SimulationNotRobust, ShowsOther(simulation, Robust)),
      Check(OpportunityStale, LongerAgo(o.lastSeenAt, at, settings.staleSeconds)),
      Check(EdgeBelowMinimum, EdgeBelow(o, settings.minEdgeBps)),
      Check(ConfidenceBelowMinimum, ConfidenceBelow(o, settings.minConfidence)),
      Check(MaxLegsExceeded, MoreLegs(o, settings.maxLegs)),
      Check(UnresolvedExposureTooHigh, ExposureAbove(o, current.unresolved, settings.maxUnresolved)) ]
  }

  /** The decision is the rejection with the code of the first gate that fails, if one does. */
  lemma {:induction false} GateRefusal(settings: RiskSettings, controls: Controls, o: Opportunity, simulation: Option<SimulatedExecution>,
                                       current: ExposureState, at: Instant)
    ensures var d, code := EvaluateRisk(settings, controls, o, simulation, current, at),
                           FirstCode(RiskGates(settings, controls, o, simulation, current, at));
      && (d.approved <==> code.None?)
      && d.reason == (if code.Some? then code.value else Approved)
      && (code.Some? ==> d.maxSizeUsd == None)
      && (d.reason == KillSwitchActive || d.reason == TradingDisabled || d.reason == SimulationMissing ==> d.simulationRunId == None)
      && (d.reason != KillSwitchActive && d.reason != TradingDisabled && d.reason != SimulationMissing ==> ShowsRun(simulation, d.simulationRunId))
  {
    FirstOfEleven(RiskGates(settings, controls, o, simulation, current, at));
    LongerAgoExactly(o.lastSeenAt, at, settings.staleSeconds);
    RecordedExactly(o, settings.minEdgeBps, settings.minConfidence, settings.maxLegs, current.unresolved, settings.maxUnresolved);
    SeenExactly(simulation, EvaluateRisk(settings, controls, o, simulation, current, at).simulationRunId);
    hide FirstCode, ViewOf, ElapsedSeconds, EdgeBps, LegCount, UnresolvedNotional, OrZero, ShowsNothing, ShowsFlag, ShowsOther, ShowsRun;
    hide LongerAgo, EdgeBelow, ConfidenceBelow, MoreLegs, ExposureAbove;
  }

  /** The gates decide in order: an opportunity is approved exactly when none fails, and otherwise
      rejected with the code of the first that fails, naming the simulated run from the fourth gate on. */
  lemma {:induction false} FirstFailingGateDecides(settings: RiskSettings, controls: Controls, o: Opportunity, simulation: Option<SimulatedExecution>,
                                current: ExposureState, at: Instant)
    ensures var d, gates := EvaluateRisk(settings, controls, o, simulation, current, at), RiskGates(settings, controls, o, simulation, current, at);
      && (d.approved <==> !SomeFails(gates))
      && (d.approved ==> d.reason == Approved && ShowsRun(simulation, d.simulationRunId))
      && (forall i: nat :: FirstFails(gates, i) ==>
            && d.reason == gates[i].code && d.maxSizeUsd == None
            && if i >= 3 then ShowsRun(simulation, d.simulationRunId) else d.simulationRunId == None)
  {
    var gates := RiskGates(settings, controls, o, simulation, current, at);
    GateRefusal(settings, controls, o, simulation, current, at);
    FirstCodeIsFirst(gates);
    hide EvaluateRisk, FirstCode, SomeFails, ShowsRun, ShowsNothing, ShowsFlag, ShowsOther, LongerAgo, EdgeBelow, ConfidenceBelow, MoreLegs, ExposureAbove;
  }

  /** The stale gate in instants: with a non-negative limit an approved opportunity was last seen less
      than one second past it, and when the gates before it pass, the gate rejects exactly the others. */
  lemma StaleGateExactly(settings: RiskSettings, controls: Controls, o: Opportunity, simulation: Option<SimulatedExecution>,
                         current: ExposureState, at: Instant)
    requires settings.staleSeconds >= 0
    ensures var d := EvaluateRisk(settings, controls, o, simulation, current, at);
      && (d.approved ==> at - o.lastSeenAt < (settings.staleSeconds + 1) * 1_000_000)
      && (!controls.killSwitchActive && controls.mode != Disabled && Robustly(simulation) ==>
            (d.reason == OpportunityStale <==> at - o.lastSeenAt >= (settings.staleSeconds + 1) * 1_000_000))
  {
  }

  /** The summary is complete, robust and free of the two flags the gate looks at. */
  predicate Robustly(simulation: Option<SimulatedExecution>) {
    && simulation.Some? && simulation.value.payload.Some?
    && var payload := simulation.value.payload.value;
    && payload.classification == Some(Robust) && payload.flags.Some? && payload.hasResult
    && TimingMismatch !in payload.flags.value && StaleQuote !in payload.flags.value
  }

  /** `a` is at least as permissive as `b`. */
  predicate AtLeastAsPermissive(a: RiskSettings, b: RiskSettings) {
    && a.minEdgeBps <= b.minEdgeBps
    && a.minConfidence <= b.minConfidence
    && a.maxLegs >= b.maxLegs
    && a.maxUnresolved >= b.maxUnresolved
    && a.staleSeconds >= b.staleSeconds
  }

  lemma LaterIsOlder(from: Instant, earlier: Instant, later: Instant)
    requires earlier <= later
    ensures ElapsedSeconds(from, earlier) <= ElapsedSeconds(from, later)
  {
  }

  /** An approval survives, at the same size, any relaxation of the settings, any fall in the
      exposure of the others and any earlier evaluation time. */
  lemma ApprovalIsMonotone(settings: RiskSettings, looser: RiskSettings, controls: Controls, o: Opportunity,
                           simulation: Option<SimulatedExecution>, current: ExposureState, smaller: ExposureState,
                           at: Instant, earlier: Instant)
    requires AtLeastAsPermissive(looser, settings) && smaller.unresolved <= current.unresolved && earlier <= at
    requires EvaluateRisk(settings, controls, o, simulation, current, at).approved
    ensures EvaluateRisk(looser, controls, o, simulation, smaller, earlier)
         == EvaluateRisk(settings, controls, o, simulation, current, at)
  {
    LaterIsOlder(o.lastSeenAt, earlier, at);
    ApprovedAtFullSize(settings, controls, o, simulation, current, at);
  }
}
