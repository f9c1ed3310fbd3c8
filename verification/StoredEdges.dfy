/** What the stored opportunities say about their edge, and when a constraint's row gives way to
    another (src/constraint_scanner/detection/detector_service.py, detection/persistence.py). */
module StoredEdges {
  import opened Common
  import opened BasketPricing
  import opened Templates
  import opened Opportunities
  import opened Detection
  import opened OpportunityStore
  import opened DetectorServices
  import opened SimulationStore
  import opened Exposure
  import opened RiskPolicy

  // ---------------------------------------------------------------- the edge of a stored row

  /** The amounts of a detection, wherever they are stored: the expected value is what the basket
      pays above its cost, the edge that value per dollar of cost, in basis points above the
      configured minimum, and the score that value times a positive confidence. */
  ghost predicate EdgeAmounts(details: Details, expectedValue: real, edgeBps: real, score: real, minEdgeBps: real) {
    && DetectorPricing(details)
    && var p := details.pricing.value;
    && expectedValue == Times(1.0 - PriceTotal(p.legs.value), p.basketQuantity.value)
    && p.netEdgePct.Some? && Times(p.netEdgePct.value, p.grossBuyCost.value) == expectedValue
    && Times(edgeBps, p.grossBuyCost.value) == Times(expectedValue, 10000.0)
    && edgeBps > minEdgeBps
    && details.confidence.Some?
    && score == (if details.confidence.value > 0.0 then Times(expectedValue, details.confidence.value) else 0.0)
  }

  /** Whole milliseconds between two instants, cut toward zero. */
  predicate Milliseconds(from: Instant, to: Instant, ms: int) {
    if to >= from then ms * 1000 <= to - from < (ms + 1) * 1000 else (ms - 1) * 1000 < to - from <= ms * 1000 <= 0
  }

  ghost predicate EdgeRow(row: Opportunity, minEdgeBps: real) {
    && row.details.lifecycle.Some?
    && Milliseconds(row.firstSeenAt, row.lastSeenAt, row.details.lifecycle.value.persistenceMs)
    && row.edgeBps.Some?
    && EdgeAmounts(row.details, row.expectedValueUsd, row.edgeBps.value, row.score, minEdgeBps)
    && row.marketId == None && row.tokenId == None && row.detectedAt == row.lastSeenAt
  }

  ghost predicate EdgeRows(rows: Rows, minEdgeBps: real) {
    forall i :: 0 <= i < |rows| ==> EdgeRow(rows[i], minEdgeBps)
  }

  ghost predicate EdgeFindings(evaluations: seq<Evaluation>, minEdgeBps: real) {
    forall m :: 0 <= m < |evaluations| && evaluations[m].outcome.Found? ==> EdgeFinding(evaluations[m].outcome.finding, minEdgeBps)
  }

  ghost predicate EdgeFinding(f: Finding, minEdgeBps: real) {
    && EdgeAmounts(f.details, f.expectedValueUsd, f.edgeBps, f.rankingScore, minEdgeBps)
    && f.edgeBps == f.netEdgePct * 10000.0
  }

  lemma {:induction false} FindingHasEdge(hash: KeyHash, settings: Settings, context: Context, books: Books, confidence: real)
    requires DetectCombinatorial(hash, settings, context, books, confidence).Found?
    ensures EdgeFinding(DetectCombinatorial(hash, settings, context, books, confidence).finding, settings.minEdgeBps)
  {
    hide *;
    var f := DetectCombinatorial(hash, settings, context, books, confidence).finding;
    FindingEdges(hash, settings, context, books, confidence);
    FindingIsArbitrage(hash, settings, context, books, confidence);
    PricedParts(f.details);
    AmountsTogether(f, confidence, settings.minEdgeBps);
  }

  lemma AmountsTogether(f: Finding, confidence: real, minEdgeBps: real)
    requires DetectorPricing(f.details) && f.details.pricing.Some?
    requires f.details.pricing.value.grossBuyCost == Some(f.maxExecutableNotional) && f.details.confidence == Some(confidence)
    requires f.details.pricing.value.legs.Some? && f.details.pricing.value.basketQuantity.Some?
    requires f.expectedValueUsd == Times(1.0 - PriceTotal(f.details.pricing.value.legs.value), f.details.pricing.value.basketQuantity.value)
    requires f.details.pricing.value.netEdgePct == Some(f.netEdgePct)
    requires Times(f.netEdgePct, f.maxExecutableNotional) == f.expectedValueUsd
    requires Times(f.edgeBps, f.maxExecutableNotional) == Times(f.expectedValueUsd, 10000.0)
    requires f.edgeBps == Times(f.netEdgePct, 10000.0) > minEdgeBps
    requires f.rankingScore == (if confidence > 0.0 then Times(f.expectedValueUsd, confidence) else 0.0)
    ensures EdgeFinding(f, minEdgeBps)
  {
    TimesOf(f.netEdgePct);
    hide DetectorPricing, PriceTotal, Times;
  }

  lemma TimesOf(a: real)
    ensures Times(a, 10000.0) == a * 10000.0
  {
  }

  lemma PricedParts(details: Details)
    requires DetectorPricing(details)
    ensures details.pricing.Some? && details.pricing.value.legs.Some? && details.pricing.value.basketQuantity.Some? && details.pricing.value.grossBuyCost.Some?
    ensures LegsOf(details) == details.pricing.value.legs.value
  {
  }

  lemma {:induction false} LifecycleKeepsEdge(details: Details, lifecycle: Option<Opportunities.Lifecycle>, value: real, edgeBps: real, score: real, minEdgeBps: real)
    requires EdgeAmounts(details, value, edgeBps, score, minEdgeBps)
    ensures EdgeAmounts(details.(lifecycle := lifecycle), value, edgeBps, score, minEdgeBps)
  {
    LifecycleKeepsPricing(details, lifecycle);
    hide DetectorPricing, Times, PriceTotal;
    PricedParts(details);
  }

  lemma {:induction false} OpenedRowHasEdge(e: Evaluation, f: Finding, existing: Option<Opportunity>, id: int, at: Instant, minEdgeBps: real)
    requires EdgeFinding(f, minEdgeBps)
    ensures EdgeRow(OpenRow(e, f, existing, id, at), minEdgeBps)
  {
    hide EdgeAmounts;
    LifecycleKeepsEdge(f.details, OpenRow(e, f, existing, id, at).details.lifecycle, f.expectedValueUsd, f.edgeBps, f.rankingScore, minEdgeBps);
  }

  lemma {:induction false} ClosedRowKeepsEdge(row: Opportunity, at: Instant, minEdgeBps: real)
    requires EdgeRow(row, minEdgeBps)
    ensures EdgeRow(CloseRow(row, at), minEdgeBps)
  {
    hide EdgeAmounts;
    LifecycleKeepsEdge(row.details, CloseRow(row, at).details.lifecycle, row.expectedValueUsd, row.edgeBps.value, row.score, minEdgeBps);
  }

  lemma {:induction false} ApplyKeepsEdges(rows: Rows, e: Evaluation, at: Instant, minEdgeBps: real)
    requires AtMostOneOpen(rows) && EdgeRows(rows, minEdgeBps) && (e.outcome.Found? ==> EdgeFinding(e.outcome.finding, minEdgeBps))
    ensures EdgeRows(Apply(rows, e, at), minEdgeBps)
  {
    ApplyEffect(rows, e, at);
    var after := Apply(rows, e, at);
    hide Apply, OpenRow, CloseRow, EdgeRow, EdgeFinding;
    forall i | 0 <= i < |after| ensures EdgeRow(after[i], minEdgeBps) {
      if i < |rows| {
        ClosedRowKeepsEdge(rows[i], at, minEdgeBps);
        if e.outcome.Found? { OpenedRowHasEdge(e, e.outcome.finding, Some(rows[i]), rows[i].id, at, minEdgeBps); }
      } else {
        OpenedRowHasEdge(e, e.outcome.finding, None, |rows|, at, minEdgeBps);
      }
    }
  }

  lemma {:induction false} RunKeepsEdges(rows: Rows, evaluations: seq<Evaluation>, at: Instant, minEdgeBps: real)
    requires AtMostOneOpen(rows) && DistinctConstraints(evaluations) && EdgeRows(rows, minEdgeBps) && EdgeFindings(evaluations, minEdgeBps)
    ensures EdgeRows(ApplyAll(rows, evaluations, at), minEdgeBps)
  {
    hide EdgeRows, EdgeFinding, Apply, AtMostOneOpen;
    if evaluations != [] {
      var n := |evaluations| - 1;
      RunEffect(rows, evaluations[..n], at);
      RunKeepsEdges(rows, evaluations[..n], at, minEdgeBps);
      ApplyKeepsEdges(ApplyAll(rows, evaluations[..n], at), evaluations[n], at, minEdgeBps);
    }
  }

  lemma {:induction false} EvaluationsHaveEdges(hash: KeyHash, settings: Settings, constraints: seq<LoadedConstraint>, books: Books)
    ensures EdgeFindings(Evaluations(hash, settings, constraints, books), settings.minEdgeBps)
  {
    hide DetectCombinatorial, EdgeFinding;
    var evaluations := Evaluations(hash, settings, constraints, books);
    forall m | 0 <= m < |evaluations| && evaluations[m].outcome.Found? ensures EdgeFinding(evaluations[m].outcome.finding, settings.minEdgeBps) {
      FindingHasEdge(hash, settings, constraints[m].context, books, constraints[m].confidence);
    }
  }

  /** Every row reachable by detector runs, open or closed, carries the amounts of the detection that
      last refreshed it. */
  lemma {:induction false} StoredRowsHaveEdges(hash: KeyHash, settings: Settings, history: seq<ServiceRun>)
    requires ProperHistory(history)
    ensures EdgeRows(StoredRows(hash, settings, history), settings.minEdgeBps)
    ensures AtMostOneOpen(StoredRows(hash, settings, history))
  {
    hide EdgeRow, ApplyAll, Evaluations, EdgeFindings, AtMostOneOpen;
    ProperHistoryIsProper(hash, settings, history);
    var spans := ServiceHistoryExplained(hash, settings, history);
    if history != [] {
      var n := |history| - 1;
      var init, last := history[..n], history[n];
      StoredRowsHaveEdges(hash, settings, init);
      assert AsRuns(hash, settings, history)[..n] == AsRuns(hash, settings, init);
      EvaluationsHaveEdges(hash, settings, last.constraints, last.books);
      assert DistinctConstraints(AsRuns(hash, settings, history)[n].evaluations);
      RunKeepsEdges(StoredRows(hash, settings, init), Evaluations(hash, settings, last.constraints, last.books), last.at, settings.minEdgeBps);
    }
  }

  /** A gate no stricter than the detector on edge never refuses a stored opportunity for its edge. */
  lemma {:induction false} EdgeGateNeverRefuses(hash: KeyHash, detection: Settings, history: seq<ServiceRun>, i: nat,
                                                settings: RiskSettings, controls: Controls, simulation: Option<SimulatedExecution>,
                                                current: ExposureState, at: Instant)
    requires ProperHistory(history) && i < |StoredRows(hash, detection, history)| && settings.minEdgeBps <= detection.minEdgeBps
    ensures EvaluateRisk(settings, controls, StoredRows(hash, detection, history)[i], simulation, current, at).reason != EdgeBelowMinimum
  {
    StoredRowsHaveEdges(hash, detection, history);
    var row := StoredRows(hash, detection, history)[i];
    assert EdgeRow(row, detection.minEdgeBps);
    hide StoredRows, EdgeRows, DetectorPricing, LegCount, ViewOf, UnresolvedNotional;
  }

  // ---------------------------------------------------------------- one row gives way to another

  /** The row is closed at `at`, otherwise as it was. */
  predicate ClosedAt(before: Opportunity, after: Opportunity, at: Instant) {
    && after.status == Closed && after.closedAt == Some(at)
    && after.(status := before.status, closedAt := before.closedAt, details := before.details) == before
    && after.details.(lifecycle := before.details.lifecycle) == before.details
    && (after.details.lifecycle.Some? <==> before.details.lifecycle.Some?)
    && (after.details.lifecycle.Some? ==>
          && after.details.lifecycle.value.closedAt == Some(at)
          && after.details.lifecycle.value.(closedAt := before.details.lifecycle.value.closedAt) == before.details.lifecycle.value)
  }

  /** A row opened at `at` under a key, seen once. */
  predicate OpenedAt(row: Opportunity, constraintId: int, groupId: Option<int>, key: string, at: Instant) {
    && row.status == Open && row.closedAt == None
    && row.constraintId == constraintId && row.groupId == groupId && row.persistenceKey == key
    && row.firstSeenAt == row.lastSeenAt == row.detectedAt == at
    && row.details.lifecycle.Some?
    && var l := row.details.lifecycle.value;
    && l.persistenceKey == key && l.firstSeenAt == l.lastSeenAt == at && l.closedAt == None && l.persistenceMs == 0 && l.seenCount == 1
  }

  lemma {:induction false} OtherKeyReplaces(rows: Rows, e: Evaluation, at: Instant, i: nat)
    requires AtMostOneOpen(rows) && i < |rows| && OpenFor(rows[i], e.constraintId)
    requires e.outcome.Found? && e.outcome.finding.persistenceKey != rows[i].persistenceKey
    ensures var after := Apply(rows, e, at);
      && |after| == |rows| + 1
      && ClosedAt(rows[i], after[i], at)
      && OpenedAt(after[|rows|], e.constraintId, e.groupId, e.outcome.finding.persistenceKey, at)
  {
    ApplyEffect(rows, e, at);
    hide Apply;
    assert forall k :: 0 <= k < |rows| ==> !OpenUnder(rows[k], e.constraintId, e.outcome.finding.persistenceKey);
  }

  /** A run that finds a constraint under another key than its open row closes that row and opens a
      new one, seen once. */
  lemma {:induction false} RunReplacesRow(rows: Rows, evaluations: seq<Evaluation>, at: Instant, i: nat, m: nat) returns (j: nat)
    requires AtMostOneOpen(rows) && DistinctConstraints(evaluations) && i < |rows| && m < |evaluations|
    requires OpenFor(rows[i], evaluations[m].constraintId)
    requires evaluations[m].outcome.Found? && evaluations[m].outcome.finding.persistenceKey != rows[i].persistenceKey
    ensures var after, e := ApplyAll(rows, evaluations, at), evaluations[m];
      && |rows| <= j < |after|
      && ClosedAt(rows[i], after[i], at)
      && OpenedAt(after[j], e.constraintId, e.groupId, e.outcome.finding.persistenceKey, at)
  {
    hide *;
    var n := |evaluations| - 1;
    var middle := ApplyAll(rows, evaluations[..n], at);
    RunSplits(rows, evaluations, at, m);
    if m < n {
      j := RunReplacesRow(rows, evaluations[..n], at, i, m);
      OfConstraint(rows[i], middle[i], middle[j], evaluations[m], at);
      OthersKept(middle, evaluations[n], at, i);
      OthersKept(middle, evaluations[n], at, j);
    } else {
      KeptSoFar(rows, evaluations, at, i);
      OtherKeyReplaces(middle, evaluations[n], at, i);
      j := |middle|;
    }
  }

  lemma {:induction false} RunSplits(rows: Rows, evaluations: seq<Evaluation>, at: Instant, m: nat)
    requires AtMostOneOpen(rows) && DistinctConstraints(evaluations) && m < |evaluations|
    ensures var n := |evaluations| - 1;
      var middle := ApplyAll(rows, evaluations[..n], at);
      && ApplyAll(rows, evaluations, at) == Apply(middle, evaluations[n], at)
      && AtMostOneOpen(middle) && DistinctConstraints(evaluations[..n]) && |rows| <= |middle|
      && (m < n ==> evaluations[..n][m] == evaluations[m] && evaluations[m].constraintId != evaluations[n].constraintId)
  {
    RunEffect(rows, evaluations[..|evaluations| - 1], at);
    hide Apply, AtMostOneOpen, AfterRun, OpenedBy;
  }

  /** A row whose constraint comes last in a run is untouched until then. */
  lemma {:induction false} KeptSoFar(rows: Rows, evaluations: seq<Evaluation>, at: Instant, i: nat)
    requires AtMostOneOpen(rows) && DistinctConstraints(evaluations) && evaluations != [] && i < |rows|
    requires OpenFor(rows[i], evaluations[|evaluations| - 1].constraintId)
    ensures i < |ApplyAll(rows, evaluations[..|evaluations| - 1], at)| && ApplyAll(rows, evaluations[..|evaluations| - 1], at)[i] == rows[i]
  {
    var init := evaluations[..|evaluations| - 1];
    RunEffect(rows, init, at);
    assert !Evaluates(init, rows[i].constraintId);
    hide ApplyAll, AtMostOneOpen, AfterRun, OpenedBy;
    AfterRunUnevaluated(rows[i], init, at);
  }

  lemma OfConstraint(before: Opportunity, closed: Opportunity, other: Opportunity, e: Evaluation, at: Instant)
    requires OpenFor(before, e.constraintId) && e.outcome.Found? && ClosedAt(before, closed, at)
    requires OpenedAt(other, e.constraintId, e.groupId, e.outcome.finding.persistenceKey, at)
    ensures closed.constraintId == other.constraintId == e.constraintId
  {
  }

  /** Replacing the members of a constraint ends its opportunity: when the detector finds it with
      another template or other members than the open row was found with, the row is closed and a
      new one opened, seen once. */
  lemma {:induction false} ReplacedMembersReopen(hash: KeyHash, rows: Rows, evaluations: seq<Evaluation>, at: Instant, i: nat, m: nat,
                                                 s: Settings, c: Context, books: Books, confidence: real,
                                                 t: Settings, d: Context, others: Books, certainty: real) returns (j: nat)
    requires AtMostOneOpen(rows) && DistinctConstraints(evaluations) && i < |rows| && m < |evaluations|
    requires OpenFor(rows[i], evaluations[m].constraintId)
    requires DetectCombinatorial(hash, s, c, books, confidence).Found?
    requires rows[i].persistenceKey == DetectCombinatorial(hash, s, c, books, confidence).finding.persistenceKey
    requires evaluations[m].outcome == DetectCombinatorial(hash, t, d, others, certainty) && evaluations[m].outcome.Found?
    requires Separates(hash, CanonicalInput(c.templateType, BasketLegs(c.members)), CanonicalInput(d.templateType, BasketLegs(d.members)))
    requires c.templateType != d.templateType || multiset(MemberIds(c.members)) != multiset(MemberIds(d.members))
    ensures var after, e := ApplyAll(rows, evaluations, at), evaluations[m];
      && |rows| <= j < |after|
      && ClosedAt(rows[i], after[i], at)
      && OpenedAt(after[j], e.constraintId, e.groupId, e.outcome.finding.persistenceKey, at)
  {
    hide DetectCombinatorial, ApplyAll, AtMostOneOpen, Separates, MemberIds, BasketLegs, CanonicalInput;
    FindingKeysExactly(hash, s, c, books, confidence, t, d, others, certainty);
    j := RunReplacesRow(rows, evaluations, at, i, m);
  }
}
