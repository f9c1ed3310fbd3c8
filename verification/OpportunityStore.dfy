/** Opportunity rows over detector runs, as values: opening, refreshing and closing
    (src/constraint_scanner/db/repositories/opportunities.py, detection/persistence.py,
    detection/detector_service.py). */
module OpportunityStore {
  import opened Common
  import opened Opportunities
  import opened Detection

  type Rows = seq<Opportunity>

  /** What a run concluded about one constraint. */
  datatype Evaluation = Evaluation(constraintId: int, groupId: Option<int>, outcome: Outcome)

  /** Milliseconds between two instants, truncated toward zero. */
  function ElapsedMilliseconds(from: Instant, to: Instant): int {
    if to >= from then (to - from) / 1000 else -((from - to) / 1000)
  }

  /** First and last sighting and the number of sightings of a recurring opportunity. */
  function MergeLifecycle(existing: Option<Opportunity>, key: string, at: Instant): Lifecycle {
    var first := if existing.Some? then existing.value.firstSeenAt else at;
    var seen := if existing.Some? && existing.value.details.lifecycle.Some? then existing.value.details.lifecycle.value.seenCount else 0;
    Lifecycle(key, first, at, None, ElapsedMilliseconds(first, at), seen + 1)
  }

  /** The open row written for a finding, new or in place of `existing`. */
  function OpenRow(evaluation: Evaluation, finding: Finding, existing: Option<Opportunity>, id: int, at: Instant): Opportunity {
    var lifecycle := MergeLifecycle(existing, finding.persistenceKey, at);
    Opportunity(id, evaluation.constraintId, evaluation.groupId, None, None, finding.persistenceKey, at,
                lifecycle.firstSeenAt, lifecycle.lastSeenAt, None, Open, finding.rankingScore,
                Some(finding.netEdgePct * 10000.0), finding.expectedValueUsd,
                finding.details.(lifecycle := Some(lifecycle)))
  }

  predicate OpenFor(row: Opportunity, constraintId: int) {
    row.status == Open && row.constraintId == constraintId
  }

  predicate OpenUnder(row: Opportunity, constraintId: int, key: string) {
    OpenFor(row, constraintId) && row.persistenceKey == key
  }

  /** Position of the open row of a constraint under a key. */
  function OpenIndex(rows: Rows, constraintId: int, key: string): (r: Option<nat>)
    ensures r.Some? ==> r.value < |rows| && OpenUnder(rows[r.value], constraintId, key)
    ensures r.None? ==> forall i :: 0 <= i < |rows| ==> !OpenUnder(rows[i], constraintId, key)
  {
    if rows == [] then None
    else if OpenUnder(rows[|rows| - 1], constraintId, key) then Some(|rows| - 1)
    else OpenIndex(rows[..|rows| - 1], constraintId, key)
  }

  function UpsertOpen(rows: Rows, evaluation: Evaluation, finding: Finding, at: Instant): Rows {
    var i := OpenIndex(rows, evaluation.constraintId, finding.persistenceKey);
    if i.Some? then rows[i.value := OpenRow(evaluation, finding, Some(rows[i.value]), rows[i.value].id, at)]
    else rows + [OpenRow(evaluation, finding, None, |rows|, at)]
  }

  function CloseRow(row: Opportunity, at: Instant): Opportunity {
    var lifecycle := row.details.lifecycle;
    row.(status := Closed, closedAt := Some(at),
         details := row.details.(lifecycle := if lifecycle.Some? then Some(lifecycle.value.(closedAt := Some(at))) else None))
  }

  /** Closes the constraint's open rows whose keys were not observed. */
  function CloseOpen(rows: Rows, constraintId: int, observed: set<string>, at: Instant): Rows {
    seq(|rows|, i requires 0 <= i < |rows| =>
      if OpenFor(rows[i], constraintId) && rows[i].persistenceKey !in observed then CloseRow(rows[i], at) else rows[i])
  }

  function Apply(rows: Rows, evaluation: Evaluation, at: Instant): Rows {
    if evaluation.outcome.Rejected? then CloseOpen(rows, evaluation.constraintId, {}, at)
    else
      var finding := evaluation.outcome.finding;
      CloseOpen(UpsertOpen(rows, evaluation, finding, at), evaluation.constraintId, {finding.persistenceKey}, at)
  }

  function ApplyAll(rows: Rows, evaluations: seq<Evaluation>, at: Instant): Rows {
    if evaluations == [] then rows
    else Apply(ApplyAll(rows, evaluations[..|evaluations| - 1], at), evaluations[|evaluations| - 1], at)
  }

  // ---------------------------------------------------------------- one run, row by row

  ghost predicate AtMostOneOpen(rows: Rows) {
    forall i, j :: 0 <= i < j < |rows| && rows[i].status == rows[j].status == Open ==>
      rows[i].constraintId != rows[j].constraintId
  }

  ghost predicate DistinctConstraints(evaluations: seq<Evaluation>) {
    forall i, j :: 0 <= i < j < |evaluations| ==> evaluations[i].constraintId != evaluations[j].constraintId
  }

  predicate Confirms(evaluation: Evaluation, key: string) {
    evaluation.outcome.Found? && evaluation.outcome.finding.persistenceKey == key
  }

  /** What one evaluation makes of a row that was there before. */
  function AfterEvaluation(row: Opportunity, evaluation: Evaluation, at: Instant): Opportunity {
    if !OpenFor(row, evaluation.constraintId) then row
    else if Confirms(evaluation, row.persistenceKey) then OpenRow(evaluation, evaluation.outcome.finding, Some(row), row.id, at)
    else CloseRow(row, at)
  }

  lemma ApplyEffect(rows: Rows, evaluation: Evaluation, at: Instant)
    requires AtMostOneOpen(rows)
    ensures var after := Apply(rows, evaluation, at);
      && AtMostOneOpen(after)
      && |rows| <= |after| <= |rows| + 1
      && (forall i :: 0 <= i < |rows| ==> after[i] == AfterEvaluation(rows[i], evaluation, at))
      && (|after| == |rows| + 1 ==>
            && evaluation.outcome.Found?
            && after[|rows|] == OpenRow(evaluation, evaluation.outcome.finding, None, |rows|, at)
            && forall i :: 0 <= i < |rows| ==> !OpenUnder(rows[i], evaluation.constraintId, evaluation.outcome.finding.persistenceKey))
      && (evaluation.outcome.Found? && |after| == |rows| ==>
            exists i :: 0 <= i < |rows| && OpenUnder(rows[i], evaluation.constraintId, evaluation.outcome.finding.persistenceKey))
  {
    hide MergeLifecycle;
    if evaluation.outcome.Found? {
      var finding := evaluation.outcome.finding;
      var i := OpenIndex(rows, evaluation.constraintId, finding.persistenceKey);
      if i.Some? {
        assert OpenUnder(rows[i.value], evaluation.constraintId, finding.persistenceKey);
      }
    }
  }

  /** What a whole run makes of a row that was there before. */
  function AfterRun(row: Opportunity, evaluations: seq<Evaluation>, at: Instant): Opportunity {
    if evaluations == [] then row
    else AfterEvaluation(AfterRun(row, evaluations[..|evaluations| - 1], at), evaluations[|evaluations| - 1], at)
  }

  ghost predicate Evaluates(evaluations: seq<Evaluation>, constraintId: int) {
    exists m :: 0 <= m < |evaluations| && evaluations[m].constraintId == constraintId
  }

  ghost predicate Detects(evaluations: seq<Evaluation>, constraintId: int, key: string) {
    exists m :: 0 <= m < |evaluations| && evaluations[m].constraintId == constraintId && Confirms(evaluations[m], key)
  }

  lemma {:induction false} AfterRunUnevaluated(row: Opportunity, evaluations: seq<Evaluation>, at: Instant)
    requires !OpenFor(row, row.constraintId) || !Evaluates(evaluations, row.constraintId)
    ensures AfterRun(row, evaluations, at) == row
  {
    hide OpenRow, CloseRow;
    if evaluations != [] {
      var n := |evaluations| - 1;
      AfterRunUnevaluated(row, evaluations[..n], at);
    }
  }

  /** A run treats a row according to the one evaluation of its constraint, if there is one. */
  lemma {:induction false} AfterRunEvaluated(row: Opportunity, evaluations: seq<Evaluation>, at: Instant, m: nat)
    requires DistinctConstraints(evaluations)
    requires m < |evaluations| && evaluations[m].constraintId == row.constraintId
    ensures AfterRun(row, evaluations, at) == AfterEvaluation(row, evaluations[m], at)
  {
    hide MergeLifecycle;
    var n := |evaluations| - 1;
    var init := evaluations[..n];
    if m == n {
      assert !Evaluates(init, row.constraintId);
      AfterRunUnevaluated(row, init, at);
    } else {
      assert init[m] == evaluations[m];
      AfterRunEvaluated(row, init, at, m);
    }
  }

  /** Row `j` of `after` was opened by a finding of the run. */
  ghost predicate OpenedBy(after: Rows, before: nat, evaluations: seq<Evaluation>, at: Instant, j: nat)
    requires j < |after|
  {
    exists m :: 0 <= m < |evaluations| && evaluations[m].outcome.Found?
      && after[j] == OpenRow(evaluations[m], evaluations[m].outcome.finding, None, j, at)
  }

  lemma {:induction false} RunEffect(rows: Rows, evaluations: seq<Evaluation>, at: Instant)
    requires AtMostOneOpen(rows) && DistinctConstraints(evaluations)
    ensures var after := ApplyAll(rows, evaluations, at);
      && AtMostOneOpen(after)
      && |rows| <= |after|
      && (forall i :: 0 <= i < |rows| ==> after[i] == AfterRun(rows[i], evaluations, at))
      && (forall j :: |rows| <= j < |after| ==> OpenedBy(after, |rows|, evaluations, at, j))
  {
    hide AfterEvaluation, OpenRow, Apply;
    if evaluations != [] {
      var n := |evaluations| - 1;
      var init, last := evaluations[..n], evaluations[n];
      RunEffect(rows, init, at);
      var middle := ApplyAll(rows, init, at);
      ApplyEffect(middle, last, at);
      var after := ApplyAll(rows, evaluations, at);
      forall j | |rows| <= j < |after| ensures OpenedBy(after, |rows|, evaluations, at, j) {
        if j < |middle| {
          assert OpenedBy(middle, |rows|, init, at, j);
          var m :| 0 <= m < n && init[m].outcome.Found? && middle[j] == OpenRow(init[m], init[m].outcome.finding, None, j, at);
          OpenRowConstraint(init[m], init[m].outcome.finding, None, j, at);
          OtherConstraint(middle[j], last, at);
          assert evaluations[m] == init[m];
        } else {
          assert after[j] == OpenRow(evaluations[n], evaluations[n].outcome.finding, None, j, at);
        }
      }
    }
  }

  lemma OpenRowConstraint(evaluation: Evaluation, finding: Finding, existing: Option<Opportunity>, id: int, at: Instant)
    ensures var row := OpenRow(evaluation, finding, existing, id, at);
      OpenUnder(row, evaluation.constraintId, finding.persistenceKey) && row.id == id && row.closedAt == None
  {
  }

  lemma OtherConstraint(row: Opportunity, evaluation: Evaluation, at: Instant)
    requires row.constraintId != evaluation.constraintId
    ensures AfterEvaluation(row, evaluation, at) == row
  {
  }

  // ---------------------------------------------------------------- what a run leaves behind

  /** Row `i` is the constraint's only open row; it carries the key and was last seen at `at`. */
  ghost predicate SoleOpenRow(rows: Rows, i: int, constraintId: int, key: string, at: Instant) {
    && 0 <= i < |rows|
    && OpenUnder(rows[i], constraintId, key)
    && rows[i].lastSeenAt == at
    && forall j :: 0 <= j < |rows| && OpenFor(rows[j], constraintId) ==> j == i
  }

  /** Every evaluated constraint ends a run with exactly one open row, under the found key, when the
      detector found something, and with none otherwise. */
  lemma EvaluatedConstraintSettles(rows: Rows, evaluations: seq<Evaluation>, at: Instant, m: nat)
    requires AtMostOneOpen(rows) && DistinctConstraints(evaluations) && m < |evaluations|
    ensures var after, e := ApplyAll(rows, evaluations, at), evaluations[m];
      && (e.outcome.Rejected? ==> forall i :: 0 <= i < |after| ==> !OpenFor(after[i], e.constraintId))
      && (e.outcome.Found? ==> exists i :: SoleOpenRow(after, i, e.constraintId, e.outcome.finding.persistenceKey, at))
  {
    var after, e := ApplyAll(rows, evaluations, at), evaluations[m];
    RunEffect(rows, evaluations, at);
    forall i | 0 <= i < |after| && OpenFor(after[i], e.constraintId) ensures e.outcome.Found? {
      if i < |rows| {
        RunKeepsIdentity(rows, evaluations, at, i);
        AfterRunEvaluated(rows[i], evaluations, at, m);
      } else {
        assert OpenedBy(after, |rows|, evaluations, at, i);
      }
    }
    if e.outcome.Found? {
      var i := FoundRowExists(rows, evaluations, at, m);
      assert SoleOpenRow(after, i, e.constraintId, e.outcome.finding.persistenceKey, at);
    }
  }

  lemma {:induction false} FoundRowExists(rows: Rows, evaluations: seq<Evaluation>, at: Instant, m: nat) returns (i: nat)
    requires AtMostOneOpen(rows) && DistinctConstraints(evaluations) && m < |evaluations| && evaluations[m].outcome.Found?
    ensures var after, e := ApplyAll(rows, evaluations, at), evaluations[m];
      i < |after| && OpenUnder(after[i], e.constraintId, e.outcome.finding.persistenceKey) && after[i].lastSeenAt == at
  {
    var n := |evaluations| - 1;
    var init := evaluations[..n];
    RunEffect(rows, init, at);
    var middle := ApplyAll(rows, init, at);
    assert ApplyAll(rows, evaluations, at) == Apply(middle, evaluations[n], at);
    hide ApplyAll, Apply, AtMostOneOpen, AfterRun, OpenedBy;
    if m < n {
      assert init[m] == evaluations[m];
      i := FoundRowExists(rows, init, at, m);
      OthersKept(middle, evaluations[n], at, i);
    } else {
      i := FoundRowApplied(middle, evaluations[n], at);
    }
  }

  lemma OthersKept(rows: Rows, evaluation: Evaluation, at: Instant, i: nat)
    requires AtMostOneOpen(rows) && i < |rows| && rows[i].constraintId != evaluation.constraintId
    ensures i < |Apply(rows, evaluation, at)| && Apply(rows, evaluation, at)[i] == rows[i]
  {
    hide Apply, AtMostOneOpen, AfterEvaluation;
    ApplyEffect(rows, evaluation, at);
    OtherConstraint(rows[i], evaluation, at);
  }

  lemma FoundRowApplied(rows: Rows, evaluation: Evaluation, at: Instant) returns (i: nat)
    requires AtMostOneOpen(rows) && evaluation.outcome.Found?
    ensures var after := Apply(rows, evaluation, at);
      i < |after| && OpenUnder(after[i], evaluation.constraintId, evaluation.outcome.finding.persistenceKey) && after[i].lastSeenAt == at
  {
    hide Apply, AtMostOneOpen;
    ApplyEffect(rows, evaluation, at);
    if |Apply(rows, evaluation, at)| == |rows| {
      i :| 0 <= i < |rows| && OpenUnder(rows[i], evaluation.constraintId, evaluation.outcome.finding.persistenceKey);
    } else {
      i := |rows|;
    }
  }

  /** Closed rows are final, and no row ever changes its id, constraint, key or first sighting. */
  lemma RunKeepsIdentity(rows: Rows, evaluations: seq<Evaluation>, at: Instant, i: nat)
    requires AtMostOneOpen(rows) && DistinctConstraints(evaluations) && i < |rows|
    ensures var after := ApplyAll(rows, evaluations, at);
      && i < |after|
      && (rows[i].status == Closed ==> after[i] == rows[i])
      && after[i].id == rows[i].id && after[i].constraintId == rows[i].constraintId
      && after[i].persistenceKey == rows[i].persistenceKey && after[i].firstSeenAt == rows[i].firstSeenAt
  {
    RunEffect(rows, evaluations, at);
    hide ApplyAll, AtMostOneOpen, AfterRun;
    if Evaluates(evaluations, rows[i].constraintId) {
      var m :| 0 <= m < |evaluations| && evaluations[m].constraintId == rows[i].constraintId;
      AfterRunEvaluated(rows[i], evaluations, at, m);
      EvaluationKeepsIdentity(rows[i], evaluations[m], at);
    } else {
      AfterRunUnevaluated(rows[i], evaluations, at);
    }
  }

  lemma EvaluationKeepsIdentity(row: Opportunity, evaluation: Evaluation, at: Instant)
    ensures var after := AfterEvaluation(row, evaluation, at);
      && (row.status == Closed ==> after == row)
      && after.id == row.id && after.constraintId == row.constraintId
      && after.persistenceKey == row.persistenceKey && after.firstSeenAt == row.firstSeenAt
  {
  }
}
