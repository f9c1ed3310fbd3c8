/** The history of opportunity rows over any sequence of detector runs. */
module Lifecycle {
  import opened Common
  import opened Opportunities
  import opened Detection
  import opened OpportunityStore

  datatype Run = Run(evaluations: seq<Evaluation>, at: Instant)

  type Runs = seq<Run>

  function RowsAfter(runs: Runs): Rows {
    if runs == [] then []
    else ApplyAll(RowsAfter(runs[..|runs| - 1]), runs[|runs| - 1].evaluations, runs[|runs| - 1].at)
  }

  ghost predicate ProperRuns(runs: Runs) {
    forall r :: 0 <= r < |runs| ==> DistinctConstraints(runs[r].evaluations)
  }

  ghost predicate NonDecreasing(runs: Runs) {
    forall i, j :: 0 <= i < j < |runs| ==> runs[i].at <= runs[j].at
  }

  /** How many of the runs in `from..to` detect the key. */
  ghost function Detections(runs: Runs, constraintId: int, key: string, from: nat, to: nat): nat
    requires from <= to <= |runs|
  {
    if from == to then 0
    else
      var earlier := Detections(runs, constraintId, key, from, to - 1);
      if Detects(runs[to - 1].evaluations, constraintId, key) then earlier + 1 else earlier
  }

  /** The last run in `from..to` that detects the key, given that run `from` does. */
  ghost function LastDetection(runs: Runs, constraintId: int, key: string, from: nat, to: nat): (r: nat)
    requires from < to <= |runs|
    ensures from <= r < to
  {
    if to == from + 1 || Detects(runs[to - 1].evaluations, constraintId, key) then to - 1
    else LastDetection(runs, constraintId, key, from, to - 1)
  }

  /** The runs over which a row was open: from the run that opened it up to the one that closed it. */
  datatype Span = Span(start: nat, end: nat)

  /** The row records exactly what happened to its key during its span. */
  ghost predicate Records(runs: Runs, row: Opportunity, span: Span) {
    var c, k := row.constraintId, row.persistenceKey;
    && span.start < span.end <= |runs|
    && Detects(runs[span.start].evaluations, c, k)
    && (forall r :: span.start <= r < span.end && Evaluates(runs[r].evaluations, c) ==> Detects(runs[r].evaluations, c, k))
    && row.details.lifecycle.Some?
    && row.details.lifecycle.value.seenCount == Detections(runs, c, k, span.start, span.end)
    && row.details.lifecycle.value.persistenceKey == k
    && row.firstSeenAt == runs[span.start].at == row.details.lifecycle.value.firstSeenAt
    && row.lastSeenAt == runs[LastDetection(runs, c, k, span.start, span.end)].at == row.details.lifecycle.value.lastSeenAt
    && row.closedAt == row.details.lifecycle.value.closedAt
    && (row.status == Open ==> span.end == |runs| && row.closedAt == None)
    && (row.status == Closed ==>
          && span.end < |runs|
          && Evaluates(runs[span.end].evaluations, c)
          && !Detects(runs[span.end].evaluations, c, k)
          && row.closedAt == Some(runs[span.end].at))
  }

  ghost predicate Explains(runs: Runs, rows: Rows, spans: seq<Span>) {
    && |spans| == |rows|
    && (forall i :: 0 <= i < |rows| ==> rows[i].id == i && Records(runs, rows[i], spans[i]))
    && (forall i, j :: 0 <= i < j < |rows| && rows[i].constraintId == rows[j].constraintId ==>
          rows[i].status == Closed && spans[i].end <= spans[j].start)
  }

  lemma {:induction false} PrefixCounts(runs: Runs, more: Run, c: int, k: string, from: nat, to: nat)
    requires from <= to <= |runs|
    ensures Detections(runs + [more], c, k, from, to) == Detections(runs, c, k, from, to)
    ensures from < to ==> LastDetection(runs + [more], c, k, from, to) == LastDetection(runs, c, k, from, to)
  {
    if from < to {
      PrefixCounts(runs, more, c, k, from, to - 1);
      assert (runs + [more])[to - 1] == runs[to - 1];
    }
  }

  /** A closed row keeps its record when another run follows. */
  lemma ClosedRowKeepsRecord(runs: Runs, more: Run, row: Opportunity, span: Span)
    requires Records(runs, row, span) && row.status == Closed
    ensures Records(runs + [more], row, span)
  {
    PrefixCounts(runs, more, row.constraintId, row.persistenceKey, span.start, span.end);
    var all := runs + [more];
    assert forall r :: 0 <= r < |runs| ==> all[r] == runs[r];
  }

  lemma ConfirmedMeansDetected(evaluations: seq<Evaluation>, m: nat, key: string)
    requires DistinctConstraints(evaluations) && m < |evaluations|
    ensures Detects(evaluations, evaluations[m].constraintId, key) <==> Confirms(evaluations[m], key)
  {
  }

  /** An open row is refreshed, closed or left alone by the next run, and its span follows. */
  lemma OpenRowFollows(runs: Runs, more: Run, row: Opportunity, span: Span) returns (next: Span)
    requires Records(runs, row, span) && row.status == Open && DistinctConstraints(more.evaluations)
    ensures var after := AfterRun(row, more.evaluations, more.at);
      && Records(runs + [more], after, next) && next.start == span.start && next.end >= span.end
      && after.id == row.id && after.constraintId == row.constraintId
      && (after.status == Closed ==> next.end == |runs|)
  {
    var c, k := row.constraintId, row.persistenceKey;
    var all := runs + [more];
    assert forall r :: 0 <= r < |runs| ==> all[r] == runs[r];
    assert all[|runs|] == more;
    PrefixCounts(runs, more, c, k, span.start, span.end);
    if Evaluates(more.evaluations, c) {
      var m :| 0 <= m < |more.evaluations| && more.evaluations[m].constraintId == c;
      AfterRunEvaluated(row, more.evaluations, more.at, m);
      ConfirmedMeansDetected(more.evaluations, m, k);
      next := if Confirms(more.evaluations[m], k) then Span(span.start, span.end + 1) else span;
    } else {
      AfterRunUnevaluated(row, more.evaluations, more.at);
      assert !Detects(more.evaluations, c, k);
      next := Span(span.start, span.end + 1);
    }
  }

  /** A row opened by the latest run starts a span of one run. */
  lemma NewRowStarts(runs: Runs, more: Run, m: nat, id: int)
    requires m < |more.evaluations| && more.evaluations[m].outcome.Found?
    ensures var e := more.evaluations[m];
      Records(runs + [more], OpenRow(e, e.outcome.finding, None, id, more.at), Span(|runs|, |runs| + 1))
  {
    var e := more.evaluations[m];
    var c, k := e.constraintId, e.outcome.finding.persistenceKey;
    var all := runs + [more];
    assert all[|runs|] == more;
    assert Confirms(more.evaluations[m], k);
    assert Detects(all[|runs|].evaluations, c, k);
    assert Detections(all, c, k, |runs|, |runs|) == 0;
  }

  lemma SpansFollow(runs: Runs, more: Run, rows: Rows, spans: seq<Span>) returns (next: seq<Span>)
    requires Explains(runs, rows, spans) && AtMostOneOpen(rows) && DistinctConstraints(more.evaluations)
    ensures |next| == |rows|
    ensures forall i :: 0 <= i < |rows| ==>
      var after := AfterRun(rows[i], more.evaluations, more.at);
      && Records(runs + [more], after, next[i]) && after.id == i && after.constraintId == rows[i].constraintId
      && next[i].start == spans[i].start
      && (rows[i].status == Closed ==> after == rows[i] && next[i] == spans[i])
      && (after.status == Closed ==> next[i].end <= |runs|)
  {
    hide Records, AfterRun;
    next := [];
    for n := 0 to |rows|
      invariant |next| == n
      invariant forall i :: 0 <= i < n ==>
        var after := AfterRun(rows[i], more.evaluations, more.at);
        && Records(runs + [more], after, next[i]) && after.id == i && after.constraintId == rows[i].constraintId
        && next[i].start == spans[i].start
        && (rows[i].status == Closed ==> after == rows[i] && next[i] == spans[i])
        && (after.status == Closed ==> next[i].end <= |runs|)
    {
      var span: Span;
      if rows[n].status == Closed {
        AfterRunUnevaluated(rows[n], more.evaluations, more.at);
        ClosedRowKeepsRecord(runs, more, rows[n], spans[n]);
        SpanInRuns(runs, rows[n], spans[n]);
        span := spans[n];
      } else {
        span := OpenRowFollows(runs, more, rows[n], spans[n]);
      }
      next := next + [span];
    }
  }

  lemma SpanInRuns(runs: Runs, row: Opportunity, span: Span)
    requires Records(runs, row, span)
    ensures span.start < span.end <= |runs| && (row.status == Closed ==> span.end < |runs|)
  {
  }

  /** Rows of one constraint follow each other: an older one is closed, at the latest by the run
      that opens the younger one. */
  lemma OlderRowsEnd(runs: Runs, more: Run, rows: Rows, i: nat, j: nat)
    requires AtMostOneOpen(rows) && DistinctConstraints(more.evaluations)
    requires var after := ApplyAll(rows, more.evaluations, more.at);
      i < |rows| <= j < |after| && after[i].constraintId == after[j].constraintId
    ensures ApplyAll(rows, more.evaluations, more.at)[i].status == Closed
  {
    var after := ApplyAll(rows, more.evaluations, more.at);
    RunEffect(rows, more.evaluations, more.at);
    assert OpenedBy(after, |rows|, more.evaluations, more.at, j);
    assert after[j].status == Open;
    assert after[i].status != Open;
  }

  lemma OpenedRowRecorded(runs: Runs, more: Run, rows: Rows, j: nat)
    requires AtMostOneOpen(rows) && DistinctConstraints(more.evaluations)
    requires |rows| <= j < |ApplyAll(rows, more.evaluations, more.at)|
    ensures var row := ApplyAll(rows, more.evaluations, more.at)[j];
      row.id == j && row.status == Open && Records(runs + [more], row, Span(|runs|, |runs| + 1))
  {
    hide Records, ApplyAll;
    var after := ApplyAll(rows, more.evaluations, more.at);
    RunEffect(rows, more.evaluations, more.at);
    assert OpenedBy(after, |rows|, more.evaluations, more.at, j);
    var m :| 0 <= m < |more.evaluations| && more.evaluations[m].outcome.Found?
      && after[j] == OpenRow(more.evaluations[m], more.evaluations[m].outcome.finding, None, j, more.at);
    NewRowStarts(runs, more, m, j);
  }

  lemma HistoryStep(runs: Runs, more: Run, rows: Rows, spans: seq<Span>) returns (next: seq<Span>)
    requires Explains(runs, rows, spans) && AtMostOneOpen(rows) && DistinctConstraints(more.evaluations)
    ensures Explains(runs + [more], ApplyAll(rows, more.evaluations, more.at), next)
  {
    hide Records, AfterRun, ApplyAll;
    var after := ApplyAll(rows, more.evaluations, more.at);
    RunEffect(rows, more.evaluations, more.at);
    var kept := SpansFollow(runs, more, rows, spans);
    next := kept + seq(|after| - |rows|, _ => Span(|runs|, |runs| + 1));
    forall j | |rows| <= j < |after| ensures after[j].id == j && after[j].status == Open && Records(runs + [more], after[j], next[j]) {
      OpenedRowRecorded(runs, more, rows, j);
    }
    forall i, j | 0 <= i < j < |after| && after[i].constraintId == after[j].constraintId
      ensures after[i].status == Closed && next[i].end <= next[j].start
    {
      if i < |rows| <= j {
        OlderRowsEnd(runs, more, rows, i, j);
      }
    }
  }

  /** The lifecycle theorem: over any sequence of detector runs, every row has a span of runs that
      accounts for its timestamps, its status and its sighting count, and the spans of one
      constraint do not overlap. */
  lemma {:induction false} HistoryExplained(runs: Runs) returns (spans: seq<Span>)
    requires ProperRuns(runs)
    ensures AtMostOneOpen(RowsAfter(runs))
    ensures Explains(runs, RowsAfter(runs), spans)
  {
    hide Explains, ApplyAll;
    if runs == [] {
      spans := [];
      NothingToExplain();
    } else {
      var n := |runs| - 1;
      var earlier := HistoryExplained(runs[..n]);
      assert runs[..n] + [runs[n]] == runs;
      RunEffect(RowsAfter(runs[..n]), runs[n].evaluations, runs[n].at);
      spans := HistoryStep(runs[..n], runs[n], RowsAfter(runs[..n]), earlier);
    }
  }

  lemma NothingToExplain()
    ensures Explains([], [], [])
  {
  }

  /** With runs at non-decreasing times, first sighting, last sighting and closing are in order. */
  lemma TimestampsOrdered(runs: Runs, i: nat)
    requires ProperRuns(runs) && NonDecreasing(runs) && i < |RowsAfter(runs)|
    ensures var row := RowsAfter(runs)[i];
      && row.firstSeenAt <= row.lastSeenAt
      && (row.status == Closed <==> row.closedAt.Some?)
      && (row.closedAt.Some? ==> row.lastSeenAt <= row.closedAt.value)
  {
    var spans := HistoryExplained(runs);
    assert Records(runs, RowsAfter(runs)[i], spans[i]);
  }

  /** Open intervals of one constraint do not overlap in time either. */
  lemma OpenIntervalsDisjoint(runs: Runs, i: nat, j: nat)
    requires ProperRuns(runs) && NonDecreasing(runs) && i < j < |RowsAfter(runs)|
    requires RowsAfter(runs)[i].constraintId == RowsAfter(runs)[j].constraintId
    ensures var rows := RowsAfter(runs);
      rows[i].closedAt.Some? && rows[i].closedAt.value <= rows[j].firstSeenAt
  {
    var spans := HistoryExplained(runs);
    var rows := RowsAfter(runs);
    assert Records(runs, rows[i], spans[i]) && Records(runs, rows[j], spans[j]);
    hide RowsAfter, AtMostOneOpen, ProperRuns;
    ClosedBefore(runs, rows[i], spans[i]);
    SeenFrom(runs, rows[j], spans[j]);
  }

  lemma ClosedBefore(runs: Runs, row: Opportunity, span: Span)
    requires Records(runs, row, span) && row.status == Closed
    ensures span.end < |runs| && row.closedAt == Some(runs[span.end].at)
  {
    hide Detections, LastDetection;
  }

  lemma SeenFrom(runs: Runs, row: Opportunity, span: Span)
    requires Records(runs, row, span)
    ensures span.start < |runs| && row.firstSeenAt == runs[span.start].at
  {
    hide Detections, LastDetection;
  }
}
