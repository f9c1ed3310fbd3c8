/** Stored simulation rows and the queries that pick the authoritative one
    (src/constraint_scanner/db/repositories/simulations.py). */
module SimulationStore {
  import opened Common
  import opened FillModel

  /** The parts of a row's JSON payload that the risk gate reads; a part is missing when it is
      absent or has the wrong type. */
  datatype SummaryPayload = SummaryPayload(
    runId: Option<string>, classification: Option<Classification>, flags: Option<set<Flag>>, hasResult: bool)

  datatype SimulatedExecution = SimulatedExecution(
    id: nat, opportunityId: int, runId: string, summary: bool, executedAt: Instant, payload: Option<SummaryPayload>)

  type Simulations = seq<SimulatedExecution>

  /** Descending order of execution time, then of id. */
  predicate Later(a: SimulatedExecution, b: SimulatedExecution) {
    a.executedAt > b.executedAt || (a.executedAt == b.executedAt && a.id > b.id)
  }

  function LatestWhere(rows: Simulations, keep: SimulatedExecution -> bool): (r: Option<SimulatedExecution>)
    ensures r.Some? ==> r.value in rows && keep(r.value) && forall s :: s in rows && keep(s) ==> !Later(s, r.value)
    ensures r.None? ==> forall s :: s in rows ==> !keep(s)
  {
    if rows == [] then None
    else
      var best, last := LatestWhere(rows[..|rows| - 1], keep), rows[|rows| - 1];
      assert forall s :: s in rows ==> s in rows[..|rows| - 1] || s == last;
      if keep(last) && (best.None? || Later(last, best.value)) then Some(last) else best
  }

  function IsSummaryOf(opportunityId: int): SimulatedExecution -> bool {
    (s: SimulatedExecution) => s.opportunityId == opportunityId && s.summary
  }

  function HasRunId(runId: string): SimulatedExecution -> bool {
    (s: SimulatedExecution) => s.runId == runId
  }

  function LatestSummary(rows: Simulations, opportunityId: int): Option<SimulatedExecution> {
    LatestWhere(rows, IsSummaryOf(opportunityId))
  }

  function AnyByRunId(rows: Simulations, runId: string): Option<SimulatedExecution> {
    LatestWhere(rows, HasRunId(runId))
  }

  /** Ids are positions and a run id occurs once per opportunity. */
  ghost predicate ValidRows(rows: Simulations) {
    && (forall i :: 0 <= i < |rows| ==> rows[i].id == i)
    && forall i, j :: 0 <= i < j < |rows| ==> rows[i].opportunityId != rows[j].opportunityId || rows[i].runId != rows[j].runId
  }

  function RunIndex(rows: Simulations, opportunityId: int, runId: string): (r: Option<nat>)
    ensures r.Some? ==> r.value < |rows| && rows[r.value].opportunityId == opportunityId && rows[r.value].runId == runId
    ensures r.None? ==> forall s :: s in rows ==> s.opportunityId != opportunityId || s.runId != runId
  {
    if rows == [] then None
    else
      var last := rows[|rows| - 1];
      assert forall s :: s in rows ==> s in rows[..|rows| - 1] || s == last;
      if last.opportunityId == opportunityId && last.runId == runId then Some(|rows| - 1)
      else RunIndex(rows[..|rows| - 1], opportunityId, runId)
  }

  /** Writes the summary of one run: in place where the run is known, else as a new row. */
  function UpsertSummary(rows: Simulations, opportunityId: int, runId: string, executedAt: Instant, payload: SummaryPayload): Simulations {
    var i := RunIndex(rows, opportunityId, runId);
    if i.Some? then rows[i.value := rows[i.value].(summary := true, executedAt := executedAt, payload := Some(payload))]
    else rows + [SimulatedExecution(|rows|, opportunityId, runId, true, executedAt, Some(payload))]
  }

  /** The row an upsert writes. */
  function WrittenRow(rows: Simulations, opportunityId: int, runId: string, executedAt: Instant, payload: SummaryPayload): SimulatedExecution {
    var i := RunIndex(rows, opportunityId, runId);
    SimulatedExecution(if i.Some? then rows[i.value].id else |rows|, opportunityId, runId, true, executedAt, Some(payload))
  }

  lemma UpsertKeepsValid(rows: Simulations, opportunityId: int, runId: string, executedAt: Instant, payload: SummaryPayload)
    requires ValidRows(rows)
    ensures ValidRows(UpsertSummary(rows, opportunityId, runId, executedAt, payload))
  {
  }

  lemma UpsertMembers(rows: Simulations, opportunityId: int, runId: string, executedAt: Instant, payload: SummaryPayload)
    requires ValidRows(rows)
    ensures var after, written := UpsertSummary(rows, opportunityId, runId, executedAt, payload), WrittenRow(rows, opportunityId, runId, executedAt, payload);
      forall s :: s in after <==> s == written || (s in rows && (s.opportunityId != opportunityId || s.runId != runId))
  {
    var after, written := UpsertSummary(rows, opportunityId, runId, executedAt, payload), WrittenRow(rows, opportunityId, runId, executedAt, payload);
    var i := RunIndex(rows, opportunityId, runId);
    var k := if i.Some? then i.value else |rows|;
    assert after[k] == written;
    forall s | s in rows && (s.opportunityId != opportunityId || s.runId != runId) ensures s in after {
      var m :| 0 <= m < |rows| && rows[m] == s;
      assert after[m] == s;
    }
    forall s | s in after && s != written ensures s in rows && (s.opportunityId != opportunityId || s.runId != runId) {
      var m :| 0 <= m < |after| && after[m] == s;
      assert m != k && after[m] == rows[m];
    }
  }

  lemma IdsDiffer(rows: Simulations, s: SimulatedExecution, t: SimulatedExecution)
    requires ValidRows(rows) && s in rows && t in rows && s != t
    ensures s.id != t.id
  {
  }

  /** A written summary becomes the authoritative one exactly when no other summary of its
      opportunity was executed after it, nor at the same time under a higher id. */
  lemma UpsertedIsLatestExactly(rows: Simulations, opportunityId: int, runId: string, executedAt: Instant, payload: SummaryPayload)
    requires ValidRows(rows)
    ensures var latest := LatestSummary(UpsertSummary(rows, opportunityId, runId, executedAt, payload), opportunityId);
      var id := WrittenRow(rows, opportunityId, runId, executedAt, payload).id;
      && latest.Some?
      && (latest.value.runId == runId <==>
            forall s :: s in rows && s.opportunityId == opportunityId && s.summary && s.runId != runId ==>
              s.executedAt < executedAt || (s.executedAt == executedAt && s.id < id))
  {
    UpsertKeepsValid(rows, opportunityId, runId, executedAt, payload);
    UpsertMembers(rows, opportunityId, runId, executedAt, payload);
    hide UpsertSummary, RunIndex, ValidRows, LatestWhere;
    var after, written := UpsertSummary(rows, opportunityId, runId, executedAt, payload), WrittenRow(rows, opportunityId, runId, executedAt, payload);
    assert written in after && IsSummaryOf(opportunityId)(written);
    var latest := LatestSummary(after, opportunityId).value;
    assert latest in after && IsSummaryOf(opportunityId)(latest);
    forall s | s in rows && s.opportunityId == opportunityId && s.summary && s.runId != runId
      ensures s in after && IsSummaryOf(opportunityId)(s) && s.id != written.id
    {
      IdsDiffer(after, s, written);
    }
  }

  lemma {:induction false} OthersUntouched(rows: Simulations, opportunityId: int, runId: string, executedAt: Instant,
                                           payload: SummaryPayload, other: int)
    requires other != opportunityId
    ensures LatestSummary(UpsertSummary(rows, opportunityId, runId, executedAt, payload), other) == LatestSummary(rows, other)
  {
    var i := RunIndex(rows, opportunityId, runId);
    if i.Some? {
      var row := rows[i.value].(summary := true, executedAt := executedAt, payload := Some(payload));
      ReplacedElsewhere(rows, i.value, row, IsSummaryOf(other));
    } else {
      var row := SimulatedExecution(|rows|, opportunityId, runId, true, executedAt, Some(payload));
      assert (rows + [row])[..|rows|] == rows;
    }
  }

  lemma {:induction false} ReplacedElsewhere(rows: Simulations, i: nat, row: SimulatedExecution, keep: SimulatedExecution -> bool)
    requires i < |rows| && !keep(rows[i]) && !keep(row)
    ensures LatestWhere(rows[i := row], keep) == LatestWhere(rows, keep)
  {
    var n := |rows| - 1;
    if i == n {
      assert rows[i := row][..n] == rows[..n];
    } else {
      ReplacedElsewhere(rows[..n], i, row, keep);
      assert rows[i := row][..n] == rows[..n][i := row];
    }
  }

  /** The row a run id names is the opportunity's authoritative summary exactly when that
      summary carries the run id and no row of another opportunity carries it with a later time. */
  lemma RunIdNamesLatestExactly(rows: Simulations, opportunityId: int, runId: string)
    requires ValidRows(rows)
    ensures (AnyByRunId(rows, runId).Some? && AnyByRunId(rows, runId) == LatestSummary(rows, opportunityId))
      <==>
        var latest := LatestSummary(rows, opportunityId);
        && latest.Some?
        && latest.value.runId == runId
        && forall s :: s in rows && s.runId == runId && s.opportunityId != opportunityId ==> !Later(s, latest.value)
  {
    var latest, any := LatestSummary(rows, opportunityId), AnyByRunId(rows, runId);
    if latest.Some? && latest.value.runId == runId {
      assert HasRunId(runId)(latest.value);
      if any.Some? && any != latest {
        var i :| 0 <= i < |rows| && rows[i] == latest.value;
        var j :| 0 <= j < |rows| && rows[j] == any.value;
        assert rows[i].id != rows[j].id;
      }
    }
  }

  class SimulationsRepository {
    var rows: Simulations

    constructor ()
      ensures rows == []
    {
      rows := [];
    }

    method UpsertSummaryExecution(opportunityId: int, runId: string, executedAt: Instant, payload: SummaryPayload)
      modifies this
      ensures rows == UpsertSummary(old(rows), opportunityId, runId, executedAt, payload)
    {
      var existing := RunIndex(rows, opportunityId, runId);
      if existing.Some? {
        var row := rows[existing.value].(summary := true);
        rows := rows[existing.value := row.(executedAt := executedAt, payload := Some(payload))];
      } else {
        rows := rows + [SimulatedExecution(|rows|, opportunityId, runId, true, executedAt, Some(payload))];
      }
    }
  }
}
