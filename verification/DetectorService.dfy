/** Detector runs over the stored opportunities
    (src/constraint_scanner/detection/detector_service.py, db/repositories/opportunities.py). */
module DetectorServices {
  import opened Common
  import opened ExecutablePricing
  import opened BasketPricing
  import opened Templates
  import opened Opportunities
  import opened Detection
  import opened OpportunityStore
  import opened Lifecycle
  import opened Ingestion

  datatype LoadedConstraint = LoadedConstraint(constraintId: int, groupId: Option<int>, context: Context, confidence: real)

  function Evaluations(hash: KeyHash, settings: Settings, constraints: seq<LoadedConstraint>, books: Books): seq<Evaluation> {
    seq(|constraints|, i requires 0 <= i < |constraints| =>
      Evaluation(constraints[i].constraintId, constraints[i].groupId,
                 DetectCombinatorial(hash, settings, constraints[i].context, books, constraints[i].confidence)))
  }

  function FoundCount(evaluations: seq<Evaluation>): nat {
    if evaluations == [] then 0
    else FoundCount(evaluations[..|evaluations| - 1]) + if evaluations[|evaluations| - 1].outcome.Found? then 1 else 0
  }

  class OpportunitiesRepository {
    var rows: Rows

    constructor ()
      ensures rows == []
    {
      rows := [];
    }

    method GetOpenByPersistenceKey(constraintId: int, key: string) returns (found: Option<nat>)
      ensures found == OpenIndex(rows, constraintId, key)
    {
      found := None;
      for i := 0 to |rows|
        invariant found == OpenIndex(rows[..i], constraintId, key)
      {
        assert rows[..i + 1][..i] == rows[..i];
        if OpenUnder(rows[i], constraintId, key) {
          found := Some(i);
        }
      }
      assert rows[..|rows|] == rows;
    }

    /** Overwrites the fields of the open row under the key, or inserts a row with the next id. */
    method UpsertOpenOpportunity(constraintId: int, key: string, defaults: Opportunity)
      requires defaults.constraintId == constraintId && defaults.persistenceKey == key
      modifies this
      ensures var i := OpenIndex(old(rows), constraintId, key);
        rows == if i.Some? then old(rows)[i.value := defaults.(id := old(rows)[i.value].id)]
                else old(rows) + [defaults.(id := |old(rows)|)]
    {
      var i := GetOpenByPersistenceKey(constraintId, key);
      if i.Some? {
        rows := rows[i.value := defaults.(id := rows[i.value].id)];
      } else {
        rows := rows + [defaults.(id := |rows|)];
      }
    }

    method CloseOpenForConstraint(constraintId: int, observed: set<string>, closedAt: Instant) returns (closed: seq<nat>)
      modifies this
      ensures rows == CloseOpen(old(rows), constraintId, observed, closedAt)
      ensures forall i :: i in closed <==>
        0 <= i < |old(rows)| && OpenFor(old(rows)[i], constraintId) && old(rows)[i].persistenceKey !in observed
    {
      closed := [];
      ghost var before := rows;
      for i := 0 to |rows|
        invariant |rows| == |before|
        invariant rows[..i] == CloseOpen(before, constraintId, observed, closedAt)[..i] && rows[i..] == before[i..]
        invariant forall k :: k in closed <==> 0 <= k < i && OpenFor(before[k], constraintId) && before[k].persistenceKey !in observed
      {
        assert rows[i] == before[i] by { assert rows[i..][0] == before[i..][0]; }
        assert rows[i + 1..] == rows[i..][1..] && before[i + 1..] == before[i..][1..];
        if OpenFor(rows[i], constraintId) && rows[i].persistenceKey !in observed {
          rows := rows[i := CloseRow(rows[i], closedAt)];
          closed := closed + [i];
        }
      }
    }
  }

  class DetectorService {
    const hash: KeyHash
    const settings: Settings
    const cache: LatestBookCache
    const repository: OpportunitiesRepository

    constructor (hash: KeyHash, settings: Settings, cache: LatestBookCache, repository: OpportunitiesRepository)
      ensures this.hash == hash && this.settings == settings && this.cache == cache && this.repository == repository
    {
      this.hash, this.settings, this.cache, this.repository := hash, settings, cache, repository;
    }

    /** One detector run over the active constraints, against the books currently cached. */
    method Run(constraints: seq<LoadedConstraint>, detectedAt: Instant) returns (detected: nat, rejected: nat)
      modifies repository
      ensures repository.rows == ApplyAll(old(repository.rows), Evaluations(hash, settings, constraints, cache.books), detectedAt)
      ensures detected == FoundCount(Evaluations(hash, settings, constraints, cache.books)) && rejected == |constraints| - detected
    {
      hide DetectCombinatorial, OpenRow, CloseOpen, OpenIndex;
      var books := cache.books;
      ghost var evaluations := Evaluations(hash, settings, constraints, books);
      ghost var before := repository.rows;
      detected, rejected := 0, 0;
      for i := 0 to |constraints|
        invariant repository.rows == ApplyAll(before, evaluations[..i], detectedAt)
        invariant detected == FoundCount(evaluations[..i]) && rejected == i - detected
      {
        assert evaluations[..i + 1][..i] == evaluations[..i];
        ghost var rows := repository.rows;
        var c := constraints[i];
        var outcome := DetectCombinatorial(hash, settings, c.context, books, c.confidence);
        var evaluation := Evaluation(c.constraintId, c.groupId, outcome);
        assert evaluations[i] == evaluation;
        if outcome.Rejected? {
          var _ := repository.CloseOpenForConstraint(c.constraintId, {}, detectedAt);
          rejected := rejected + 1;
        } else {
          var finding := outcome.finding;
          var key := finding.persistenceKey;
          var existing := repository.GetOpenByPersistenceKey(c.constraintId, key);
          var row := OpenRow(evaluation, finding, if existing.Some? then Some(repository.rows[existing.value]) else None, 0, detectedAt);
          RowForAnyId(evaluation, finding, if existing.Some? then Some(rows[existing.value]) else None, detectedAt);
          repository.UpsertOpenOpportunity(c.constraintId, key, row);
          assert repository.rows == UpsertOpen(rows, evaluation, finding, detectedAt);
          var _ := repository.CloseOpenForConstraint(c.constraintId, {key}, detectedAt);
          detected := detected + 1;
        }
        assert repository.rows == Apply(rows, evaluation, detectedAt);
      }
      assert evaluations[..|constraints|] == evaluations;
    }
  }

  lemma RowForAnyId(evaluation: Evaluation, finding: Finding, existing: Option<Opportunity>, at: Instant)
    ensures var row := OpenRow(evaluation, finding, existing, 0, at);
      && row.constraintId == evaluation.constraintId && row.persistenceKey == finding.persistenceKey
      && forall id :: OpenRow(evaluation, finding, existing, id, at) == row.(id := id)
  {
  }

  // ---------------------------------------------------------------- what the stored rows carry

  /** One recorded run of the service: the constraints loaded, the books seen and the time. */
  datatype ServiceRun = ServiceRun(constraints: seq<LoadedConstraint>, books: Books, at: Instant)

  function AsRuns(hash: KeyHash, settings: Settings, history: seq<ServiceRun>): Runs {
    seq(|history|, i requires 0 <= i < |history| =>
      Run(Evaluations(hash, settings, history[i].constraints, history[i].books), history[i].at))
  }

  /** The rows after a whole history of service runs, starting from an empty table. */
  function StoredRows(hash: KeyHash, settings: Settings, history: seq<ServiceRun>): Rows {
    RowsAfter(AsRuns(hash, settings, history))
  }

  /** Constraint ids are primary keys: one run loads each constraint at most once. */
  ghost predicate ProperHistory(history: seq<ServiceRun>) {
    forall r :: 0 <= r < |history| ==>
      forall i, j :: 0 <= i < j < |history[r].constraints| ==>
        history[r].constraints[i].constraintId != history[r].constraints[j].constraintId
  }

  lemma ProperHistoryIsProper(hash: KeyHash, settings: Settings, history: seq<ServiceRun>)
    requires ProperHistory(history)
    ensures ProperRuns(AsRuns(hash, settings, history))
  {
    hide DetectCombinatorial;
  }

  /** The lifecycle theorem for the service's own runs: every stored row has a span of runs that
      accounts for its status, timestamps and sighting count, and the spans of one constraint do
      not overlap. */
  lemma ServiceHistoryExplained(hash: KeyHash, settings: Settings, history: seq<ServiceRun>) returns (spans: seq<Span>)
    requires ProperHistory(history)
    ensures AtMostOneOpen(StoredRows(hash, settings, history))
    ensures Explains(AsRuns(hash, settings, history), StoredRows(hash, settings, history), spans)
  {
    ProperHistoryIsProper(hash, settings, history);
    spans := HistoryExplained(AsRuns(hash, settings, history));
  }

  ghost predicate TimesNonDecreasing(history: seq<ServiceRun>) {
    forall i, j :: 0 <= i < j < |history| ==> history[i].at <= history[j].at
  }

  /** Stored rows were first seen, last seen and closed in this order. */
  lemma StoredTimestampsOrdered(hash: KeyHash, settings: Settings, history: seq<ServiceRun>, i: nat)
    requires ProperHistory(history) && TimesNonDecreasing(history) && i < |StoredRows(hash, settings, history)|
    ensures var row := StoredRows(hash, settings, history)[i];
      && row.firstSeenAt <= row.lastSeenAt
      && (row.status == Closed <==> row.closedAt.Some?)
      && (row.closedAt.Some? ==> row.lastSeenAt <= row.closedAt.value)
  {
    hide Evaluations;
    ProperHistoryIsProper(hash, settings, history);
    TimestampsOrdered(AsRuns(hash, settings, history), i);
  }

  /** Of two stored rows of one constraint the older was closed before the younger was first seen. */
  lemma StoredIntervalsDisjoint(hash: KeyHash, settings: Settings, history: seq<ServiceRun>, i: nat, j: nat)
    requires ProperHistory(history) && TimesNonDecreasing(history) && i < j < |StoredRows(hash, settings, history)|
    requires StoredRows(hash, settings, history)[i].constraintId == StoredRows(hash, settings, history)[j].constraintId
    ensures var rows := StoredRows(hash, settings, history);
      rows[i].closedAt.Some? && rows[i].closedAt.value <= rows[j].firstSeenAt
  {
    hide Evaluations;
    ProperHistoryIsProper(hash, settings, history);
    OpenIntervalsDisjoint(AsRuns(hash, settings, history), i, j);
  }

  /** Every row carries the detector pricing of the finding that last refreshed it. */
  ghost predicate PricedRows(rows: Rows) {
    forall i :: 0 <= i < |rows| ==> rows[i].id == i && DetectorPricing(rows[i].details)
  }

  ghost predicate SoundFindings(evaluations: seq<Evaluation>) {
    forall m :: 0 <= m < |evaluations| && evaluations[m].outcome.Found? ==> DetectorPricing(evaluations[m].outcome.finding.details)
  }

  lemma LifecycleKeepsPricing(details: Details, lifecycle: Option<Opportunities.Lifecycle>)
    requires DetectorPricing(details)
    ensures DetectorPricing(details.(lifecycle := lifecycle))
  {
  }

  lemma ApplyKeepsPricing(rows: Rows, evaluation: Evaluation, at: Instant)
    requires PricedRows(rows)
    requires evaluation.outcome.Found? ==> DetectorPricing(evaluation.outcome.finding.details)
    ensures PricedRows(Apply(rows, evaluation, at))
  {
    hide DetectorPricing;
    var after := Apply(rows, evaluation, at);
    forall i | 0 <= i < |after| ensures after[i].id == i && DetectorPricing(after[i].details) {
      if i < |rows| { LifecycleKeepsPricing(rows[i].details, after[i].details.lifecycle); }
      if evaluation.outcome.Found? { LifecycleKeepsPricing(evaluation.outcome.finding.details, after[i].details.lifecycle); }
    }
  }

  lemma {:induction false} ApplyAllKeepsPricing(rows: Rows, evaluations: seq<Evaluation>, at: Instant)
    requires PricedRows(rows) && SoundFindings(evaluations)
    ensures PricedRows(ApplyAll(rows, evaluations, at))
  {
    hide PricedRows, DetectorPricing, Apply;
    if evaluations != [] {
      var n := |evaluations| - 1;
      assert SoundFindings(evaluations[..n]);
      ApplyAllKeepsPricing(rows, evaluations[..n], at);
      ApplyKeepsPricing(ApplyAll(rows, evaluations[..n], at), evaluations[n], at);
    }
  }

  lemma EvaluationsAreSound(hash: KeyHash, settings: Settings, constraints: seq<LoadedConstraint>, books: Books)
    ensures SoundFindings(Evaluations(hash, settings, constraints, books))
  {
    hide DetectCombinatorial, DetectorPricing;
    var evaluations := Evaluations(hash, settings, constraints, books);
    forall m | 0 <= m < |evaluations| && evaluations[m].outcome.Found?
      ensures DetectorPricing(evaluations[m].outcome.finding.details)
    {
      FindingIsArbitrage(hash, settings, constraints[m].context, books, constraints[m].confidence);
    }
  }

  /** In every reachable table each row has the position as id and detector-produced pricing. */
  lemma {:induction false} StoredRowsArePriced(hash: KeyHash, settings: Settings, history: seq<ServiceRun>)
    ensures PricedRows(StoredRows(hash, settings, history))
  {
    hide PricedRows, ApplyAll, Evaluations;
    if history == [] {
      assert PricedRows([]) by { NoRowsPriced(); }
    } else {
      var n := |history| - 1;
      var init, last := history[..n], history[n];
      StoredRowsArePriced(hash, settings, init);
      assert AsRuns(hash, settings, history)[..n] == AsRuns(hash, settings, init);
      EvaluationsAreSound(hash, settings, last.constraints, last.books);
      ApplyAllKeepsPricing(StoredRows(hash, settings, init), Evaluations(hash, settings, last.constraints, last.books), last.at);
    }
  }

  lemma NoRowsPriced()
    ensures PricedRows([])
  {
  }
}
