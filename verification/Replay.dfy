/** Deterministic replay of archived feed messages
    (src/constraint_scanner/replay/replay_feed.py). */
module Replay {
  import opened Common
  import opened Sorting
  import opened ExecutablePricing
  import opened BookStore
  import opened Ingestion

  /** An archived message. `payload` is its canonical JSON text, with sorted keys. */
  datatype ReplayRecord = ReplayRecord(
    channel: string, messageType: Option<string>, receivedAt: Instant, sequenceNumber: Option<int>, payload: string)

  /** The normaliser: the book a payload carries, if any, already keyed by internal token id. For
      payloads that carry a timestamp it depends on the payload alone. */
  type Normalizer = string -> Option<BookSnapshot>

  datatype SortKey = SortKey(receivedAt: Instant, sequenceNumber: int, payload: string)

  function KeyOf(record: ReplayRecord): SortKey {
    SortKey(record.receivedAt, if record.sequenceNumber.Some? then record.sequenceNumber.value else 0, record.payload)
  }

  /** Lexicographic order of strings by code point. */
  predicate TextLeq(a: string, b: string) {
    a == [] || (b != [] && (a[0] < b[0] || (a[0] == b[0] && TextLeq(a[1..], b[1..]))))
  }

  lemma {:induction false} TextTotal(a: string, b: string)
    ensures TextLeq(a, b) || TextLeq(b, a)
    ensures TextLeq(a, b) && TextLeq(b, a) ==> a == b
  {
    if a != [] && b != [] && a[0] == b[0] {
      TextTotal(a[1..], b[1..]);
      assert a == [a[0]] + a[1..] && b == [b[0]] + b[1..];
    }
  }

  lemma {:induction false} TextTransitive(a: string, b: string, c: string)
    requires TextLeq(a, b) && TextLeq(b, c)
    ensures TextLeq(a, c)
  {
    if a != [] && a[0] == b[0] && b[0] == c[0] {
      TextTransitive(a[1..], b[1..], c[1..]);
    }
  }

  predicate KeyLeq(a: SortKey, b: SortKey) {
    || a.receivedAt < b.receivedAt
    || (a.receivedAt == b.receivedAt && (a.sequenceNumber < b.sequenceNumber
    || (a.sequenceNumber == b.sequenceNumber && TextLeq(a.payload, b.payload))))
  }

  lemma KeyLeqIsOrder()
    ensures TotalPreorder(KeyLeq) && Antisymmetric(KeyLeq)
  {
    forall a: SortKey, b: SortKey ensures KeyLeq(a, b) || KeyLeq(b, a) {
      TextTotal(a.payload, b.payload);
    }
    forall a: SortKey, b: SortKey | KeyLeq(a, b) && KeyLeq(b, a) ensures a == b {
      TextTotal(a.payload, b.payload);
    }
    forall a: SortKey, b: SortKey, c: SortKey | KeyLeq(a, b) && KeyLeq(b, c) ensures KeyLeq(a, c) {
      if a.receivedAt == b.receivedAt == c.receivedAt && a.sequenceNumber == b.sequenceNumber == c.sequenceNumber {
        TextTransitive(a.payload, b.payload, c.payload);
      }
    }
  }

  predicate ReplayBefore(a: ReplayRecord, b: ReplayRecord) { KeyLeq(KeyOf(a), KeyOf(b)) }

  lemma ReplayBeforeIsOrder()
    ensures TotalPreorder(ReplayBefore)
  {
    KeyLeqIsOrder();
    forall a, b ensures ReplayBefore(a, b) || ReplayBefore(b, a) {
      assert KeyLeq(KeyOf(a), KeyOf(b)) || KeyLeq(KeyOf(b), KeyOf(a));
    }
    forall a, b, c | ReplayBefore(a, b) && ReplayBefore(b, c) ensures ReplayBefore(a, c) {
      assert KeyLeq(KeyOf(a), KeyOf(b)) && KeyLeq(KeyOf(b), KeyOf(c));
    }
  }

  predicate OnMarketChannel(record: ReplayRecord) { record.channel == "market" }

  function ReplayOrder(records: seq<ReplayRecord>): seq<ReplayRecord> {
    Sort(ReplayBefore, records)
  }

  /** The events a replay feeds to the consumer, in order. */
  function ReplayEvents(normalize: Normalizer, ordered: seq<ReplayRecord>): seq<Option<BookSnapshot>> {
    if ordered == [] then []
    else
      var init, last := ReplayEvents(normalize, ordered[..|ordered| - 1]), ordered[|ordered| - 1];
      if OnMarketChannel(last) then init + [normalize(last.payload)] else init
  }

  function EffectiveTime(ordered: seq<ReplayRecord>, replayedAt: Option<Instant>, now: Instant): Instant {
    if replayedAt.Some? then replayedAt.value
    else if ordered != [] then ordered[|ordered| - 1].receivedAt
    else now
  }

  /** Replays records through the live consumer. `now` is the wall clock, used for empty input only. */
  method ReplayRecords(service: MarketFeedService, normalize: Normalizer, records: seq<ReplayRecord>,
                       replayedAt: Option<Instant>, now: Instant)
    returns (replayed: nat, effective: Instant)
    modifies service.cache, service.feedState, service.repository
    ensures service.View() == HandleAll(old(service.View()), ReplayEvents(normalize, ReplayOrder(records)), service.maxDepthLevels)
    ensures replayed == |ReplayEvents(normalize, ReplayOrder(records))|
    ensures effective == EffectiveTime(ReplayOrder(records), replayedAt, now)
  {
    var ordered := ReplayOrder(records);
    ghost var start := service.View();
    replayed := 0;
    for i := 0 to |ordered|
      invariant service.View() == HandleAll(start, ReplayEvents(normalize, ordered[..i]), service.maxDepthLevels)
      invariant replayed == |ReplayEvents(normalize, ordered[..i])|
    {
      assert ordered[..i + 1][..i] == ordered[..i];
      ghost var events := ReplayEvents(normalize, ordered[..i]);
      if OnMarketChannel(ordered[i]) {
        var book := normalize(ordered[i].payload);
        service.HandleMarketEvent(book);
        assert (events + [book])[..|events|] == events;
        replayed := replayed + 1;
      }
    }
    assert ordered[..|ordered|] == ordered;
    effective := EffectiveTime(ordered, replayedAt, now);
  }

  // ---------------------------------------------------------------- order-insensitivity

  function BookIn(normalize: Normalizer): SortKey -> Option<BookSnapshot> {
    (key: SortKey) => normalize(key.payload)
  }

  /** The events of a replay depend on the sort keys of its market records only. */
  lemma {:induction false} EventsFromKeys(normalize: Normalizer, ordered: seq<ReplayRecord>)
    ensures ReplayEvents(normalize, ordered) == Map(BookIn(normalize), Map(KeyOf, Filter(OnMarketChannel, ordered)))
  {
    if ordered != [] {
      var init, last := ordered[..|ordered| - 1], ordered[|ordered| - 1];
      EventsFromKeys(normalize, init);
      FilterSplit(OnMarketChannel, init, [last]);
      assert ordered == init + [last] && [last][1..] == [];
      if OnMarketChannel(last) {
        MapSplit(KeyOf, Filter(OnMarketChannel, init), [last]);
        MapSplit(BookIn(normalize), Map(KeyOf, Filter(OnMarketChannel, init)), [KeyOf(last)]);
        assert Filter(OnMarketChannel, [last]) == [last] && [KeyOf(last)][1..] == [];
        assert Map(KeyOf, [last]) == [KeyOf(last)];
        assert Map(BookIn(normalize), [KeyOf(last)]) == [normalize(last.payload)];
      } else {
        assert Filter(OnMarketChannel, init) + [] == Filter(OnMarketChannel, init);
      }
    }
  }

  lemma KeysSorted(records: seq<ReplayRecord>)
    requires Sorted(ReplayBefore, records)
    ensures Sorted(KeyLeq, Map(KeyOf, records))
  {
    MapIndex(KeyOf, records);
  }

  /** Permuted inputs are replayed with the same sequence of sort keys. */
  lemma SameKeys(a: seq<ReplayRecord>, b: seq<ReplayRecord>)
    requires multiset(a) == multiset(b)
    ensures Map(KeyOf, ReplayOrder(a)) == Map(KeyOf, ReplayOrder(b))
  {
    ReplayBeforeIsOrder();
    SortSorted(ReplayBefore, a);
    SortSorted(ReplayBefore, b);
    KeysSorted(ReplayOrder(a));
    KeysSorted(ReplayOrder(b));
    MapMultiset(KeyOf, ReplayOrder(a), ReplayOrder(b));
    KeyLeqIsOrder();
    SortedUnique(KeyLeq, Map(KeyOf, ReplayOrder(a)), Map(KeyOf, ReplayOrder(b)));
  }

  lemma MarketKeys(a: seq<ReplayRecord>)
    ensures Filter(OnMarketChannel, ReplayOrder(a)) == ReplayOrder(Filter(OnMarketChannel, a))
  {
    ReplayBeforeIsOrder();
    FilterSort(ReplayBefore, OnMarketChannel, a);
  }

  /** Replay is order-insensitive: two permutations of the same records leave the same cache, feed
      state and store, process the same number of events and continue at the same time. */
  lemma ReplayIgnoresInputOrder(normalize: Normalizer, a: seq<ReplayRecord>, b: seq<ReplayRecord>, start: FeedView, n: nat,
                                replayedAt: Option<Instant>, now: Instant)
    requires multiset(a) == multiset(b)
    ensures ReplayEvents(normalize, ReplayOrder(a)) == ReplayEvents(normalize, ReplayOrder(b))
    ensures HandleAll(start, ReplayEvents(normalize, ReplayOrder(a)), n) == HandleAll(start, ReplayEvents(normalize, ReplayOrder(b)), n)
    ensures EffectiveTime(ReplayOrder(a), replayedAt, now) == EffectiveTime(ReplayOrder(b), replayedAt, now)
  {
    EventsFromKeys(normalize, ReplayOrder(a));
    EventsFromKeys(normalize, ReplayOrder(b));
    MarketKeys(a);
    MarketKeys(b);
    FilterMultiset(OnMarketChannel, a, b);
    SameKeys(Filter(OnMarketChannel, a), Filter(OnMarketChannel, b));
    SameKeys(a, b);
    MapIndex(KeyOf, ReplayOrder(a));
    MapIndex(KeyOf, ReplayOrder(b));
    var i := |ReplayOrder(a)| - 1;
    if i >= 0 {
      assert Map(KeyOf, ReplayOrder(a))[i] == Map(KeyOf, ReplayOrder(b))[i];
    }
  }

  // ---------------------------------------------------------------- the order itself

  ghost predicate DiffersAt(a: string, b: string, k: nat) {
    k < |a| && k < |b| && a[..k] == b[..k] && a[k] < b[k]
  }

  /** Text is compared at the first place where it differs; a prefix comes first. */
  lemma {:induction false} TextLeqExactly(a: string, b: string)
    ensures TextLeq(a, b) <==> a <= b || exists k: nat :: DiffersAt(a, b, k)
  {
    if a != [] && b != [] && a[0] == b[0] {
      TextLeqExactly(a[1..], b[1..]);
      SameHead(a, b);
    } else if a != [] && b != [] {
      OtherHead(a, b);
    }
  }

  lemma {:induction false} OtherHead(a: string, b: string)
    requires a != [] && b != [] && a[0] != b[0]
    ensures (exists k: nat :: DiffersAt(a, b, k)) <==> a[0] < b[0]
  {
    if a[0] < b[0] {
      assert DiffersAt(a, b, 0);
    }
    forall k: nat | 0 < k <= |a| && k <= |b| ensures a[..k] != b[..k] {
      assert a[..k][0] == a[0] && b[..k][0] == b[0];
    }
  }

  lemma {:induction false} SameHead(a: string, b: string)
    requires a != [] && b != [] && a[0] == b[0]
    ensures a <= b <==> a[1..] <= b[1..]
    ensures (exists k: nat :: DiffersAt(a, b, k)) <==> exists k: nat :: DiffersAt(a[1..], b[1..], k)
  {
    forall k: nat ensures DiffersAt(a, b, k + 1) <==> DiffersAt(a[1..], b[1..], k) {
      if k + 1 <= |a| && k + 1 <= |b| {
        assert a[..k + 1] == [a[0]] + a[1..][..k] && b[..k + 1] == [b[0]] + b[1..][..k];
        assert a[1..][..k] == a[..k + 1][1..] && b[1..][..k] == b[..k + 1][1..];
      }
    }
    if k: nat :| DiffersAt(a, b, k) {
      assert k == (k - 1) + 1;
      assert DiffersAt(a[1..], b[1..], k - 1);
    }
    if k: nat :| DiffersAt(a[1..], b[1..], k) {
      assert DiffersAt(a, b, k + 1);
    }
  }

  /** Records are replayed from the earliest to the latest, those received together by sequence
      number; and where no time is given, the run continues at the latest time received. */
  lemma ReplayIsChronological(records: seq<ReplayRecord>, now: Instant)
    ensures var ordered := ReplayOrder(records);
      && multiset(ordered) == multiset(records)
      && (forall i, j :: 0 <= i < j < |ordered| ==> Received(ordered[i], ordered[j]))
      && var effective := EffectiveTime(ordered, None, now);
      && (records == [] ==> effective == now)
      && (records != [] ==> exists r :: r in records && r.receivedAt == effective)
      && (forall r :: r in records ==> r.receivedAt <= effective)
  {
    hide Sort, ReplayBefore;
    ReplayOrderSorts(records);
    EndsAtLast(ReplayOrder(records), now);
    var ordered := ReplayOrder(records);
    forall r ensures r in records <==> r in ordered {
      assert r in multiset(records) <==> r in multiset(ordered);
    }
    assert |multiset(ordered)| == |multiset(records)|;
  }

  lemma {:induction false} ReplayOrderSorts(records: seq<ReplayRecord>)
    ensures multiset(ReplayOrder(records)) == multiset(records)
    ensures forall i, j :: 0 <= i < j < |ReplayOrder(records)| ==> Received(ReplayOrder(records)[i], ReplayOrder(records)[j])
  {
    ReplayBeforeIsOrder();
    SortSorted(ReplayBefore, records);
    hide Sort, TextLeq, TotalPreorder;
    forall i, j | 0 <= i < j < |ReplayOrder(records)| ensures Received(ReplayOrder(records)[i], ReplayOrder(records)[j]) {
      assert ReplayBefore(ReplayOrder(records)[i], ReplayOrder(records)[j]);
    }
  }

  lemma {:induction false} EndsAtLast(ordered: seq<ReplayRecord>, now: Instant)
    requires forall i, j :: 0 <= i < j < |ordered| ==> Received(ordered[i], ordered[j])
    ensures var effective := EffectiveTime(ordered, None, now);
      && (ordered == [] ==> effective == now)
      && (ordered != [] ==> exists r :: r in ordered && r.receivedAt == effective)
      && (forall r :: r in ordered ==> r.receivedAt <= effective)
  {
    if ordered != [] {
      assert ordered[|ordered| - 1] in ordered;
      forall r | r in ordered ensures r.receivedAt <= ordered[|ordered| - 1].receivedAt {
        var i :| 0 <= i < |ordered| && ordered[i] == r;
        assert i == |ordered| - 1 || Received(ordered[i], ordered[|ordered| - 1]);
      }
    }
  }

  /** Received earlier, or at the same time with no higher a sequence number. */
  ghost predicate Received(a: ReplayRecord, b: ReplayRecord) {
    a.receivedAt < b.receivedAt || (a.receivedAt == b.receivedAt && Numbered(a) <= Numbered(b))
  }

  /** A record's sequence number; those without one come first. */
  function Numbered(record: ReplayRecord): int {
    match record.sequenceNumber
    case Some(number) => number
    case None => 0
  }
}
