/** The persisted order book and the live book cache, as values
    (src/constraint_scanner/db/repositories/orderbooks.py, ingestion/ws_consumer.py,
    ingestion/backfill.py, ingestion/feed_state.py). */
module BookStore {
  import opened Common
  import opened Sorting
  import opened ExecutablePricing

  /** One `orderbook_top` row; token and time are its key. */
  datatype Top = Top(bestBid: Option<BookLevel>, bestAsk: Option<BookLevel>, spreadBps: Option<real>)

  type TopKey = (int, Instant)

  /** One `orderbook_depth` row. Bids are what a seller consumes, asks what a buyer consumes. */
  datatype DepthRow = DepthRow(tokenId: int, observedAt: Instant, side: Side, level: nat, price: real, size: real)

  datatype FeedView = FeedView(
    books: map<int, BookSnapshot>, lastSeen: map<int, Instant>, tops: map<TopKey, Top>, depth: seq<DepthRow>)

  const EMPTY_FEED := FeedView(map[], map[], map[], [])

  // ---------------------------------------------------------------- writing

  /** An incoming book replaces a cached one only when it is at least as recent. */
  function CacheUpdate(books: map<int, BookSnapshot>, book: BookSnapshot): map<int, BookSnapshot> {
    if book.tokenId !in books || book.observedAt >= books[book.tokenId].observedAt then books[book.tokenId := book] else books
  }

  function MarkSeen(lastSeen: map<int, Instant>, tokenId: int, observedAt: Instant): map<int, Instant> {
    if tokenId !in lastSeen || observedAt >= lastSeen[tokenId] then lastSeen[tokenId := observedAt] else lastSeen
  }

  function First(levels: seq<BookLevel>): Option<BookLevel> {
    if levels == [] then None else Some(levels[0])
  }

  function TopOf(book: BookSnapshot): Top {
    var bid, ask := First(book.bids), First(book.asks);
    Top(bid, ask, if bid.Some? && ask.Some? then Some((ask.value.price - bid.value.price) * 10000.0) else None)
  }

  function Cut(levels: seq<BookLevel>, n: nat): seq<BookLevel> {
    if n <= |levels| then levels[..n] else levels
  }

  function CutBook(book: BookSnapshot, n: nat): BookSnapshot {
    book.(bids := Cut(book.bids, n), asks := Cut(book.asks, n))
  }

  /** Depth rows numbered from one, best level first. */
  function RowsOfSide(book: BookSnapshot, side: Side, levels: seq<BookLevel>): seq<DepthRow> {
    seq(|levels|, i requires 0 <= i < |levels| => DepthRow(book.tokenId, book.observedAt, side, i + 1, levels[i].price, levels[i].size))
  }

  function DepthRows(book: BookSnapshot, n: nat): seq<DepthRow> {
    RowsOfSide(book, Sell, Cut(book.bids, n)) + RowsOfSide(book, Buy, Cut(book.asks, n))
  }

  predicate AtKey(row: DepthRow, tokenId: int, observedAt: Instant) {
    row.tokenId == tokenId && row.observedAt == observedAt
  }

  function ReplaceDepth(depth: seq<DepthRow>, tokenId: int, observedAt: Instant, rows: seq<DepthRow>): seq<DepthRow> {
    Filter((r: DepthRow) => !AtKey(r, tokenId, observedAt), depth) + rows
  }

  function Persist(view: FeedView, book: BookSnapshot, n: nat): FeedView {
    view.(tops := view.tops[(book.tokenId, book.observedAt) := TopOf(book)],
          depth := ReplaceDepth(view.depth, book.tokenId, book.observedAt, DepthRows(book, n)))
  }

  function Observe(view: FeedView, book: BookSnapshot): FeedView {
    view.(books := CacheUpdate(view.books, book), lastSeen := MarkSeen(view.lastSeen, book.tokenId, book.observedAt))
  }

  /** One market event: its book, if it carries a resolvable one, reaches cache, feed state and store. */
  function HandleEvent(view: FeedView, book: Option<BookSnapshot>, n: nat): FeedView {
    if book.None? then view else Persist(Observe(view, book.value), book.value, n)
  }

  function HandleAll(view: FeedView, events: seq<Option<BookSnapshot>>, n: nat): FeedView {
    if events == [] then view else HandleEvent(HandleAll(view, events[..|events| - 1], n), events[|events| - 1], n)
  }

  // ---------------------------------------------------------------- reading

  ghost predicate IsLatest(tops: map<TopKey, Top>, tokenId: int, at: Instant) {
    (tokenId, at) in tops && forall other :: (tokenId, other) in tops ==> other <= at
  }

  function RowsAt(depth: seq<DepthRow>, tokenId: int, observedAt: Instant): seq<DepthRow> {
    Filter((r: DepthRow) => AtKey(r, tokenId, observedAt), depth)
  }

  /** Depth rows are read back ordered by side and level. */
  predicate BySideAndLevel(a: DepthRow, b: DepthRow) {
    (a.side != b.side && b.side == Buy) || (a.side == b.side && a.level <= b.level)
  }

  function ListDepth(depth: seq<DepthRow>, tokenId: int, observedAt: Instant): seq<DepthRow> {
    Sort(BySideAndLevel, RowsAt(depth, tokenId, observedAt))
  }

  function ToLevel(row: DepthRow): BookLevel { BookLevel(row.price, row.size) }

  predicate RowPrecedes(side: Side, a: DepthRow, b: DepthRow) {
    var x, y := ToLevel(a), ToLevel(b);
    Precedes(side, x, y) && (x == y ==> a.level <= b.level)
  }

  function RowOrder(side: Side): (DepthRow, DepthRow) -> bool {
    (a, b) => RowPrecedes(side, a, b)
  }

  function SideRows(rows: seq<DepthRow>, side: Side): seq<DepthRow> {
    Filter((r: DepthRow) => r.side == side, rows)
  }

  function RecoveredLevels(rows: seq<DepthRow>, side: Side): seq<BookLevel> {
    Map(ToLevel, Sort(RowOrder(side), SideRows(rows, side)))
  }

  /** The book rebuilt from the depth rows stored under one key. */
  function RecoveredBook(depth: seq<DepthRow>, tokenId: int, observedAt: Instant): BookSnapshot {
    var rows := ListDepth(depth, tokenId, observedAt);
    BookSnapshot(tokenId, observedAt, RecoveredLevels(rows, Sell), RecoveredLevels(rows, Buy))
  }

  // ---------------------------------------------------------------- the cache agrees with the store

  /** The cached book of a token is the most recent one stored, with the same top and depth. */
  ghost predicate TokenAgrees(view: FeedView, n: nat, t: int)
    requires t in view.books
  {
    && view.books[t].tokenId == t
    && IsLatest(view.tops, t, view.books[t].observedAt)
    && view.tops[(t, view.books[t].observedAt)] == TopOf(view.books[t])
    && RowsAt(view.depth, t, view.books[t].observedAt) == DepthRows(view.books[t], n)
  }

  ghost predicate Agrees(view: FeedView, n: nat) {
    && view.lastSeen.Keys == view.books.Keys
    && (forall key :: key in view.tops ==> key.0 in view.books)
    && (forall t :: t in view.books ==> view.lastSeen[t] == view.books[t].observedAt)
    && (forall t :: t in view.books ==> TokenAgrees(view, n, t))
  }

  /** Rows of one key after a replacement: the new rows under its own key, the old ones elsewhere. */
  lemma RowsAfterReplace(depth: seq<DepthRow>, tokenId: int, observedAt: Instant, rows: seq<DepthRow>, t: int, at: Instant)
    requires forall r :: r in rows ==> AtKey(r, tokenId, observedAt)
    ensures RowsAt(ReplaceDepth(depth, tokenId, observedAt, rows), t, at)
         == if t == tokenId && at == observedAt then rows else RowsAt(depth, t, at)
  {
    var mine := (r: DepthRow) => AtKey(r, t, at);
    var others := (r: DepthRow) => !AtKey(r, tokenId, observedAt);
    FilterSplit(mine, Filter(others, depth), rows);
    if t == tokenId && at == observedAt {
      FilterMembers(others, depth);
      FilterNone(mine, Filter(others, depth));
      FilterAll(mine, rows);
    } else {
      FilterNone(mine, rows);
      FilterTwice(mine, others, depth);
    }
  }

  lemma {:induction false} FilterNone<T>(keep: T -> bool, s: seq<T>)
    requires forall x :: x in s ==> !keep(x)
    ensures Filter(keep, s) == []
  {
    if s != [] { FilterNone(keep, s[1..]); }
  }

  lemma {:induction false} FilterAll<T>(keep: T -> bool, s: seq<T>)
    requires forall x :: x in s ==> keep(x)
    ensures Filter(keep, s) == s
  {
    if s != [] { FilterAll(keep, s[1..]); }
  }

  lemma {:induction false} FilterTwice<T(!new)>(first: T -> bool, second: T -> bool, s: seq<T>)
    requires forall x :: first(x) ==> second(x)
    ensures Filter(first, Filter(second, s)) == Filter(first, s)
  {
    if s != [] {
      FilterTwice(first, second, s[1..]);
      var f := Filter(second, s[1..]);
      assert ([s[0]] + f)[1..] == f;
    }
  }

  lemma DepthRowsAtKey(book: BookSnapshot, n: nat)
    ensures forall r :: r in DepthRows(book, n) ==> AtKey(r, book.tokenId, book.observedAt)
  {
  }

  /** Agreement is kept by every event: late, tied or new. */
  lemma EventKeepsAgreement(view: FeedView, event: Option<BookSnapshot>, n: nat)
    requires Agrees(view, n)
    ensures Agrees(HandleEvent(view, event, n), n)
  {
    if event.Some? {
      var after := HandleEvent(view, event, n);
      hide ReplaceDepth, RowsAt, DepthRows, TopOf, TokenAgrees;
      forall t | t in after.books ensures TokenAgrees(after, n, t) {
        EventKeepsToken(view, event.value, n, t);
      }
      forall t | t in after.books ensures after.lastSeen[t] == after.books[t].observedAt {
        if t in view.books { assert view.lastSeen[t] == view.books[t].observedAt; }
      }
    }
  }

  lemma EventKeepsToken(view: FeedView, book: BookSnapshot, n: nat, t: int)
    requires t in view.books ==> TokenAgrees(view, n, t)
    requires forall key :: key in view.tops ==> key.0 in view.books
    requires t in HandleEvent(view, Some(book), n).books
    ensures TokenAgrees(HandleEvent(view, Some(book), n), n, t)
  {
    hide ReplaceDepth, RowsAt, DepthRows, TopOf;
    var after := HandleEvent(view, Some(book), n);
    DepthRowsAtKey(book, n);
    RowsAfterReplace(view.depth, book.tokenId, book.observedAt, DepthRows(book, n), t, after.books[t].observedAt);
  }

  lemma {:induction false} EventsKeepAgreement(view: FeedView, events: seq<Option<BookSnapshot>>, n: nat)
    requires Agrees(view, n)
    ensures Agrees(HandleAll(view, events, n), n)
  {
    if events != [] {
      EventsKeepAgreement(view, events[..|events| - 1], n);
      EventKeepsAgreement(HandleAll(view, events[..|events| - 1], n), events[|events| - 1], n);
    }
  }

  /** Consecutive batches of events are one run. */
  lemma {:induction false} RunsCompose(view: FeedView, a: seq<Option<BookSnapshot>>, b: seq<Option<BookSnapshot>>, n: nat)
    ensures HandleAll(HandleAll(view, a, n), b, n) == HandleAll(view, a + b, n)
  {
    if b == [] {
      assert a + b == a;
    } else {
      RunsCompose(view, a, b[..|b| - 1], n);
      assert (a + b)[..|a + b| - 1] == a + b[..|b| - 1];
    }
  }

  // ---------------------------------------------------------------- recovery

  lemma RowOrderIsOrder(side: Side)
    ensures TotalPreorder(RowOrder(side))
  {
  }

  lemma {:induction false} MapSorted(side: Side, rows: seq<DepthRow>)
    requires Sorted(RowOrder(side), rows)
    ensures Sorted(ByPrice(side), Map(ToLevel, rows))
  {
    MapIndex(ToLevel, rows);
  }

  lemma MapRows(book: BookSnapshot, side: Side, levels: seq<BookLevel>)
    ensures Map(ToLevel, RowsOfSide(book, side, levels)) == levels
  {
    MapIndex(ToLevel, RowsOfSide(book, side, levels));
  }

  lemma SideRowsOfBook(book: BookSnapshot, n: nat, side: Side)
    ensures SideRows(DepthRows(book, n), side) == RowsOfSide(book, side, Cut(if side == Buy then book.asks else book.bids, n))
  {
    var onSide := (r: DepthRow) => r.side == side;
    var bids, asks := RowsOfSide(book, Sell, Cut(book.bids, n)), RowsOfSide(book, Buy, Cut(book.asks, n));
    FilterSplit(onSide, bids, asks);
    if side == Buy {
      FilterNone(onSide, bids);
      FilterAll(onSide, asks);
    } else {
      FilterAll(onSide, bids);
      FilterNone(onSide, asks);
    }
  }

  lemma BySideAndLevelIsOrder()
    ensures TotalPreorder(BySideAndLevel)
  {
  }

  /** One side of a recovered book is the stored cut of that side, sorted. */
  lemma RecoveredSide(rows: seq<DepthRow>, book: BookSnapshot, n: nat, side: Side)
    requires rows == Sort(BySideAndLevel, DepthRows(book, n))
    ensures RecoveredLevels(rows, side) == SortedLevels(Cut(if side == Buy then book.asks else book.bids, n), side)
  {
    var levels := Cut(if side == Buy then book.asks else book.bids, n);
    var stored := SideRows(DepthRows(book, n), side);
    var kept := SideRows(rows, side);
    SideRowsOfBook(book, n, side);
    MapRows(book, side, levels);
    assert multiset(rows) == multiset(DepthRows(book, n)) by {
      BySideAndLevelIsOrder();
      SortSorted(BySideAndLevel, DepthRows(book, n));
    }
    FilterMultiset((r: DepthRow) => r.side == side, rows, DepthRows(book, n));
    var sorted := Sort(RowOrder(side), kept);
    assert multiset(sorted) == multiset(kept) && Sorted(RowOrder(side), sorted) by {
      RowOrderIsOrder(side);
      SortSorted(RowOrder(side), kept);
    }
    MapMultiset(ToLevel, sorted, stored);
    MapSorted(side, sorted);
    assert multiset(Map(ToLevel, sorted)) == multiset(levels);
    SortedPermutation(side, Map(ToLevel, sorted), levels);
  }

  lemma SortedPermutation(side: Side, sorted: seq<BookLevel>, levels: seq<BookLevel>)
    requires Sorted(ByPrice(side), sorted) && multiset(sorted) == multiset(levels)
    ensures sorted == SortedLevels(levels, side)
  {
    ByPriceIsOrder(side);
    SortSorted(ByPrice(side), levels);
    SortedUnique(ByPrice(side), sorted, SortedLevels(levels, side));
  }

  /** Bids best first and asks best first, as the book normaliser leaves them. */
  ghost predicate SortedBook(book: BookSnapshot) {
    Sorted(ByPrice(Sell), book.bids) && Sorted(ByPrice(Buy), book.asks)
  }

  /** The book recovered for a token is its cached book cut to the stored depth and sorted; so it is
      the cut book itself exactly when the cut is sorted. */
  lemma RecoveredIsCutBook(view: FeedView, n: nat, t: int)
    requires Agrees(view, n) && t in view.books
    ensures var cut := CutBook(view.books[t], n);
      var recovered := RecoveredBook(view.depth, t, view.books[t].observedAt);
      && recovered == cut.(bids := SortedLevels(cut.bids, Sell), asks := SortedLevels(cut.asks, Buy))
      && (recovered == cut <==> SortedBook(cut))
  {
    var book := view.books[t];
    var cut := CutBook(book, n);
    assert TokenAgrees(view, n, t);
    var rows := ListDepth(view.depth, t, book.observedAt);
    RecoveredSide(rows, book, n, Buy);
    RecoveredSide(rows, book, n, Sell);
    LevelsAreSorted(cut.bids, Sell);
    LevelsAreSorted(cut.asks, Buy);
    if SortedBook(cut) {
      SortIdentity(ByPrice(Sell), cut.bids);
      SortIdentity(ByPrice(Buy), cut.asks);
    }
  }

  lemma CutKeepsSorted(book: BookSnapshot, n: nat)
    requires SortedBook(book)
    ensures SortedBook(CutBook(book, n))
  {
  }

  /** The top row stored with a book holds the best level of each side that has levels, and the spread
      between them in basis points of a dollar exactly when both sides have. */
  lemma {:induction false} StoredTopIsBest(view: FeedView, book: BookSnapshot, n: nat)
    requires SortedBook(book)
    ensures var after, key := HandleEvent(view, Some(book), n), (book.tokenId, book.observedAt);
      && key in after.tops
      && var bid, ask, spread := after.tops[key].bestBid, after.tops[key].bestAsk, after.tops[key].spreadBps;
      && (bid.Some? <==> book.bids != []) && (ask.Some? <==> book.asks != [])
      && (bid.Some? ==> bid.value in book.bids && forall level :: level in book.bids ==> level.price <= bid.value.price)
      && (ask.Some? ==> ask.value in book.asks && forall level :: level in book.asks ==> ask.value.price <= level.price)
      && (spread.Some? <==> book.bids != [] && book.asks != [])
      && (spread.Some? ==> spread.value / 10000.0 == ask.value.price - bid.value.price)
  {
    hide ReplaceDepth, DepthRows, SortedBook, CacheUpdate, MarkSeen;
    FirstLevelsAreBest(book);
  }

  lemma {:induction false} FirstLevelsAreBest(book: BookSnapshot)
    requires SortedBook(book)
    ensures forall level :: level in book.bids ==> level.price <= book.bids[0].price
    ensures forall level :: level in book.asks ==> book.asks[0].price <= level.price
  {
    forall level | level in book.bids ensures level.price <= book.bids[0].price {
      var i :| 0 <= i < |book.bids| && book.bids[i] == level;
      assert i == 0 || ByPrice(Sell)(book.bids[0], book.bids[i]);
    }
    forall level | level in book.asks ensures book.asks[0].price <= level.price {
      var i :| 0 <= i < |book.asks| && book.asks[i] == level;
      assert i == 0 || ByPrice(Buy)(book.asks[0], book.asks[i]);
    }
  }

  /** Row `i` of a side: its price and size, numbered from one, if it is among the stored levels. */
  ghost predicate IsStoredLevel(row: DepthRow, side: Side, levels: seq<BookLevel>, n: nat, i: int) {
    && 0 <= i < |levels| && i < n
    && row.side == side && row.level == i + 1 && row.price == levels[i].price && row.size == levels[i].size
  }

  /** The depth stored with a book: the first levels of each side, as many as configured, numbered
      from one; other tokens and other times keep theirs. */
  lemma {:induction false} StoredDepthIsBook(view: FeedView, book: BookSnapshot, n: nat, row: DepthRow)
    ensures var depth := HandleEvent(view, Some(book), n).depth;
      row in depth <==>
        if row.tokenId == book.tokenId && row.observedAt == book.observedAt then
          exists i :: IsStoredLevel(row, Sell, book.bids, n, i) || IsStoredLevel(row, Buy, book.asks, n, i)
        else row in view.depth
  {
    FilterMembers((r: DepthRow) => !AtKey(r, book.tokenId, book.observedAt), view.depth);
    hide Filter;
    var bids, asks := RowsOfSide(book, Sell, Cut(book.bids, n)), RowsOfSide(book, Buy, Cut(book.asks, n));
    StoredSide(book, Sell, book.bids, n, row);
    StoredSide(book, Buy, book.asks, n, row);
    hide RowsOfSide, Cut, IsStoredLevel, CacheUpdate, MarkSeen;
    if row.tokenId == book.tokenId && row.observedAt == book.observedAt {
      if i :| IsStoredLevel(row, Sell, book.bids, n, i) { assert row in bids; }
      if i :| IsStoredLevel(row, Buy, book.asks, n, i) { assert row in asks; }
    }
  }

  lemma {:induction false} StoredSide(book: BookSnapshot, side: Side, levels: seq<BookLevel>, n: nat, row: DepthRow)
    ensures row in RowsOfSide(book, side, Cut(levels, n)) <==>
      row.tokenId == book.tokenId && row.observedAt == book.observedAt && exists i :: IsStoredLevel(row, side, levels, n, i)
  {
    var rows := RowsOfSide(book, side, Cut(levels, n));
    if row in rows {
      var i :| 0 <= i < |rows| && rows[i] == row;
      assert IsStoredLevel(row, side, levels, n, i);
    }
    if i :| IsStoredLevel(row, side, levels, n, i) {
      if row.tokenId == book.tokenId && row.observedAt == book.observedAt { assert rows[i] == row; }
    }
  }
}
