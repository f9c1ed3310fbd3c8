/** The live feed: latest-book cache, feed freshness, order-book repository, event handling,
    snapshots and recovery (src/constraint_scanner/ingestion). */
module Ingestion {
  import opened Common
  import opened Sorting
  import opened ExecutablePricing
  import opened BookStore

  class LatestBookCache {
    var books: map<int, BookSnapshot>

    constructor ()
      ensures books == map[]
    {
      books := map[];
    }

    method Update(book: BookSnapshot)
      modifies this
      ensures books == CacheUpdate(old(books), book)
    {
      if book.tokenId !in books || book.observedAt >= books[book.tokenId].observedAt {
        books := books[book.tokenId := book];
      }
    }

    method Get(tokenId: int) returns (book: Option<BookSnapshot>)
      ensures book == if tokenId in books then Some(books[tokenId]) else None
    {
      book := if tokenId in books then Some(books[tokenId]) else None;
    }

    /** The cached books in ascending token order. */
    method Items() returns (items: seq<(int, BookSnapshot)>)
      ensures forall i, j :: 0 <= i < j < |items| ==> items[i].0 < items[j].0
      ensures forall t, b :: (t, b) in items <==> t in books && books[t] == b
    {
      var tokens := InAscendingOrder(books.Keys);
      assert forall t :: t in tokens <==> t in books;
      items := seq(|tokens|, i requires 0 <= i < |tokens| && (forall t :: t in tokens ==> t in books) reads this => (tokens[i], books[tokens[i]]));
      forall t | t in books ensures (t, books[t]) in items {
        var i :| 0 <= i < |tokens| && tokens[i] == t;
        assert items[i] == (t, books[t]);
      }
    }
  }

  class FeedState {
    const staleAfter: int
    var lastSeen: map<int, Instant>

    constructor (staleAfterSeconds: int)
      ensures lastSeen == map[] && staleAfter == staleAfterSeconds * MICROSECONDS_PER_SECOND
    {
      staleAfter := staleAfterSeconds * MICROSECONDS_PER_SECOND;
      lastSeen := map[];
    }

    method Mark(tokenId: int, observedAt: Instant)
      modifies this
      ensures lastSeen == MarkSeen(old(lastSeen), tokenId, observedAt)
    {
      if tokenId !in lastSeen || observedAt >= lastSeen[tokenId] {
        lastSeen := lastSeen[tokenId := observedAt];
      }
    }

    method LatestUpdateAt() returns (latest: Option<Instant>)
      ensures latest.None? <==> lastSeen == map[]
      ensures latest.Some? ==> exists t :: t in lastSeen && lastSeen[t] == latest.value
      ensures latest.Some? ==> forall t :: t in lastSeen ==> lastSeen[t] <= latest.value
    {
      latest := None;
      var tokens := InAscendingOrder(lastSeen.Keys);
      for i := 0 to |tokens|
        invariant latest.None? <==> i == 0
        invariant latest.Some? ==> exists j :: 0 <= j < i && lastSeen[tokens[j]] == latest.value
        invariant latest.Some? ==> forall j :: 0 <= j < i ==> lastSeen[tokens[j]] <= latest.value
      {
        assert tokens[i] in tokens;
        if latest.None? || lastSeen[tokens[i]] > latest.value {
          latest := Some(lastSeen[tokens[i]]);
        }
      }
      if tokens == [] {
        assert forall t :: t in lastSeen ==> t in tokens;
      } else {
        assert tokens[0] in tokens;
      }
    }

    method StaleTokenIds(now: Instant) returns (stale: seq<int>)
      ensures Ascending(stale)
      ensures forall t :: t in stale <==> t in lastSeen && lastSeen[t] < now - staleAfter
    {
      stale := InAscendingOrder(set t | t in lastSeen && lastSeen[t] < now - staleAfter);
    }
  }

  class OrderbooksRepository {
    var tops: map<TopKey, Top>
    var depth: seq<DepthRow>

    constructor ()
      ensures tops == map[] && depth == []
    {
      tops, depth := map[], [];
    }

    method CreateTopSnapshot(tokenId: int, observedAt: Instant, top: Top)
      modifies this
      ensures tops == old(tops)[(tokenId, observedAt) := top] && depth == old(depth)
    {
      tops := tops[(tokenId, observedAt) := top];
    }

    method ReplaceDepthSnapshot(tokenId: int, observedAt: Instant, rows: seq<DepthRow>)
      modifies this
      ensures depth == ReplaceDepth(old(depth), tokenId, observedAt, rows) && tops == old(tops)
    {
      depth := Filter((r: DepthRow) => !AtKey(r, tokenId, observedAt), depth);
      ghost var kept := depth;
      for i := 0 to |rows|
        invariant depth == kept + rows[..i] && tops == old(tops)
      {
        depth := depth + [rows[i]];
      }
    }

    method GetLatestTop(tokenId: int) returns (latest: Option<Instant>)
      ensures latest.None? <==> forall at :: (tokenId, at) !in tops
      ensures latest.Some? ==> IsLatest(tops, tokenId, latest.value)
    {
      latest := None;
      var left := tops.Keys;
      while left != {}
        invariant left <= tops.Keys
        invariant latest.None? ==> forall at :: (tokenId, at) in tops ==> (tokenId, at) in left
        invariant latest.Some? ==> (tokenId, latest.value) in tops
        invariant latest.Some? ==> forall at :: (tokenId, at) in tops ==> (tokenId, at) in left || at <= latest.value
        decreases left
      {
        var key :| key in left;
        if key.0 == tokenId && (latest.None? || key.1 > latest.value) {
          latest := Some(key.1);
        }
        left := left - {key};
      }
    }
  }

  /** Store one book: its best levels and its depth, cut to the configured number of levels. */
  method PersistBook(repository: OrderbooksRepository, book: BookSnapshot, maxDepthLevels: nat)
    modifies repository
    ensures var view := FeedView(map[], map[], old(repository.tops), old(repository.depth));
      repository.tops == Persist(view, book, maxDepthLevels).tops && repository.depth == Persist(view, book, maxDepthLevels).depth
  {
    repository.CreateTopSnapshot(book.tokenId, book.observedAt, TopOf(book));
    repository.ReplaceDepthSnapshot(book.tokenId, book.observedAt, DepthRows(book, maxDepthLevels));
  }

  // ---------------------------------------------------------------- snapshots as a second writer

  function ByToken(a: BookSnapshot, b: BookSnapshot): bool { a.tokenId <= b.tokenId }

  function PersistAll(view: FeedView, books: seq<BookSnapshot>, n: nat): FeedView {
    if books == [] then view else Persist(PersistAll(view, books[..|books| - 1], n), books[|books| - 1], n)
  }

  function ObserveAll(view: FeedView, books: seq<BookSnapshot>): FeedView {
    if books == [] then view else Observe(ObserveAll(view, books[..|books| - 1]), books[|books| - 1])
  }

  /** Snapshots are stored in the order received and cached in token order. */
  function SnapshotAll(view: FeedView, books: seq<BookSnapshot>, n: nat): FeedView {
    ObserveAll(PersistAll(view, books, n), Sort(ByToken, books))
  }

  function AsEvents(books: seq<BookSnapshot>): seq<Option<BookSnapshot>> {
    seq(|books|, i requires 0 <= i < |books| => Some(books[i]))
  }

  function OfToken(t: int): BookSnapshot -> bool {
    (b: BookSnapshot) => b.tokenId == t
  }

  lemma {:induction false} ObserveSplits(view: FeedView, a: seq<BookSnapshot>, b: seq<BookSnapshot>)
    ensures ObserveAll(view, a + b) == ObserveAll(ObserveAll(view, a), b)
  {
    if b == [] {
      assert a + b == a;
    } else {
      ObserveSplits(view, a, b[..|b| - 1]);
      assert (a + b)[..|a + b| - 1] == a + b[..|b| - 1];
    }
  }

  function BookOf(view: FeedView, t: int): Option<BookSnapshot> {
    if t in view.books then Some(view.books[t]) else None
  }

  function SeenOf(view: FeedView, t: int): Option<Instant> {
    if t in view.lastSeen then Some(view.lastSeen[t]) else None
  }

  /** Only a token's own books, in their own order, decide what is cached for it. */
  lemma {:induction false} ObservePerToken(view: FeedView, books: seq<BookSnapshot>, t: int)
    ensures BookOf(ObserveAll(view, books), t) == BookOf(ObserveAll(view, Filter(OfToken(t), books)), t)
    ensures SeenOf(ObserveAll(view, books), t) == SeenOf(ObserveAll(view, Filter(OfToken(t), books)), t)
    ensures ObserveAll(view, books).tops == view.tops && ObserveAll(view, books).depth == view.depth
  {
    if books != [] {
      var init, last := books[..|books| - 1], books[|books| - 1];
      ObservePerToken(view, init, t);
      KeptOfToken(init, last, t);
      ObserveStep(ObserveAll(view, init), last, t);
      ObserveStep(ObserveAll(view, Filter(OfToken(t), init)), last, t);
      hide Observe, BookOf, SeenOf, Filter;
      assert books == init + [last];
      var kept := Filter(OfToken(t), init);
      assert (kept + [last])[..|kept|] == kept;
    }
  }

  lemma KeptOfToken(init: seq<BookSnapshot>, last: BookSnapshot, t: int)
    ensures Filter(OfToken(t), init + [last])
         == if last.tokenId == t then Filter(OfToken(t), init) + [last] else Filter(OfToken(t), init)
  {
    FilterSplit(OfToken(t), init, [last]);
    assert [last][1..] == [];
    assert Filter(OfToken(t), init) + [] == Filter(OfToken(t), init);
  }

  /** What one observation does to one token. */
  lemma ObserveStep(view: FeedView, book: BookSnapshot, t: int)
    ensures var after := Observe(view, book);
      && after.tops == view.tops && after.depth == view.depth
      && (book.tokenId != t ==> BookOf(after, t) == BookOf(view, t) && SeenOf(after, t) == SeenOf(view, t))
      && (book.tokenId == t ==>
            && BookOf(after, t) == (if BookOf(view, t).None? || book.observedAt >= BookOf(view, t).value.observedAt
                                    then Some(book) else BookOf(view, t))
            && SeenOf(after, t) == (if SeenOf(view, t).None? || book.observedAt >= SeenOf(view, t).value
                                    then Some(book.observedAt) else SeenOf(view, t)))
  {
  }

  lemma ByTokenIsOrder()
    ensures TotalPreorder(ByToken)
  {
  }

  lemma SameFeed(a: FeedView, b: FeedView)
    requires a.tops == b.tops && a.depth == b.depth
    requires forall t :: BookOf(a, t) == BookOf(b, t) && SeenOf(a, t) == SeenOf(b, t)
    ensures a == b
  {
    forall t ensures (t in a.books <==> t in b.books) && (t in a.books ==> a.books[t] == b.books[t]) {
      assert BookOf(a, t) == BookOf(b, t);
    }
    forall t ensures (t in a.lastSeen <==> t in b.lastSeen) && (t in a.lastSeen ==> a.lastSeen[t] == b.lastSeen[t]) {
      assert SeenOf(a, t) == SeenOf(b, t);
    }
    assert a.books == b.books && a.lastSeen == b.lastSeen;
  }

  lemma TokenOrderPerToken(books: seq<BookSnapshot>, t: int)
    ensures Filter(OfToken(t), Sort(ByToken, books)) == Filter(OfToken(t), books)
  {
    var mine := Filter(OfToken(t), books);
    FilterMembers(OfToken(t), books);
    forall i | 0 <= i < |mine| ensures mine[i].tokenId == t {
      assert mine[i] in mine;
    }
    SortIdentity(ByToken, mine);
    ByTokenIsOrder();
    FilterSort(ByToken, OfToken(t), books);
  }

  /** Caching snapshots in token order is caching them in the order received. */
  lemma TokenOrderIsFree(view: FeedView, books: seq<BookSnapshot>)
    ensures ObserveAll(view, Sort(ByToken, books)) == ObserveAll(view, books)
  {
    hide BookOf, SeenOf;
    var a, b := ObserveAll(view, Sort(ByToken, books)), ObserveAll(view, books);
    forall t ensures BookOf(a, t) == BookOf(b, t) && SeenOf(a, t) == SeenOf(b, t) {
      ObservePerToken(view, Sort(ByToken, books), t);
      ObservePerToken(view, books, t);
      TokenOrderPerToken(books, t);
    }
    ObservePerToken(view, Sort(ByToken, books), 0);
    ObservePerToken(view, books, 0);
    SameFeed(a, b);
  }

  lemma {:induction false} PersistThenObserve(view: FeedView, books: seq<BookSnapshot>, n: nat)
    ensures ObserveAll(PersistAll(view, books, n), books) == HandleAll(view, AsEvents(books), n)
    ensures PersistAll(view, books, n).books == view.books && PersistAll(view, books, n).lastSeen == view.lastSeen
    ensures ObserveAll(PersistAll(view, books, n), books).tops == PersistAll(view, books, n).tops
    ensures ObserveAll(PersistAll(view, books, n), books).depth == PersistAll(view, books, n).depth
    ensures ObserveAll(PersistAll(view, books, n), books).books == ObserveAll(view, books).books
    ensures ObserveAll(PersistAll(view, books, n), books).lastSeen == ObserveAll(view, books).lastSeen
  {
    hide TopOf, ReplaceDepth, DepthRows;
    if books != [] {
      var init, last := books[..|books| - 1], books[|books| - 1];
      PersistThenObserve(view, init, n);
      assert AsEvents(books)[..|books| - 1] == AsEvents(init);
      ObserveIgnoresStore(view, PersistAll(view, books, n), init);
    }
  }

  lemma {:induction false} ObserveIgnoresStore(a: FeedView, b: FeedView, books: seq<BookSnapshot>)
    requires a.books == b.books && a.lastSeen == b.lastSeen
    ensures ObserveAll(a, books).books == ObserveAll(b, books).books && ObserveAll(a, books).lastSeen == ObserveAll(b, books).lastSeen
    ensures ObserveAll(b, books).tops == b.tops && ObserveAll(b, books).depth == b.depth
  {
    if books != [] { ObserveIgnoresStore(a, b, books[..|books| - 1]); }
  }

  /** A batch of snapshots has exactly the effect of the same books arriving as events. */
  lemma SnapshotsAreEvents(view: FeedView, books: seq<BookSnapshot>, n: nat)
    ensures SnapshotAll(view, books, n) == HandleAll(view, AsEvents(books), n)
  {
    TokenOrderIsFree(PersistAll(view, books, n), books);
    PersistThenObserve(view, books, n);
  }

  // ---------------------------------------------------------------- the feed service

  /** The tokens that have a stored book. */
  function StoredTokens(tops: map<TopKey, Top>): set<int> {
    set key | key in tops :: key.0
  }

  /** Which tokens a recovery loads: the requested ones, or all stored ones when the request is
      missing or empty. */
  function LoadTargets(tops: map<TopKey, Top>, requested: Option<set<int>>): set<int> {
    if requested.Some? && requested.value != {} then requested.value else StoredTokens(tops)
  }

  ghost function LatestStored(tops: map<TopKey, Top>, t: int): Option<Instant> {
    if exists at :: IsLatest(tops, t, at) then
      var at :| IsLatest(tops, t, at);
      Some(at)
    else None
  }

  /** Cache and feed state after recovering one token. */
  ghost function RecoverToken(view: FeedView, t: int): FeedView {
    var at := LatestStored(view.tops, t);
    if at.None? then view else Observe(view, RecoveredBook(view.depth, t, at.value))
  }

  ghost function RecoverTokens(view: FeedView, tokens: seq<int>): FeedView {
    if tokens == [] then view else RecoverToken(RecoverTokens(view, tokens[..|tokens| - 1]), tokens[|tokens| - 1])
  }

  class MarketFeedService {
    const cache: LatestBookCache
    const feedState: FeedState
    const repository: OrderbooksRepository
    const maxDepthLevels: nat

    constructor (cache: LatestBookCache, feedState: FeedState, repository: OrderbooksRepository, maxDepthLevels: nat)
      ensures this.cache == cache && this.feedState == feedState && this.repository == repository
      ensures this.maxDepthLevels == maxDepthLevels
    {
      this.cache, this.feedState, this.repository := cache, feedState, repository;
      this.maxDepthLevels := maxDepthLevels;
    }

    ghost function View(): FeedView
      reads cache, feedState, repository
    {
      FeedView(cache.books, feedState.lastSeen, repository.tops, repository.depth)
    }

    method HandleMarketEvent(book: Option<BookSnapshot>)
      modifies cache, feedState, repository
      ensures View() == HandleEvent(old(View()), book, maxDepthLevels)
    {
      if book.None? {
        return;
      }
      cache.Update(book.value);
      feedState.Mark(book.value.tokenId, book.value.observedAt);
      PersistBook(repository, book.value, maxDepthLevels);
    }

    /** The loop of a snapshot pass: store everything first, then cache in token order. */
    method SnapshotBooks(books: seq<BookSnapshot>)
      modifies cache, feedState, repository
      ensures View() == HandleAll(old(View()), AsEvents(books), maxDepthLevels)
    {
      hide DepthRows, TopOf, ReplaceDepth, HandleAll, Sort;
      ghost var start := View();
      for i := 0 to |books|
        invariant View() == PersistAll(start, books[..i], maxDepthLevels)
      {
        PersistThenObserve(start, books[..i], maxDepthLevels);
        PersistBook(repository, books[i], maxDepthLevels);
        assert books[..i + 1][..i] == books[..i];
      }
      assert books[..|books|] == books;
      var ordered := Sort(ByToken, books);
      ghost var stored := View();
      for i := 0 to |ordered|
        invariant View() == ObserveAll(stored, ordered[..i])
      {
        cache.Update(ordered[i]);
        feedState.Mark(ordered[i].tokenId, ordered[i].observedAt);
        assert ordered[..i + 1][..i] == ordered[..i];
      }
      assert ordered[..|ordered|] == ordered;
      SnapshotsAreEvents(start, books, maxDepthLevels);
    }

    /** Recovery: rebuild the cache from the store, token by token. */
    method Load(requested: Option<set<int>>) returns (loaded: seq<int>, ghost order: seq<int>)
      modifies cache, feedState
      ensures Ascending(order) && forall t :: t in order <==> t in LoadTargets(repository.tops, requested)
      ensures View() == RecoverTokens(old(View()), order)
      ensures Ascending(loaded) && forall t :: t in loaded <==> t in order && LatestStored(repository.tops, t).Some?
    {
      hide RecoveredBook, LatestStored;
      var tokens := InAscendingOrder(LoadTargets(repository.tops, requested));
      order := tokens;
      loaded := [];
      ghost var start := View();
      for i := 0 to |tokens|
        invariant View() == RecoverTokens(start, tokens[..i])
        invariant repository.tops == start.tops && repository.depth == start.depth
        invariant Ascending(loaded)
        invariant forall t :: t in loaded <==> t in tokens[..i] && LatestStored(repository.tops, t).Some?
      {
        var t := tokens[i];
        ghost var before := View();
        NextToken(tokens, i, loaded);
        assert RecoverTokens(start, tokens[..i + 1]) == RecoverToken(before, t);
        var latest := repository.GetLatestTop(t);
        if latest.Some? {
          LatestIsUnique(repository.tops, t, latest.value);
          var book := RecoveredBook(repository.depth, t, latest.value);
          assert book.tokenId == t && book.observedAt == latest.value by { RecoveredKey(repository.depth, t, latest.value); }
          cache.Update(book);
          feedState.Mark(t, latest.value);
          assert View() == Observe(before, book);
          loaded := loaded + [t];
        } else {
          NoneStored(repository.tops, t);
        }
      }
      assert tokens[..|tokens|] == tokens;
    }
  }

  /** The next token lies above everything loaded so far. */
  lemma NextToken(tokens: seq<int>, i: nat, loaded: seq<int>)
    requires i < |tokens| && Ascending(tokens) && Ascending(loaded) && forall t :: t in loaded ==> t in tokens[..i]
    ensures tokens[..i + 1][..i] == tokens[..i] && tokens[..i + 1] == tokens[..i] + [tokens[i]]
    ensures Ascending(loaded + [tokens[i]])
  {
    forall j | 0 <= j < |loaded| ensures loaded[j] < tokens[i] {
      assert loaded[j] in loaded;
      var k :| 0 <= k < i && tokens[..i][k] == loaded[j];
    }
  }

  lemma RecoveredKey(depth: seq<DepthRow>, t: int, at: Instant)
    ensures RecoveredBook(depth, t, at).tokenId == t && RecoveredBook(depth, t, at).observedAt == at
  {
  }

  lemma NoneStored(tops: map<TopKey, Top>, t: int)
    requires forall at :: (t, at) !in tops
    ensures LatestStored(tops, t) == None
  {
  }

  lemma LatestIsUnique(tops: map<TopKey, Top>, t: int, at: Instant)
    requires IsLatest(tops, t, at)
    ensures LatestStored(tops, t) == Some(at)
  {
    var other := LatestStored(tops, t).value;
    assert (t, at) in tops && (t, other) in tops;
  }

  // ---------------------------------------------------------------- recovery agrees with the live cache

  /** A cache that is nowhere ahead of `view`: empty, stale or equal. */
  ghost predicate Behind(start: FeedView, view: FeedView) {
    && start.tops == view.tops && start.depth == view.depth
    && (forall t :: t in start.books && t in view.books ==> start.books[t].observedAt <= view.books[t].observedAt)
    && (forall t :: t in start.lastSeen && t in view.lastSeen ==> start.lastSeen[t] <= view.lastSeen[t])
  }

  ghost predicate SortedCache(view: FeedView) {
    forall t :: t in view.books ==> SortedBook(view.books[t])
  }

  lemma StoredExactlyCached(view: FeedView, n: nat, t: int)
    requires Agrees(view, n)
    ensures LatestStored(view.tops, t) == if t in view.books then Some(view.books[t].observedAt) else None
  {
    if t in view.books {
      assert TokenAgrees(view, n, t);
      LatestIsUnique(view.tops, t, view.books[t].observedAt);
    } else {
      assert forall at :: (t, at) !in view.tops;
    }
  }

  /** Recovering tokens replaces their cached books by the live ones cut to the stored depth, and
      touches no other token. */
  lemma {:induction false} RecoverBehind(start: FeedView, view: FeedView, n: nat, order: seq<int>, t: int)
    requires Agrees(view, n) && SortedCache(view) && Behind(start, view)
    ensures var after := RecoverTokens(start, order);
      && Behind(after, view)
      && BookOf(after, t) == (if t in order && t in view.books then Some(CutBook(view.books[t], n)) else BookOf(start, t))
      && SeenOf(after, t) == (if t in order && t in view.books then Some(view.books[t].observedAt) else SeenOf(start, t))
  {
    hide Agrees, RecoveredBook, CutBook, LatestStored;
    if order != [] {
      var init, last := order[..|order| - 1], order[|order| - 1];
      RecoverBehind(start, view, n, init, t);
      StoredExactlyCached(view, n, last);
      assert order == init + [last];
      if last in view.books {
        RecoverBehind(start, view, n, init, last);
        RecoveredIsCutBook(view, n, last);
        CutKeepsSorted(view.books[last], n);
        CutKeepsKey(view.books[last], n);
        SeenIsObserved(view, n, last);
      }
    }
  }

  lemma CutKeepsKey(book: BookSnapshot, n: nat)
    ensures CutBook(book, n).tokenId == book.tokenId && CutBook(book, n).observedAt == book.observedAt
  {
  }

  lemma SeenIsObserved(view: FeedView, n: nat, t: int)
    requires Agrees(view, n) && t in view.books
    ensures t in view.lastSeen && view.lastSeen[t] == view.books[t].observedAt && view.books[t].tokenId == t
  {
    assert TokenAgrees(view, n, t);
  }

  ghost predicate SortedEvents(events: seq<Option<BookSnapshot>>) {
    forall i :: 0 <= i < |events| ==> events[i].Some? ==> SortedBook(events[i].value)
  }

  lemma {:induction false} EventsKeepCacheSorted(view: FeedView, events: seq<Option<BookSnapshot>>, n: nat)
    requires SortedCache(view) && SortedEvents(events)
    ensures SortedCache(HandleAll(view, events, n))
  {
    hide SortedBook, TopOf, ReplaceDepth, DepthRows;
    if events != [] {
      EventsKeepCacheSorted(view, events[..|events| - 1], n);
    }
  }

  /** The state in which a restarted process finds itself: nothing cached, everything stored. */
  function Restarted(view: FeedView): FeedView {
    view.(books := map[], lastSeen := map[])
  }

  /** Recovery agrees with the live cache. After any run of the feed on sorted books, late and tied
      timestamps included, a restarted process that loads every stored token has the live feed
      state and, for every token, the live book cut to the stored depth. */
  lemma RecoveryAgreesWithCache(events: seq<Option<BookSnapshot>>, n: nat, order: seq<int>)
    requires SortedEvents(events)
    requires forall t :: t in order <==> t in StoredTokens(HandleAll(EMPTY_FEED, events, n).tops)
    ensures var live := HandleAll(EMPTY_FEED, events, n);
      var recovered := RecoverTokens(Restarted(live), order);
      && recovered.lastSeen == live.lastSeen
      && recovered.books == map t | t in live.books :: CutBook(live.books[t], n)
  {
    hide CutBook, SortedBook;
    var live := HandleAll(EMPTY_FEED, events, n);
    EventsKeepAgreement(EMPTY_FEED, events, n);
    EventsKeepCacheSorted(EMPTY_FEED, events, n);
    var recovered := RecoverTokens(Restarted(live), order);
    forall t
      ensures BookOf(recovered, t) == if t in live.books then Some(CutBook(live.books[t], n)) else None
      ensures SeenOf(recovered, t) == if t in live.books then Some(live.books[t].observedAt) else None
    {
      RecoverBehind(Restarted(live), live, n, order, t);
      if t in live.books {
        assert TokenAgrees(live, n, t);
        assert (t, live.books[t].observedAt) in live.tops;
        assert t in StoredTokens(live.tops);
      }
    }
    forall t ensures (t in recovered.books <==> t in live.books) && (t in recovered.lastSeen <==> t in live.lastSeen) {
      assert BookOf(recovered, t).Some? <==> t in live.books;
      assert SeenOf(recovered, t).Some? <==> t in live.books;
    }
    forall t | t in live.books ensures recovered.books[t] == CutBook(live.books[t], n) && recovered.lastSeen[t] == live.lastSeen[t] {
      assert BookOf(recovered, t) == Some(recovered.books[t]);
      assert SeenOf(recovered, t) == Some(recovered.lastSeen[t]);
    }
  }

  /** Recovery overwrites every loaded token's book in a live cache, even an equally recent one,
      with its stored cut. It is harmless exactly when neither side of the book has more levels
      than are stored. */
  lemma RecoveryTruncatesLiveCache(events: seq<Option<BookSnapshot>>, n: nat, order: seq<int>, t: int)
    requires SortedEvents(events)
    requires t in order && t in HandleAll(EMPTY_FEED, events, n).books
    ensures var live := HandleAll(EMPTY_FEED, events, n);
      && BookOf(RecoverTokens(live, order), t) == Some(CutBook(live.books[t], n))
      && (BookOf(RecoverTokens(live, order), t) == BookOf(live, t) <==> |live.books[t].bids| <= n && |live.books[t].asks| <= n)
  {
    var live := HandleAll(EMPTY_FEED, events, n);
    EventsKeepAgreement(EMPTY_FEED, events, n);
    EventsKeepCacheSorted(EMPTY_FEED, events, n);
    RecoverBehind(live, live, n, order, t);
    CutIsWhole(live.books[t], n);
  }

  lemma CutIsWhole(book: BookSnapshot, n: nat)
    ensures CutBook(book, n) == book <==> |book.bids| <= n && |book.asks| <= n
  {
    assert |CutBook(book, n).bids| <= n && |CutBook(book, n).asks| <= n;
  }

  function Dropped(levels: seq<BookLevel>, n: nat): seq<BookLevel> {
    if n <= |levels| then levels[n..] else []
  }

  /** A fill on a recovered book equals the fill on the live book exactly when it fits into the
      stored depth or nothing executable was cut off. */
  lemma RecoveredFills(book: BookSnapshot, n: nat, quantity: real)
    requires SortedBook(book)
    ensures WeightedFill(CutBook(book, n).asks, quantity, Buy) == WeightedFill(book.asks, quantity, Buy)
       <==> (quantity <= Depth(CutBook(book, n).asks) || Depth(Dropped(book.asks, n)) == 0.0)
    ensures WeightedFill(CutBook(book, n).bids, quantity, Sell) == WeightedFill(book.bids, quantity, Sell)
       <==> (quantity <= Depth(CutBook(book, n).bids) || Depth(Dropped(book.bids, n)) == 0.0)
  {
    hide WeightedFill;
    if n <= |book.asks| { CutBookFill(book.asks, n, quantity, Buy); }
    if n <= |book.bids| { CutBookFill(book.bids, n, quantity, Sell); }
  }
}
