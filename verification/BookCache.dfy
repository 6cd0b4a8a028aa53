/** The live book cache two market streams maintain (src/venue/polymarket.rs). */
module BookCache {
  import opened Wrappers
  import opened Domain

  datatype CachedBook = CachedBook(bids: seq<PriceLevel>, asks: seq<PriceLevel>, observedAt: int, hash: Option<string>)

  /** A price entry; None or a non-positive size removes the level. */
  datatype PriceChange = PriceChange(assetId: string, side: Side, price: real, size: Option<real>, hash: Option<string>)

  datatype Message =
    | Snapshot(assetId: string, book: CachedBook)
    | Changes(observedAt: int, entries: seq<PriceChange>)
    | StreamFailed(tokenId: string)

  // ---------------------------------------------------------------------------------------------
  // Consistency
  // ---------------------------------------------------------------------------------------------

  predicate ValidLevel(level: PriceLevel) {
    0.0 < level.price <= 1.0 && level.size > 0.0
  }

  predicate UniquePrices(levels: seq<PriceLevel>) {
    forall i, j | 0 <= i < j < |levels| :: levels[i].price != levels[j].price
  }

  predicate ValidLevels(levels: seq<PriceLevel>) {
    (forall k | 0 <= k < |levels| :: ValidLevel(levels[k])) && UniquePrices(levels)
  }

  predicate IsSpace(c: char) {
    c in [' ', '\t', '\n', '\r', '\U{000B}', '\U{000C}', '\U{0085}', '\U{00A0}', '\U{1680}', '\U{2028}', '\U{2029}',
          '\U{202F}', '\U{205F}', '\U{3000}']
    || '\U{2000}' <= c <= '\U{200A}'
  }

  predicate Blank(text: string) {
    forall k | 0 <= k < |text| :: IsSpace(text[k])
  }

  /** Every bid is below every ask, levels are valid and the hash is not blank. */
  predicate Consistent(book: CachedBook) {
    && ValidLevels(book.bids) && ValidLevels(book.asks)
    && (forall i, j | 0 <= i < |book.bids| && 0 <= j < |book.asks| :: book.bids[i].price < book.asks[j].price)
    && (book.hash.Some? ==> !Blank(book.hash.value))
  }

  method LevelsAreValid(levels: seq<PriceLevel>) returns (valid: bool)
    ensures valid <==> ValidLevels(levels)
  {
    var prices: set<real> := {};
    for k := 0 to |levels|
      invariant forall i | 0 <= i < k :: ValidLevel(levels[i]) && levels[i].price in prices
      invariant forall p | p in prices :: exists i | 0 <= i < k :: levels[i].price == p
      invariant UniquePrices(levels[..k])
    {
      var level := levels[k];
      if !(level.price > 0.0 && level.price <= 1.0 && level.size > 0.0) {
        assert !ValidLevel(levels[k]);
        return false;
      }
      if level.price in prices {
        return false;
      }
      prices := prices + {level.price};
    }
    assert levels[..|levels|] == levels;
    valid := true;
  }

  /** The best price of a side: the highest bid or the lowest ask. */
  method BestPrice(levels: seq<PriceLevel>, side: Side) returns (best: Option<real>)
    ensures best.None? <==> levels == []
    ensures best.Some? ==> exists k | 0 <= k < |levels| :: levels[k].price == best.value
    ensures best.Some? ==> forall k | 0 <= k < |levels| ::
      if side.Buy? then levels[k].price <= best.value else best.value <= levels[k].price
  {
    best := None;
    for k := 0 to |levels|
      invariant best.None? <==> k == 0
      invariant best.Some? ==> exists i | 0 <= i < k :: levels[i].price == best.value
      invariant best.Some? ==> forall i | 0 <= i < k ::
        if side.Buy? then levels[i].price <= best.value else best.value <= levels[i].price
    {
      if best.None? || (if side.Buy? then best.value <= levels[k].price else levels[k].price < best.value) {
        best := Some(levels[k].price);
      }
    }
  }

  method BookIsConsistent(book: CachedBook) returns (consistent: bool)
    ensures consistent <==> Consistent(book)
  {
    var validBids := LevelsAreValid(book.bids);
    var validAsks := LevelsAreValid(book.asks);
    if !validBids || !validAsks {
      return false;
    }
    var bestBid := BestPrice(book.bids, Buy);
    var bestAsk := BestPrice(book.asks, Sell);
    if bestBid.Some? && bestAsk.Some? && bestBid.value >= bestAsk.value {
      return false;
    }
    consistent := book.hash.None? || !Blank(book.hash.value);
  }

  // ---------------------------------------------------------------------------------------------
  // The cache, message by message
  // ---------------------------------------------------------------------------------------------

  /** The levels at other prices, in their order. */
  function Retain(levels: seq<PriceLevel>, price: real): seq<PriceLevel> {
    if levels == [] then []
    else
      var last := levels[|levels| - 1];
      Retain(levels[..|levels| - 1], price) + if last.price != price then [last] else []
  }

  function Sized(change: PriceChange): bool {
    change.size.Some? && change.size.value > 0.0
  }

  function Moved(levels: seq<PriceLevel>, change: PriceChange): seq<PriceLevel> {
    Retain(levels, change.price) + if Sized(change) then [PriceLevel(change.price, change.size.value)] else []
  }

  function Amended(book: CachedBook, change: PriceChange, observedAt: int): CachedBook {
    CachedBook(
      if change.side.Buy? then Moved(book.bids, change) else book.bids,
      if change.side.Buy? then book.asks else Moved(book.asks, change),
      observedAt,
      if change.hash.Some? then change.hash else book.hash)
  }

  function AfterSnapshot(books: map<string, CachedBook>, assetId: string, next: CachedBook): map<string, CachedBook> {
    if (assetId in books && next.observedAt < books[assetId].observedAt) || !Consistent(next) then books - {assetId}
    else books[assetId := next]
  }

  function AfterChange(books: map<string, CachedBook>, observedAt: int, change: PriceChange): map<string, CachedBook> {
    if change.assetId !in books then books
    else if observedAt < books[change.assetId].observedAt then books - {change.assetId}
    else
      var next := Amended(books[change.assetId], change, observedAt);
      if Consistent(next) then books[change.assetId := next] else books - {change.assetId}
  }

  function AfterChanges(books: map<string, CachedBook>, observedAt: int, entries: seq<PriceChange>): map<string,
            CachedBook> {
    if entries == [] then books
    else AfterChange(AfterChanges(books, observedAt, entries[..|entries| - 1]), observedAt, entries[|entries| - 1])
  }

  function After(books: map<string, CachedBook>, message: Message): map<string, CachedBook> {
    match message
    case Snapshot(assetId, book) => AfterSnapshot(books, assetId, book)
    case Changes(observedAt, entries) => AfterChanges(books, observedAt, entries)
    case StreamFailed(tokenId) => books - {tokenId}
  }

  function AfterAll(messages: seq<Message>): map<string, CachedBook> {
    if messages == [] then map[] else After(AfterAll(messages[..|messages| - 1]), messages[|messages| - 1])
  }

  /** The shared cache and the handlers of its streams, each run under the cache's write lock. */
  class Cache {
    var books: map<string, CachedBook>
    var gaps: nat

    constructor ()
      ensures books == AfterAll([]) && gaps == 0
    {
      books, gaps := map[], 0;
    }

    method ApplySnapshot(assetId: string, next: CachedBook)
      modifies this
      ensures books == After(old(books), Snapshot(assetId, next))
      ensures gaps == old(gaps) + if assetId in books then 0 else 1
    {
      var regressed := assetId in books && next.observedAt < books[assetId].observedAt;
      var consistent := BookIsConsistent(next);
      if regressed || !consistent {
        books := books - {assetId};
        gaps := gaps + 1;
      } else {
        books := books[assetId := next];
      }
    }

    method ApplyChanges(observedAt: int, entries: seq<PriceChange>)
      modifies this
      ensures books == After(old(books), Changes(observedAt, entries))
      ensures gaps >= old(gaps) && (gaps == old(gaps) <==> books.Keys == old(books).Keys)
    {
      assert entries[..0] == [];
      for k := 0 to |entries|
        invariant books == AfterChanges(old(books), observedAt, entries[..k])
        invariant books.Keys <= old(books).Keys
        invariant gaps >= old(gaps) && (gaps == old(gaps) <==> books.Keys == old(books).Keys)
      {
        assert entries[..k + 1][..k] == entries[..k];
        var entry := entries[k];
        if entry.assetId !in books {
          continue;
        }
        if observedAt < books[entry.assetId].observedAt {
          books := books - {entry.assetId};
          gaps := gaps + 1;
          continue;
        }
        var book := books[entry.assetId];
        var levels := Retain(if entry.side.Buy? then book.bids else book.asks, entry.price);
        if entry.size.Some? && entry.size.value > 0.0 {
          levels := levels + [PriceLevel(entry.price, entry.size.value)];
        }
        book := if entry.side.Buy? then book.(bids := levels) else book.(asks := levels);
        book := book.(observedAt := observedAt);
        if entry.hash.Some? {
          book := book.(hash := entry.hash);
        }
        assert book == Amended(books[entry.assetId], entry, observedAt);
        var consistent := BookIsConsistent(book);
        if consistent {
          books := books[entry.assetId := book];
        } else {
          books := books - {entry.assetId};
          gaps := gaps + 1;
        }
      }
      assert entries[..|entries|] == entries;
    }

    method FailStream(tokenId: string)
      modifies this
      ensures books == After(old(books), StreamFailed(tokenId)) && gaps == old(gaps) + 1
    {
      books := books - {tokenId};
      gaps := gaps + 1;
    }
  }

  // ---------------------------------------------------------------------------------------------
  // What a cached book is
  // ---------------------------------------------------------------------------------------------

  /** The levels as sizes by price. */
  function Depths(levels: seq<PriceLevel>): map<real, real> {
    if levels == [] then map[]
    else Depths(levels[..|levels| - 1])[levels[|levels| - 1].price := levels[|levels| - 1].size]
  }

  datatype Depth = Depth(bids: map<real, real>, asks: map<real, real>)

  function DepthOf(book: CachedBook): Depth {
    Depth(Depths(book.bids), Depths(book.asks))
  }

  function Set(sizes: map<real, real>, change: PriceChange): map<real, real> {
    if Sized(change) then sizes[change.price := change.size.value] else sizes - {change.price}
  }

  function DepthAfter(depth: Depth, change: PriceChange): Depth {
    if change.side.Buy? then depth.(bids := Set(depth.bids, change)) else depth.(asks := Set(depth.asks, change))
  }

  /** All changes of one asset applied to a depth, with no check at all. */
  function DepthAfterAll(depth: Option<Depth>, entries: seq<PriceChange>, assetId: string): Option<Depth> {
    if entries == [] then depth
    else
      var before := DepthAfterAll(depth, entries[..|entries| - 1], assetId);
      var last := entries[|entries| - 1];
      if before.Some? && last.assetId == assetId then Some(DepthAfter(before.value, last)) else before
  }

  /** The reference: the last snapshot of the asset with every later change applied. */
  function LastSnapshotChanged(messages: seq<Message>, assetId: string): Option<Depth> {
    if messages == [] then None
    else
      var before := LastSnapshotChanged(messages[..|messages| - 1], assetId);
      match messages[|messages| - 1]
      case Snapshot(other, book) => if other == assetId then Some(DepthOf(book)) else before
      case Changes(_, entries) => DepthAfterAll(before, entries, assetId)
      case StreamFailed(_) => before
  }

  lemma {:induction false} RetainDepths(levels: seq<PriceLevel>, price: real)
    ensures Depths(Retain(levels, price)) == Depths(levels) - {price}
  {
    if levels != [] {
      var init, last := levels[..|levels| - 1], levels[|levels| - 1];
      RetainDepths(init, price);
      if last.price != price {
        assert (Retain(init, price) + [last])[..|Retain(init, price)|] == Retain(init, price);
      } else {
        assert Retain(init, price) + [] == Retain(init, price);
      }
    }
  }

  lemma MovedDepths(levels: seq<PriceLevel>, change: PriceChange)
    ensures Depths(Moved(levels, change)) == Set(Depths(levels), change)
  {
    RetainDepths(levels, change.price);
    var kept := Retain(levels, change.price);
    if Sized(change) {
      AppendDepths(kept, PriceLevel(change.price, change.size.value));
      ReplaceSize(Depths(levels), change.price, change.size.value);
    } else {
      assert kept + [] == kept;
    }
  }

  lemma AppendDepths(levels: seq<PriceLevel>, level: PriceLevel)
    ensures Depths(levels + [level]) == Depths(levels)[level.price := level.size]
  {
    assert (levels + [level])[..|levels|] == levels;
  }

  lemma ReplaceSize(sizes: map<real, real>, price: real, size: real)
    ensures (sizes - {price})[price := size] == sizes[price := size]
  {
  }

  ghost predicate Faithful(books: map<string, CachedBook>, assetId: string, reference: Option<Depth>) {
    assetId in books ==> Consistent(books[assetId]) && reference == Some(DepthOf(books[assetId]))
  }

  lemma {:induction false} ChangesStayFaithful(books: map<string, CachedBook>, observedAt: int,
            entries: seq<PriceChange>,
                                               assetId: string, reference: Option<Depth>)
    requires Faithful(books, assetId, reference)
    ensures Faithful(AfterChanges(books, observedAt, entries), assetId, DepthAfterAll(reference, entries, assetId))
  {
    if entries != [] {
      var n := |entries| - 1;
      ChangesStayFaithful(books, observedAt, entries[..n], assetId, reference);
      var before := AfterChanges(books, observedAt, entries[..n]);
      if entries[n].assetId == assetId && assetId in before {
        MovedDepths(before[assetId].bids, entries[n]);
        MovedDepths(before[assetId].asks, entries[n]);
      }
    }
  }

  /**
   Whatever the streams send, a book is in the cache only if it is consistent, and then its levels
   are, price by price, the last snapshot with all later changes applied.
   */
  lemma {:induction false} CachedBooksAreFaithful(messages: seq<Message>, assetId: string)
    ensures Faithful(AfterAll(messages), assetId, LastSnapshotChanged(messages, assetId))
  {
    if messages != [] {
      var n := |messages| - 1;
      CachedBooksAreFaithful(messages[..n], assetId);
      match messages[n] {
        case Snapshot(_, _) =>
        case Changes(observedAt, entries) =>
          ChangesStayFaithful(AfterAll(messages[..n]), observedAt, entries, assetId,
                              LastSnapshotChanged(messages[..n], assetId));
        case StreamFailed(_) =>
      }
    }
  }

  /** A removed book stays absent until a new snapshot of its asset arrives. */
  lemma {:induction false} OnlySnapshotsRestore(messages: seq<Message>, later: seq<Message>, assetId: string)
    requires assetId !in AfterAll(messages)
    requires forall k | 0 <= k < |later| :: later[k].Snapshot? ==> later[k].assetId != assetId
    ensures assetId !in AfterAll(messages + later)
  {
    if later == [] {
      assert messages + later == messages;
    } else {
      var n := |later| - 1;
      OnlySnapshotsRestore(messages, later[..n], assetId);
      assert (messages + later)[..|messages + later| - 1] == messages + later[..n];
      if later[n].Changes? {
        ChangesRestoreNothing(AfterAll(messages + later[..n]), later[n].observedAt, later[n].entries, assetId);
      }
    }
  }

  lemma {:induction false} ChangesRestoreNothing(books: map<string, CachedBook>, observedAt: int,
            entries: seq<PriceChange>, assetId: string)
    requires assetId !in books
    ensures assetId !in AfterChanges(books, observedAt, entries)
  {
    if entries != [] {
      ChangesRestoreNothing(books, observedAt, entries[..|entries| - 1], assetId);
    }
  }

  // ---------------------------------------------------------------------------------------------
  // When a book is cached
  // ---------------------------------------------------------------------------------------------

  /** A snapshot is cached exactly when it is consistent and not older than what it replaces; otherwise its book goes. */
  lemma SnapshotIsCachedIff(books: map<string, CachedBook>, assetId: string, book: CachedBook)
    ensures var after := After(books, Snapshot(assetId, book));
      && (assetId in after <==> Consistent(book) && (assetId in books ==> books[assetId].observedAt <= book.observedAt))
      && (assetId in after ==> after[assetId] == book)
      && after - {assetId} == books - {assetId}
  {
    var after := After(books, Snapshot(assetId, book));
    assert (after - {assetId}).Keys == (books - {assetId}).Keys;
  }

  /** The levels of a side that cross no level of the other. */
  predicate Uncrossed(bids: map<real, real>, asks: map<real, real>) {
    forall bid, ask | bid in bids && ask in asks :: bid < ask
  }

  predicate ValidDepth(sizes: map<real, real>) {
    forall price | price in sizes :: 0.0 < price <= 1.0 && sizes[price] > 0.0
  }

  lemma {:induction false} DepthsOf(levels: seq<PriceLevel>)
    ensures forall price :: price in Depths(levels) <==> exists k | 0 <= k < |levels| :: levels[k].price == price
    ensures forall price | price in Depths(levels) ::
      exists k | 0 <= k < |levels| :: levels[k].price == price && levels[k].size == Depths(levels)[price]
    ensures UniquePrices(levels) ==> forall k | 0 <= k < |levels| :: Depths(levels)[levels[k].price] == levels[k].size
  {
    if levels != [] {
      var n := |levels| - 1;
      DepthsOf(levels[..n]);
      forall price ensures price in Depths(levels) <==> exists k | 0 <= k < |levels| :: levels[k].price == price {
        if price == levels[n].price {
          assert levels[n].price == price;
        }
        if price in Depths(levels[..n]) {
          var k :| 0 <= k < n && levels[..n][k].price == price;
          assert levels[k].price == price;
        }
        if k :| 0 <= k < n && levels[k].price == price {
          assert levels[..n][k].price == price;
        }
      }
      forall price | price in Depths(levels)
        ensures exists k | 0 <= k < |levels| :: levels[k].price == price && levels[k].size == Depths(levels)[price]
      {
        if price == levels[n].price {
          assert levels[n].size == Depths(levels)[price];
        } else {
          var k :| 0 <= k < n && levels[..n][k].price == price && levels[..n][k].size == Depths(levels[..n])[price];
          assert levels[k].price == price;
        }
      }
      if UniquePrices(levels) {
        forall k | 0 <= k < |levels| ensures Depths(levels)[levels[k].price] == levels[k].size {
          if k < n {
            assert levels[..n][k] == levels[k];
          }
        }
      }
    }
  }

  lemma {:induction false} RetainIsUnique(levels: seq<PriceLevel>, price: real)
    requires UniquePrices(levels)
    ensures UniquePrices(Retain(levels, price))
    ensures forall k | 0 <= k < |Retain(levels, price)| :: Retain(levels, price)[k] in levels && Retain(levels, price)[k].price != price
  {
    if levels != [] {
      RetainIsUnique(levels[..|levels| - 1], price);
    }
  }

  /** The sizes of both sides, and the hash, as a book may have them. */
  predicate Sane(depth: Depth, hash: Option<string>) {
    && ValidDepth(depth.bids) && ValidDepth(depth.asks) && Uncrossed(depth.bids, depth.asks)
    && (hash.Some? ==> !Blank(hash.value))
  }

  lemma ConsistentIff(book: CachedBook)
    requires UniquePrices(book.bids) && UniquePrices(book.asks)
    ensures Consistent(book) <==> Sane(DepthOf(book), book.hash)
  {
    DepthsOf(book.bids);
    DepthsOf(book.asks);
    if Consistent(book) {
      forall price | price in DepthOf(book).bids ensures 0.0 < price <= 1.0 && DepthOf(book).bids[price] > 0.0 {
        var k :| 0 <= k < |book.bids| && book.bids[k].price == price && book.bids[k].size == Depths(book.bids)[price];
        assert ValidLevel(book.bids[k]);
      }
      forall price | price in DepthOf(book).asks ensures 0.0 < price <= 1.0 && DepthOf(book).asks[price] > 0.0 {
        var k :| 0 <= k < |book.asks| && book.asks[k].price == price && book.asks[k].size == Depths(book.asks)[price];
        assert ValidLevel(book.asks[k]);
      }
    } else if ValidDepth(DepthOf(book).bids) && ValidDepth(DepthOf(book).asks) && Uncrossed(DepthOf(book).bids, DepthOf(book).asks) {
      forall k | 0 <= k < |book.bids| ensures ValidLevel(book.bids[k]) && book.bids[k].price in DepthOf(book).bids {
      }
      forall k | 0 <= k < |book.asks| ensures ValidLevel(book.asks[k]) && book.asks[k].price in DepthOf(book).asks {
      }
    }
  }

  /**
   A change keeps its book cached exactly when it is not older and leaves sizes, prices and the hash valid and
   the sides uncrossed; the book then has the changed sizes and the time of the change.
   */
  lemma ChangeIsCachedIff(books: map<string, CachedBook>, observedAt: int, change: PriceChange)
    requires change.assetId in books && Consistent(books[change.assetId])
    ensures var book := books[change.assetId];
      var (after, depth) := (AfterChange(books, observedAt, change), DepthAfter(DepthOf(books[change.assetId]), change));
      var hash := if change.hash.Some? then change.hash else book.hash;
      && (change.assetId in after <==> book.observedAt <= observedAt && Sane(depth, hash))
      && (change.assetId in after ==>
            && DepthOf(after[change.assetId]) == depth && after[change.assetId].observedAt == observedAt
            && after[change.assetId].hash == hash)
  {
    ChangedBook(books[change.assetId], change, observedAt);
    AmendedIs(books[change.assetId], change, observedAt);
  }

  lemma ChangedBook(book: CachedBook, change: PriceChange, observedAt: int)
    requires UniquePrices(book.bids) && UniquePrices(book.asks)
    ensures var next := Amended(book, change, observedAt);
      Consistent(next) <==> Sane(DepthAfter(DepthOf(book), change), if change.hash.Some? then change.hash else book.hash)
  {
    AmendedIs(book, change, observedAt);
    MovedIsUnique(book.bids, change);
    MovedIsUnique(book.asks, change);
    ConsistentIff(Amended(book, change, observedAt));
  }

  lemma AmendedIs(book: CachedBook, change: PriceChange, observedAt: int)
    ensures var next := Amended(book, change, observedAt);
      && DepthOf(next) == DepthAfter(DepthOf(book), change) && next.observedAt == observedAt
      && next.hash == (if change.hash.Some? then change.hash else book.hash)
  {
    MovedDepths(book.bids, change);
    MovedDepths(book.asks, change);
  }

  lemma MovedIsUnique(levels: seq<PriceLevel>, change: PriceChange)
    requires UniquePrices(levels)
    ensures UniquePrices(Moved(levels, change))
  {
    RetainIsUnique(levels, change.price);
  }

  /** The books of other assets are not touched. */
  lemma ChangeTouchesItsBook(books: map<string, CachedBook>, observedAt: int, change: PriceChange)
    ensures AfterChange(books, observedAt, change) - {change.assetId} == books - {change.assetId}
    ensures change.assetId !in books ==> AfterChange(books, observedAt, change) == books
  {
    assert (AfterChange(books, observedAt, change) - {change.assetId}).Keys == (books - {change.assetId}).Keys;
  }
}
