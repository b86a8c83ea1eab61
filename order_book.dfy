/**
 * The order-book synchronisation of the exchange's websocket feed.
 *
 * Incremental `trade.l2update` messages carry a sequence window
 * [sequenceStart, sequenceEnd] and the changed price levels of both sides.
 * Until a snapshot has set the book's `nonce` they are buffered in the
 * book's `cache`; once it is set, a message whose window ends at or before
 * the nonce is dropped and any other is applied. A `level2` message (the
 * depth-5 and depth-50 feeds) carries the whole book and replaces it.
 *
 * Prices and sizes are integers here; each side maps a price to the size
 * resting at it.
 */
module OrderBookSync {
  import opened Wrappers

  /** The subject under which the full-book feeds arrive. */
  const FullBookSubject := "level2"

  /** How many deltas are buffered before the snapshot is requested, unless configured otherwise. */
  const DefaultSnapshotDelay := 5

  /** One changed price level: the size now resting at `price` (0: the level is gone). */
  datatype Level = Level(price: int, size: int)

  /**
   * The `data` of an order-book message: the sequence window and time
   * fields (any of which may be missing) and the levels of each side.
   */
  datatype Payload = Payload(
    sequenceStart: Option<int>,
    sequenceEnd: Option<int>,
    time: Option<int>,
    timestamp: Option<int>,
    bids: seq<Level>,
    asks: seq<Level>)

  /** A book as a value: both sides, the last applied sequence number, the time, the buffered deltas. */
  datatype BookState = BookState(
    bids: map<int, int>,
    asks: map<int, int>,
    nonce: Option<int>,
    timestamp: Option<int>,
    cache: seq<Payload>,
    symbol: Option<string>)

  /** What handling one message did. */
  datatype Outcome =
    | Buffered(spawnSnapshot: bool)  // kept in the cache; `spawnSnapshot`: the snapshot load was started
    | Dropped                        // stale: the book already covers the message
    | Resolved                       // applied, and the book handed to its waiters

  // ---------------------------------------------------------------------
  // Book sides

  /** A side after storing one level: size 0 removes the price, any other size sets it. */
  function Stored(side: map<int, int>, level: Level): (r: map<int, int>)
    ensures level.size == 0 ==> level.price !in r
    ensures level.size != 0 ==> level.price in r && r[level.price] == level.size
    ensures forall p :: p != level.price ==> (p in r <==> p in side)
    ensures forall p :: p != level.price && p in r ==> r[p] == side[p]
  {
    if level.size == 0 then side - {level.price} else side[level.price := level.size]
  }

  /**
   * A side after storing `levels` in list order: only listed prices can
   * appear, and no level of size 0 is ever added.
   */
  function StoredAll(side: map<int, int>, levels: seq<Level>): (r: map<int, int>)
    ensures r.Keys <= side.Keys + set i | 0 <= i < |levels| :: levels[i].price
    ensures forall p :: p in r && r[p] == 0 ==> p in side && side[p] == 0
    decreases |levels|
  {
    if |levels| == 0 then side
    else Stored(StoredAll(side, levels[..|levels| - 1]), levels[|levels| - 1])
  }

  /** The size carried by the last level at `price` in `levels`, if any level has that price. */
  function LastSizeAt(levels: seq<Level>, price: int): (r: Option<int>)
    ensures r.None? <==> forall i :: 0 <= i < |levels| ==> levels[i].price != price
    decreases |levels|
  {
    if |levels| == 0 then None
    else if levels[|levels| - 1].price == price then Some(levels[|levels| - 1].size)
    else LastSizeAt(levels[..|levels| - 1], price)
  }

  /**
   * Storing a list of levels: at each price the last level listed for it
   * decides (removed when its size is 0, set to its size otherwise), and a
   * price no level mentions keeps its old size.
   */
  lemma {:induction false} StoredAllLastLevelWins(side: map<int, int>, levels: seq<Level>, price: int)
    ensures var r := StoredAll(side, levels);
      match LastSizeAt(levels, price)
      case None => (price in r <==> price in side) && (price in r ==> r[price] == side[price])
      case Some(size) => if size == 0 then price !in r else price in r && r[price] == size
    decreases |levels|
  {
    if |levels| > 0 {
      StoredAllLastLevelWins(side, levels[..|levels| - 1], price);
    }
  }

  /** Storing the same list of levels twice leaves the side as storing it once. */
  lemma StoredAllIdempotent(side: map<int, int>, levels: seq<Level>)
    ensures StoredAll(StoredAll(side, levels), levels) == StoredAll(side, levels)
  {
    var once := StoredAll(side, levels);
    var twice := StoredAll(once, levels);
    forall p | true
      ensures (p in twice <==> p in once) && (p in twice ==> twice[p] == once[p])
    {
      StoredAllLastLevelWins(side, levels, p);
      StoredAllLastLevelWins(once, levels, p);
    }
  }

  // ---------------------------------------------------------------------
  // Whole-book transitions

  /** A book with no levels, no nonce and nothing buffered. */
  function NewBook(symbol: Option<string>): BookState {
    BookState(map[], map[], None, None, [], symbol)
  }

  /** The book after `reset`: both sides emptied, nonce, time and symbol cleared; the buffer is kept. */
  function ResetBook(b: BookState): BookState {
    b.(bids := map[], asks := map[], nonce := None, timestamp := None, symbol := None)
  }

  /** The time a delta carries: its `time` field, else its `timestamp` field. */
  function DeltaTime(d: Payload): Option<int> {
    if d.time.Some? then d.time else d.timestamp
  }

  /** The sequence end a delta is checked against: `sequenceEnd`, else `timestamp`. */
  function DeltaEnd(d: Payload): Option<int> {
    if d.sequenceEnd.Some? then d.sequenceEnd else d.timestamp
  }

  /**
   * Applying a delta: the nonce becomes its `sequenceEnd` (its time when it
   * has none), the timestamp its time, and both sides store its levels.
   */
  function ApplyDelta(b: BookState, d: Payload): (r: BookState)
    ensures r.cache == b.cache && r.symbol == b.symbol
    ensures r.timestamp == DeltaTime(d)
    ensures r.nonce == (if d.sequenceEnd.Some? then d.sequenceEnd else DeltaTime(d))
    ensures r.bids == StoredAll(b.bids, d.bids) && r.asks == StoredAll(b.asks, d.asks)
    ensures forall p :: p in r.bids && r.bids[p] == 0 ==> p in b.bids && b.bids[p] == 0
    ensures forall p :: p in r.asks && r.asks[p] == 0 ==> p in b.asks && b.asks[p] == 0
  {
    var t := DeltaTime(d);
    b.(nonce := if d.sequenceEnd.Some? then d.sequenceEnd else t,
       timestamp := t,
       bids := StoredAll(b.bids, d.bids),
       asks := StoredAll(b.asks, d.asks))
  }

  /**
   * One order-book message for `symbol`, given the symbol's book if it has
   * one: the book afterwards and what was done with the message.
   * `snapshotDelay` is the configured buffer length at which the snapshot
   * load starts.
   */
  function OnMessage(book: Option<BookState>, symbol: string, subject: Option<string>,
                     data: Payload, snapshotDelay: int): (r: (BookState, Outcome))
    ensures subject == Some(FullBookSubject) ==> r.1 == Resolved && r.0.symbol == Some(symbol)
    ensures r.1 == Resolved ==> r.0.nonce == (if data.sequenceEnd.Some? then data.sequenceEnd else DeltaTime(data))
    ensures r.1.Buffered? <==> subject != Some(FullBookSubject) && (book.None? || book.value.nonce.None?)
    ensures r.1.Buffered? ==>
      && r.0.nonce.None? && |r.0.cache| > 0 && r.0.cache[|r.0.cache| - 1] == data
      && r.0.bids == (if book.None? then map[] else book.value.bids)
      && r.0.asks == (if book.None? then map[] else book.value.asks)
    ensures r.1 == Dropped ==>
      && book.Some? && r.0 == book.value && book.value.nonce.Some?
      && DeltaEnd(data).Some? && book.value.nonce.value >= DeltaEnd(data).value
    ensures r.1 == Resolved && subject != Some(FullBookSubject) ==> book.Some? && r.0.cache == book.value.cache
    ensures r.1 == Resolved && subject != Some(FullBookSubject) ==> book.Some? && r.0 == ApplyDelta(book.value, data)
  {
    if subject == Some(FullBookSubject) then
      var b := if book.None? then NewBook(None) else ResetBook(book.value);
      (ApplyDelta(b.(symbol := Some(symbol)), data), Resolved)
    else
      var b := if book.None? then NewBook(None) else book.value;
      var deltaEnd := DeltaEnd(data);
      if b.nonce.None? then
        (b.(cache := b.cache + [data]), Buffered(|b.cache| == snapshotDelay))
      else if deltaEnd.Some? && b.nonce.value >= deltaEnd.value then
        (b, Dropped)
      else
        (ApplyDelta(b, data), Resolved)
  }

  /**
   * Before a nonce is set, a delta is buffered: appended to the cache,
   * applied to neither side, and nothing resolved; the snapshot load starts
   * exactly when the buffer held `snapshotDelay` deltas before the push.
   */
  lemma BufferingBeforeNonce(b: BookState, symbol: string, subject: Option<string>, data: Payload, delay: int)
    requires b.nonce.None? && subject != Some(FullBookSubject)
    ensures var (b', out) := OnMessage(Some(b), symbol, subject, data, delay);
      && b'.cache == b.cache + [data]
      && b'.bids == b.bids && b'.asks == b.asks && b'.nonce.None? && b'.timestamp == b.timestamp
      && out == Buffered(|b.cache| == delay)
  {
  }

  /** A run of buffered deltas starts the snapshot load once: at the delta that finds `delay` deltas buffered. */
  lemma {:induction false} BufferingSpawnsOnce(b: BookState, symbol: string, subject: Option<string>,
                                               deltas: seq<Payload>, delay: nat)
    requires b.nonce.None? && subject != Some(FullBookSubject)
    ensures var (b', spawns) := BufferAll(b, symbol, subject, deltas, delay);
      && b'.cache == b.cache + deltas
      && (forall i :: 0 <= i < |spawns| ==> (spawns[i] <==> |b.cache| + i == delay))
      && |spawns| == |deltas|
    decreases |deltas|
  {
    if |deltas| > 0 {
      var n := |deltas| - 1;
      BufferAllUnfold(b, symbol, subject, deltas, delay);
      BufferingSpawnsOnce(b, symbol, subject, deltas[..n], delay);
      var (b1, spawns1) := BufferAll(b, symbol, subject, deltas[..n], delay);
      assert b1.nonce.None?;
      assert deltas[..n] + [deltas[n]] == deltas;
    }
  }

  /** The book and the spawn decisions after buffering `deltas` one message at a time. */
  function BufferAll(b: BookState, symbol: string, subject: Option<string>,
                     deltas: seq<Payload>, delay: int): (r: (BookState, seq<bool>))
    requires b.nonce.None? && subject != Some(FullBookSubject)
    ensures r.0.nonce.None?
    decreases |deltas|
  {
    if |deltas| == 0 then (b, [])
    else
      var (b1, spawns) := BufferAll(b, symbol, subject, deltas[..|deltas| - 1], delay);
      var (b2, out) := OnMessage(Some(b1), symbol, subject, deltas[|deltas| - 1], delay);
      (b2, spawns + [out.spawnSnapshot])
  }

  /** One step of `BufferAll`, spelled out. */
  lemma BufferAllUnfold(b: BookState, symbol: string, subject: Option<string>, deltas: seq<Payload>, delay: int)
    requires b.nonce.None? && subject != Some(FullBookSubject) && |deltas| > 0
    ensures var (b1, spawns1) := BufferAll(b, symbol, subject, deltas[..|deltas| - 1], delay);
      var (b2, spawns2) := BufferAll(b, symbol, subject, deltas, delay);
      b2.cache == b1.cache + [deltas[|deltas| - 1]] && spawns2 == spawns1 + [|b1.cache| == delay]
  {
  }

  /** Once a nonce is set, a delta whose end is at or before it is dropped and the book is unchanged. */
  lemma StaleDeltaDropped(b: BookState, symbol: string, subject: Option<string>, data: Payload, delay: int)
    requires b.nonce.Some? && subject != Some(FullBookSubject)
    requires DeltaEnd(data).Some? && b.nonce.value >= DeltaEnd(data).value
    ensures OnMessage(Some(b), symbol, subject, data, delay) == (b, Dropped)
  {
  }

  /**
   * Applying a delta sets the nonce to its `sequenceEnd`, so the same delta
   * arriving again is dropped and leaves the book as the first delivery did.
   */
  lemma ReplayedDeltaIsNoOp(b: BookState, symbol: string, subject: Option<string>, data: Payload, delay: int)
    requires b.nonce.Some? && subject != Some(FullBookSubject) && data.sequenceEnd.Some?
    requires OnMessage(Some(b), symbol, subject, data, delay).1 == Resolved
    ensures var b1 := OnMessage(Some(b), symbol, subject, data, delay).0;
      b1.nonce == data.sequenceEnd && OnMessage(Some(b1), symbol, subject, data, delay) == (b1, Dropped)
  {
  }

  /** Applying the same delta twice gives the same book as applying it once. */
  lemma ApplyDeltaIdempotent(b: BookState, d: Payload)
    ensures ApplyDelta(ApplyDelta(b, d), d) == ApplyDelta(b, d)
  {
    StoredAllIdempotent(b.bids, d.bids);
    StoredAllIdempotent(b.asks, d.asks);
  }

  /**
   * A `level2` message rebuilds the book from its own levels alone, whatever
   * the book held and whatever its nonce, and is always resolved.
   */
  lemma FullBookReplaces(book: Option<BookState>, symbol: string, data: Payload, delay: int)
    ensures var (b', out) := OnMessage(book, symbol, Some(FullBookSubject), data, delay);
      && out == Resolved
      && b'.bids == StoredAll(map[], data.bids) && b'.asks == StoredAll(map[], data.asks)
      && b'.nonce == (if data.sequenceEnd.Some? then data.sequenceEnd else DeltaTime(data))
      && b'.symbol == Some(symbol)
  {
  }

  // ---------------------------------------------------------------------
  // Aligning a snapshot with the buffered deltas

  /** `d`'s window starts at most one past `nonce` and ends after it: `d` is the delta that follows the snapshot. */
  predicate Covers(nonce: int, d: Payload) {
    d.sequenceStart.Some? && d.sequenceEnd.Some?
    && nonce >= d.sequenceStart.value - 1 && nonce < d.sequenceEnd.value
  }

  /** The snapshot is older than the first buffered delta: there is a gap between them. */
  predicate IsStale(nonce: int, cache: seq<Payload>) {
    |cache| > 0 && cache[0].sequenceStart.Some? && nonce < cache[0].sequenceStart.value - 1
  }

  /** The first position at or after `from` whose delta covers `nonce`, else `|cache|`. */
  function FirstCovering(nonce: int, cache: seq<Payload>, from: nat): (r: nat)
    requires from <= |cache|
    ensures from <= r <= |cache|
    ensures forall j :: from <= j < r ==> !Covers(nonce, cache[j])
    ensures r < |cache| ==> Covers(nonce, cache[r])
    decreases |cache| - from
  {
    if from == |cache| then |cache|
    else if Covers(nonce, cache[from]) then from
    else FirstCovering(nonce, cache, from + 1)
  }

  /** The index `getCacheIndex` yields for a snapshot at `nonce`: -1 for a stale snapshot. */
  function CacheIndex(nonce: int, cache: seq<Payload>): (r: int)
    ensures -1 <= r <= |cache|
    ensures r == -1 <==> IsStale(nonce, cache)
  {
    if IsStale(nonce, cache) then -1 else FirstCovering(nonce, cache, 0)
  }

  /**
   * The result is -1 exactly when the snapshot is stale; otherwise it is the
   * smallest position whose delta covers the nonce, or the cache length when
   * no delta does.
   */
  method GetCacheIndex(nonce: int, cache: seq<Payload>) returns (r: int)
    ensures r == CacheIndex(nonce, cache)
    ensures r == -1 <==> IsStale(nonce, cache)
    ensures r != -1 ==>
              && 0 <= r <= |cache|
              && (forall j :: 0 <= j < r ==> !Covers(nonce, cache[j]))
              && (r < |cache| ==> Covers(nonce, cache[r]))
  {
    if |cache| > 0 && cache[0].sequenceStart.Some? && nonce < cache[0].sequenceStart.value - 1 {
      return -1;
    }
    var i := 0;
    while i < |cache|
      invariant 0 <= i <= |cache|
      invariant FirstCovering(nonce, cache, i) == FirstCovering(nonce, cache, 0)
    {
      var delta := cache[i];
      if delta.sequenceStart.Some? && delta.sequenceEnd.Some?
         && nonce >= delta.sequenceStart.value - 1 && nonce < delta.sequenceEnd.value {
        return i;
      }
      i := i + 1;
    }
    return |cache|;
  }

  /** A delta with window [start, end] and no level changes. */
  function Window(start: int, end: int): Payload {
    Payload(Some(start), Some(end), None, None, [], [])
  }

  /** Windows [100,105], [106,110], [111,115] and a snapshot at 107 select the second delta. */
  lemma ExampleCacheIndex()
    ensures CacheIndex(107, [Window(100, 105), Window(106, 110), Window(111, 115)]) == 1
    ensures CacheIndex(98, [Window(100, 105), Window(106, 110), Window(111, 115)]) == -1
    ensures CacheIndex(115, [Window(100, 105), Window(106, 110), Window(111, 115)]) == 3
  {
    var cache := [Window(100, 105), Window(106, 110), Window(111, 115)];
    assert !Covers(107, cache[0]) && Covers(107, cache[1]);
    assert !Covers(115, cache[0]) && !Covers(115, cache[1]) && !Covers(115, cache[2]);
  }

  // ---------------------------------------------------------------------
  // The mutable book

  /** One side of a book, updated in place. */
  class OrderBookSide {
    var levels: map<int, int>

    constructor ()
      ensures levels == map[]
    {
      levels := map[];
    }

    /** Stores one level: size 0 removes its price, any other size sets it. */
    method StoreArray(level: Level)
      modifies this
      ensures levels == Stored(old(levels), level)
    {
      if level.size == 0 {
        levels := levels - {level.price};
      } else {
        levels := levels[level.price := level.size];
      }
    }

    /** Removes every level. */
    method Clear()
      modifies this
      ensures levels == map[]
    {
      levels := map[];
    }
  }

  /** A book, updated in place by the message handlers. */
  class OrderBook {
    const bids: OrderBookSide
    const asks: OrderBookSide
    var nonce: Option<int>
    var timestamp: Option<int>
    var cache: seq<Payload>
    var symbol: Option<string>

    /** The two sides are distinct objects. */
    predicate Valid() {
      bids != asks
    }

    /** The book as a value. */
    function Model(): BookState
      reads this, bids, asks
    {
      BookState(bids.levels, asks.levels, nonce, timestamp, cache, symbol)
    }

    constructor ()
      ensures Valid() && Model() == NewBook(None)
      ensures fresh(bids) && fresh(asks)
    {
      bids := new OrderBookSide();
      asks := new OrderBookSide();
      nonce := None;
      timestamp := None;
      cache := [];
      symbol := None;
    }

    /** Empties both sides and clears nonce, time and symbol. */
    method Reset()
      requires Valid()
      modifies this, bids, asks
      ensures Model() == ResetBook(old(Model()))
    {
      bids.Clear();
      asks.Clear();
      nonce := None;
      timestamp := None;
      symbol := None;
    }
  }

  /** Stores the listed levels into `bookSide`, in list order. */
  method HandleBidAsks(bookSide: OrderBookSide, bidAsks: seq<Level>)
    modifies bookSide
    ensures bookSide.levels == StoredAll(old(bookSide.levels), bidAsks)
  {
    var i := 0;
    while i < |bidAsks|
      invariant 0 <= i <= |bidAsks|
      invariant bookSide.levels == StoredAll(old(bookSide.levels), bidAsks[..i])
    {
      bookSide.StoreArray(bidAsks[i]);
      assert bidAsks[..i + 1][..i] == bidAsks[..i];
      i := i + 1;
    }
    assert bidAsks[..|bidAsks|] == bidAsks;
  }

  /** Applies one delta to `orderbook` in place. */
  method HandleDelta(orderbook: OrderBook, delta: Payload)
    requires orderbook.Valid()
    modifies orderbook, orderbook.bids, orderbook.asks
    ensures orderbook.Model() == ApplyDelta(old(orderbook.Model()), delta)
  {
    var timestamp := if delta.time.Some? then delta.time else delta.timestamp;
    orderbook.nonce := if delta.sequenceEnd.Some? then delta.sequenceEnd else timestamp;
    orderbook.timestamp := timestamp;
    HandleBidAsks(orderbook.bids, delta.bids);
    HandleBidAsks(orderbook.asks, delta.asks);
  }
}
