/**
 * The bounded, insertion-ordered cache of records keyed by (symbol, id)
 * that the exchange adapter uses for orders and for the user's own trades.
 *
 * The cache keeps three views of its records:
 *   - `deque`, the records in insertion order, oldest first;
 *   - `index`, the bare id of each record in `deque`, slot by slot;
 *   - `hashmap`, symbol -> id -> record.
 * `Appended` states what one `append` does to all of them; the class
 * `ArrayCacheBySymbolById` performs the same steps in place.
 */
module SymbolIdCache {
  import opened Wrappers

  /** A cached record: the symbol and id it is filed under, and its payload. */
  datatype Item<P> = Item(symbol: string, id: string, data: P)

  /** Everything `append` reads or writes. */
  datatype State<P> = State(
    deque: seq<Item<P>>,
    index: seq<string>,
    hashmap: map<string, map<string, Item<P>>>,
    maxSize: Option<nat>,   // None: the cache was built without a size bound
    newUpdates: nat,
    clearUpdates: bool)

  /** `index` holds, slot by slot, the id of the record in `deque`. */
  predicate Aligned<P>(s: State<P>) {
    |s.deque| == |s.index| && forall i :: 0 <= i < |s.index| ==> s.index[i] == s.deque[i].id
  }

  /** The empty cache a constructor call produces. */
  function Empty<P>(maxSize: Option<nat>): State<P> {
    State([], [], map[], maxSize, 0, false)
  }

  /** The position of the first occurrence of `id` in `index` (what the deque's `find` returns). */
  function Find(index: seq<string>, id: string): (r: Option<nat>)
    ensures r.Some? ==> r.value < |index| && index[r.value] == id
    ensures r.Some? ==> forall j :: 0 <= j < r.value ==> index[j] != id
    ensures r.None? <==> id !in index
  {
    if |index| == 0 then None
    else if index[0] == id then Some(0)
    else match Find(index[1..], id)
      case None => None
      case Some(k) => Some(k + 1)
  }

  /** `s` without the element at position `k`. */
  function RemoveAt<T>(s: seq<T>, k: nat): (r: seq<T>)
    requires k < |s|
    ensures |r| == |s| - 1
    ensures forall j :: 0 <= j < k ==> r[j] == s[j]
    ensures forall j :: k <= j < |r| ==> r[j] == s[j + 1]
  {
    s[..k] + s[k + 1..]
  }

  /** The id -> record map of `symbol`, empty when the symbol has none yet. */
  function SymbolMap<P>(s: State<P>, symbol: string): map<string, Item<P>> {
    if symbol in s.hashmap then s.hashmap[symbol] else map[]
  }

  /** The record the cache holds under (symbol, id), if any. */
  function CachedRecord<P>(s: State<P>, symbol: string, id: string): (r: Option<Item<P>>)
    ensures r.Some? <==> id in SymbolMap(s, symbol)
    ensures r.Some? ==> r.value == SymbolMap(s, symbol)[id]
  {
    if id in SymbolMap(s, symbol) then Some(SymbolMap(s, symbol)[id]) else None
  }

  /** `append` takes its update path: the item's own symbol map already has its id. */
  predicate IsKnown<P>(s: State<P>, item: Item<P>) {
    item.id in SymbolMap(s, item.symbol)
  }

  /** `append` takes its eviction branch: a new id arrives while the deque holds exactly `maxSize` records. */
  predicate IsFull<P>(s: State<P>, item: Item<P>) {
    !IsKnown(s, item) && s.maxSize == Some(|s.deque|)
  }

  /** The eviction branch shifts an empty deque (a size bound of 0), which raises an underflow error. */
  predicate Underflows<P>(s: State<P>, item: Item<P>) {
    IsFull(s, item) && |s.deque| == 0
  }

  /**
   * The slot the update path unsets. A miss in `find` yields `false`,
   * which the deque reads as offset 0.
   */
  function UpdateSlot(index: seq<string>, id: string): (r: nat)
    ensures id in index ==> r < |index| && index[r] == id && forall j :: 0 <= j < r ==> index[j] != id
    ensures id !in index ==> r == 0
  {
    match Find(index, id)
    case Some(k) => k
    case None => 0
  }

  /** The common tail of `append`: push the item and its id, then count the update. */
  function Pushed<P>(s: State<P>, item: Item<P>): State<P> {
    var s' := s.(deque := s.deque + [item], index := s.index + [item.id]);
    if s.clearUpdates then s'.(clearUpdates := false, newUpdates := 1)
    else s'.(newUpdates := s.newUpdates + 1)
  }

  /** Files `item` under its symbol and id, creating the symbol's map when it has none. */
  function Filed<P>(s: State<P>, item: Item<P>): State<P> {
    s.(hashmap := s.hashmap[item.symbol := SymbolMap(s, item.symbol)[item.id := item]])
  }

  /** The update path's removal: unsets the slot `find` reports for `id`, in both deque and index. */
  function Unset<P>(s: State<P>, id: string): State<P>
    requires Aligned(s)
  {
    var k := UpdateSlot(s.index, id);
    if k < |s.deque| then s.(deque := RemoveAt(s.deque, k), index := RemoveAt(s.index, k)) else s
  }

  /** Eviction: shifts the oldest slot out and deletes its id from the map of `symbol`. */
  function Evicted<P>(s: State<P>, symbol: string): State<P>
    requires Aligned(s) && |s.deque| > 0
  {
    s.(deque := s.deque[1..], index := s.index[1..],
       hashmap := s.hashmap[symbol := SymbolMap(s, symbol) - {s.index[0]}])
  }

  /**
   * The state once `append` has filed the item in its symbol map and made
   * room in the deque, just before the final push; on an underflow, the
   * state left behind when the error is raised.
   */
  function Prepared<P>(s: State<P>, item: Item<P>): (r: State<P>)
    requires Aligned(s)
    ensures item.symbol in r.hashmap
    ensures r.maxSize == s.maxSize && r.newUpdates == s.newUpdates && r.clearUpdates == s.clearUpdates
    ensures |r.deque| <= |s.deque|
    ensures !IsKnown(s, item) && !IsFull(s, item) ==> r.deque == s.deque && r.index == s.index
  {
    var f := Filed(s, item);
    if IsKnown(s, item) then Unset(f, item.id)
    else if IsFull(s, item) && |s.deque| > 0 then Evicted(f, item.symbol)
    else f
  }

  /** The state after `append(item)`; on an underflow, the state left behind when the error is raised. */
  function Appended<P>(s: State<P>, item: Item<P>): (r: State<P>)
    requires Aligned(s)
    ensures item.symbol in r.hashmap && r.maxSize == s.maxSize
    ensures Underflows(s, item) ==> r.deque == s.deque
    ensures !Underflows(s, item) ==> |r.deque| > 0 && r.deque[|r.deque| - 1] == item
  {
    if Underflows(s, item) then Prepared(s, item) else Pushed(Prepared(s, item), item)
  }

  /** `append` keeps `deque` and `index` aligned, and a completed append leaves the item and its id last. */
  lemma AppendKeepsAligned<P>(s: State<P>, item: Item<P>)
    requires Aligned(s)
    ensures Aligned(Appended(s, item))
    ensures !Underflows(s, item) ==>
      var r := Appended(s, item);
      |r.deque| > 0 && r.deque[|r.deque| - 1] == item && r.index[|r.index| - 1] == item.id
  {
    var p := Prepared(s, item);
    if IsKnown(s, item) {
      var k := UpdateSlot(s.index, item.id);
      if k < |s.deque| {
        assert forall i :: 0 <= i < |p.index| ==> p.index[i] == p.deque[i].id;
      }
    }
    assert Aligned(p);
  }

  /** With a size bound of at least 1, a cache within its bound stays within it after `append`. */
  lemma AppendRespectsMaxSize<P>(s: State<P>, item: Item<P>, m: nat)
    requires Aligned(s) && s.maxSize == Some(m) && 1 <= m && |s.deque| <= m
    ensures |Appended(s, item).deque| <= m
  {
    var f := Filed(s, item);
    if IsKnown(s, item) {
      assert |Unset(f, item.id).deque| <= |s.deque|;
    } else if IsFull(s, item) {
      assert |Evicted(f, item.symbol).deque| == m - 1;
    }
  }

  /** Without a size bound, a new id is always appended and nothing is evicted. */
  lemma AppendWithoutMaxSizeNeverEvicts<P>(s: State<P>, item: Item<P>)
    requires Aligned(s) && s.maxSize.None? && !IsKnown(s, item)
    ensures Appended(s, item).deque == s.deque + [item]
    ensures Appended(s, item).index == s.index + [item.id]
  {
    assert !IsFull(s, item);
  }

  /**
   * An id already in its symbol's map moves to the tail: the slot `find`
   * reports for the id (by id alone, whatever that slot's symbol) is
   * removed, the new record is pushed, and the length is unchanged.
   */
  lemma AppendKnownIdMovesToTail<P>(s: State<P>, item: Item<P>)
    requires Aligned(s) && IsKnown(s, item) && item.id in s.index
    ensures var k := Find(s.index, item.id).value;
      && Appended(s, item).deque == RemoveAt(s.deque, k) + [item]
      && Appended(s, item).index == RemoveAt(s.index, k) + [item.id]
      && |Appended(s, item).deque| == |s.deque|
  {
    var k := Find(s.index, item.id).value;
    assert UpdateSlot(s.index, item.id) == k;
    assert Unset(Filed(s, item), item.id).deque == RemoveAt(s.deque, k);
  }

  /**
   * An id in its symbol's map but in no slot of `index` (a stale entry):
   * `find` misses, and the oldest slot is removed in its place.
   */
  lemma AppendStaleIdDropsOldest<P>(s: State<P>, item: Item<P>)
    requires Aligned(s) && IsKnown(s, item) && item.id !in s.index && |s.deque| > 0
    ensures Appended(s, item).deque == s.deque[1..] + [item]
    ensures Appended(s, item).index == s.index[1..] + [item.id]
  {
    assert UpdateSlot(s.index, item.id) == 0;
    assert RemoveAt(s.deque, 0) == s.deque[1..];
    assert RemoveAt(s.index, 0) == s.index[1..];
  }

  /** A new id arriving when the deque holds exactly `maxSize` records evicts exactly the oldest slot. */
  lemma AppendNewIdWhenFullEvictsOldest<P>(s: State<P>, item: Item<P>)
    requires Aligned(s) && IsFull(s, item) && |s.deque| > 0
    ensures Appended(s, item).deque == s.deque[1..] + [item]
    ensures Appended(s, item).index == s.index[1..] + [item.id]
    ensures |Appended(s, item).deque| == |s.deque|
  {
  }

  /** A new id arriving below the bound is appended: one more slot, earlier slots in their order. */
  lemma AppendNewIdBelowMaxSizeGrows<P>(s: State<P>, item: Item<P>)
    requires Aligned(s) && !IsKnown(s, item) && s.maxSize != Some(|s.deque|)
    ensures Appended(s, item).deque == s.deque + [item]
    ensures Appended(s, item).index == s.index + [item.id]
  {
  }

  /** A completed `append` restarts the count at 1 after a consumer asked for it, and otherwise adds 1. */
  lemma AppendCountsUpdate<P>(s: State<P>, item: Item<P>)
    requires Aligned(s) && !Underflows(s, item)
    ensures !Appended(s, item).clearUpdates
    ensures Appended(s, item).newUpdates == if s.clearUpdates then 1 else s.newUpdates + 1
  {
    var p := Prepared(s, item);
    assert p.clearUpdates == s.clearUpdates && p.newUpdates == s.newUpdates;
  }

  /**
   * After `append`, the item's symbol map holds the item under its id,
   * unless the evicted slot carried the same id: eviction then deletes
   * the entry just filed.
   */
  lemma AppendFilesItem<P>(s: State<P>, item: Item<P>)
    requires Aligned(s)
    ensures var h := Appended(s, item).hashmap;
      var evictsSameId := IsFull(s, item) && |s.deque| > 0 && s.index[0] == item.id;
      && item.symbol in h
      && (!evictsSameId ==> item.id in h[item.symbol] && h[item.symbol][item.id] == item)
      && (evictsSameId ==> item.id !in h[item.symbol])
  {
  }

  /**
   * `append` changes no map other than the item's own symbol's, and in that
   * map no entry other than the item's id and, on eviction, the evicted id:
   * the evicted id is never deleted from the evicted record's own symbol map.
   */
  lemma AppendChangesOnlyItsSymbolMap<P>(s: State<P>, item: Item<P>)
    requires Aligned(s)
    ensures var h := Appended(s, item).hashmap;
      forall sym :: sym != item.symbol ==> SymbolMap(Appended(s, item), sym) == SymbolMap(s, sym) && (sym in h <==> sym in s.hashmap)
    ensures var before := SymbolMap(s, item.symbol);
      var after := SymbolMap(Appended(s, item), item.symbol);
      var evicted := if IsFull(s, item) && |s.deque| > 0 then {s.index[0]} else {};
      forall id :: id != item.id && id !in evicted ==> (id in after <==> id in before) && (id in after ==> after[id] == before[id])
    ensures IsFull(s, item) && |s.deque| > 0 ==> s.index[0] !in SymbolMap(Appended(s, item), item.symbol)
  {
    var p := Prepared(s, item);
    var f := Filed(s, item);
    assert Appended(s, item).hashmap == p.hashmap;
    if IsKnown(s, item) {
      assert p.hashmap == f.hashmap;
    } else if IsFull(s, item) && |s.deque| > 0 {
      assert p.hashmap == f.hashmap[item.symbol := SymbolMap(f, item.symbol) - {s.index[0]}];
    } else {
      assert p.hashmap == f.hashmap;
    }
  }

  /** Bound 3: ids 1, 2, 3, 4 of one symbol leave 2, 3, 4 in order; the oldest is evicted. */
  lemma ExampleFifoEviction()
    ensures var s0 := Empty<int>(Some(3));
      var s1 := Appended(s0, Item("A", "1", 0));
      var s2 := Appended(s1, Item("A", "2", 0));
      var s3 := Appended(s2, Item("A", "3", 0));
      var s4 := Appended(s3, Item("A", "4", 0));
      Aligned(s4) && s4.index == ["2", "3", "4"] && s4.hashmap["A"].Keys == {"2", "3", "4"}
  {
    var s0 := Empty<int>(Some(3));
    var s1 := Appended(s0, Item("A", "1", 0));
    AppendKeepsAligned(s0, Item("A", "1", 0));
    var s2 := Appended(s1, Item("A", "2", 0));
    AppendKeepsAligned(s1, Item("A", "2", 0));
    var s3 := Appended(s2, Item("A", "3", 0));
    AppendKeepsAligned(s2, Item("A", "3", 0));
    assert s3.index == ["1", "2", "3"];
    AppendNewIdWhenFullEvictsOldest(s3, Item("A", "4", 0));
    AppendKeepsAligned(s3, Item("A", "4", 0));
  }

  /** Bound 3 holding (A,1), (B,2), (C,3): a new record for id 2 of B moves to the tail, length 3. */
  lemma ExampleUpdateMovesToTail()
    ensures var a, b, c := Item("A", "1", 0), Item("B", "2", 0), Item("C", "3", 0);
      var s3 := State([a, b, c], ["1", "2", "3"],
                      map["A" := map["1" := a], "B" := map["2" := b], "C" := map["3" := c]], Some(3), 3, false);
      var s4 := Appended(s3, Item("B", "2", 1));
      s4.deque == [a, c, Item("B", "2", 1)] && s4.hashmap["B"]["2"] == Item("B", "2", 1)
  {
    var a, b, c := Item("A", "1", 0), Item("B", "2", 0), Item("C", "3", 0);
    var s3 := State([a, b, c], ["1", "2", "3"],
                    map["A" := map["1" := a], "B" := map["2" := b], "C" := map["3" := c]], Some(3), 3, false);
    assert IsKnown(s3, Item("B", "2", 1));
    AppendKnownIdMovesToTail(s3, Item("B", "2", 1));
    AppendFilesItem(s3, Item("B", "2", 1));
  }

  /**
   * Bound 1: appending (B,2) after (A,1) evicts (A,1) but deletes id 1 from
   * the map of B; the map of A keeps a stale entry for a record no slot holds.
   */
  lemma ExampleEvictionLeavesStaleEntry()
    ensures var s0 := Empty<int>(Some(1));
      var s1 := Appended(s0, Item("A", "1", 0));
      var s2 := Appended(s1, Item("B", "2", 0));
      s2.deque == [Item("B", "2", 0)] && "1" in s2.hashmap["A"]
  {
    var s0 := Empty<int>(Some(1));
    var s1 := Appended(s0, Item("A", "1", 0));
    AppendKeepsAligned(s0, Item("A", "1", 0));
    assert s1.index == ["1"];
    AppendChangesOnlyItsSymbolMap(s1, Item("B", "2", 0));
    assert SymbolMap(s1, "A") == map["1" := Item("A", "1", 0)];
  }

  /**
   * Bound 1: appending (B,1) after (A,1) evicts the slot of id 1, and the
   * deletion from the map of B removes the entry just filed for (B,1),
   * although (B,1) is the one record the deque holds.
   */
  lemma ExampleEvictingSameIdUnfilesItem()
    ensures var s0 := Empty<int>(Some(1));
      var s1 := Appended(s0, Item("A", "1", 0));
      var s2 := Appended(s1, Item("B", "1", 0));
      s2.deque == [Item("B", "1", 0)] && "1" !in s2.hashmap["B"]
  {
    var s0 := Empty<int>(Some(1));
    var s1 := Appended(s0, Item("A", "1", 0));
    AppendKeepsAligned(s0, Item("A", "1", 0));
    assert s1.index == ["1"];
    AppendFilesItem(s1, Item("B", "1", 0));
  }

  /**
   * Bound 3 holding (A,1), (B,1): updating (B,1) looks its slot up by the
   * bare id, finds the slot of (A,1) first and removes that record instead.
   */
  lemma ExampleUpdateFindsSlotByIdAlone()
    ensures var s0 := Empty<int>(Some(3));
      var s1 := Appended(s0, Item("A", "1", 0));
      var s2 := Appended(s1, Item("B", "1", 0));
      var s3 := Appended(s2, Item("B", "1", 1));
      && s3.deque == [Item("B", "1", 0), Item("B", "1", 1)]
      && s3.index == ["1", "1"]
      && s3.hashmap["A"]["1"] == Item("A", "1", 0)
      && s3.hashmap["B"]["1"] == Item("B", "1", 1)
  {
    var s0 := Empty<int>(Some(3));
    var s1 := Appended(s0, Item("A", "1", 0));
    AppendKeepsAligned(s0, Item("A", "1", 0));
    var s2 := Appended(s1, Item("B", "1", 0));
    AppendKeepsAligned(s1, Item("B", "1", 0));
    assert s2.index == ["1", "1"];
    assert IsKnown(s2, Item("B", "1", 1));
    AppendKnownIdMovesToTail(s2, Item("B", "1", 1));
  }

  class ArrayCacheBySymbolById<P> {
    var deque: seq<Item<P>>
    var index: seq<string>
    var hashmap: map<string, map<string, Item<P>>>
    var maxSize: Option<nat>
    var newUpdates: nat
    var clearUpdates: bool

    /** The cache's fields as one value. */
    function Model(): State<P>
      reads this
    {
      State(deque, index, hashmap, maxSize, newUpdates, clearUpdates)
    }

    /** The object invariant: `deque` and `index` stay aligned. */
    predicate Valid()
      reads this
    {
      Aligned(Model())
    }

    constructor (maxSize: Option<nat>)
      ensures Valid() && Model() == Empty(maxSize)
    {
      deque := [];
      index := [];
      hashmap := map[];
      this.maxSize := maxSize;
      newUpdates := 0;
      clearUpdates := false;
    }

    /** The record filed under `symbol` and `id`, if any. */
    function Lookup(symbol: string, id: string): (r: Option<Item<P>>)
      reads this
      ensures r.Some? <==> symbol in hashmap && id in hashmap[symbol]
      ensures r.Some? ==> r.value == hashmap[symbol][id]
    {
      CachedRecord(Model(), symbol, id)
    }

    /** Files `item`; `ok` is false when the underflow error is raised part-way. */
    method Append(item: Item<P>) returns (ok: bool)
      requires Valid()
      modifies this
      ensures Valid()
      ensures ok == !Underflows(old(Model()), item)
      ensures Model() == Appended(old(Model()), item)
    {
      AppendKeepsAligned(Model(), item);
      ok := Prepare(item);
      if ok {
        Push(item);
      }
    }

    /**
     * The first half of `append`: files the item in its symbol's map and,
     * for a known id, unsets its slot or, for a new id in a full cache,
     * shifts out the oldest slot.
     */
    method Prepare(item: Item<P>) returns (ok: bool)
      requires Valid()
      modifies this
      ensures ok == !Underflows(old(Model()), item)
      ensures Model() == Prepared(old(Model()), item)
    {
      var known := item.symbol in hashmap && item.id in hashmap[item.symbol];
      var full := maxSize == Some(|deque|);
      File(item);
      if known {
        UnsetSlot(item.id);
      } else if full {
        if |deque| == 0 {
          // shifting the empty deque raises the underflow error
          return false;
        }
        Evict(item.symbol);
      }
      ok := true;
    }

    /** Files `item` in its symbol's map, creating the map on first use. */
    method File(item: Item<P>)
      modifies this`hashmap
      ensures Model() == Filed(old(Model()), item)
    {
      var byId: map<string, Item<P>>;
      if item.symbol in hashmap {
        byId := hashmap[item.symbol];
      } else {
        byId := map[];
      }
      byId := byId[item.id := item];
      hashmap := hashmap[item.symbol := byId];
    }

    /** Unsets, in `index` and `deque`, the slot `find` reports for `id`. */
    method UnsetSlot(id: string)
      requires Valid()
      modifies this`deque, this`index
      ensures Model() == Unset(old(Model()), id)
    {
      var found := Find(index, id);
      var k := if found.Some? then found.value else 0;
      if k < |index| {
        index := RemoveAt(index, k);
        deque := RemoveAt(deque, k);
      }
    }

    /** Shifts the oldest slot out of `deque` and `index` and deletes its id from the map of `symbol`. */
    method Evict(symbol: string)
      requires Valid() && |deque| > 0
      modifies this`deque, this`index, this`hashmap
      ensures Model() == Evicted(old(Model()), symbol)
    {
      deque := deque[1..];
      var deleteReference := index[0];
      index := index[1..];
      var byId := if symbol in hashmap then hashmap[symbol] else map[];
      hashmap := hashmap[symbol := byId - {deleteReference}];
    }

    /** The second half of `append`: pushes the item and its id and counts the update. */
    method Push(item: Item<P>)
      modifies this
      ensures Model() == Pushed(old(Model()), item)
    {
      deque := deque + [item];
      index := index + [item.id];
      if clearUpdates {
        clearUpdates := false;
        newUpdates := 0;
      }
      newUpdates := newUpdates + 1;
    }
  }
}
