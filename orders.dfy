/**
 * Order statuses of the private order feed, and the rule that keeps a
 * closed order closed when later updates for it arrive.
 */
module Orders {
  import opened Wrappers
  import opened SymbolIdCache

  /** The fields of a parsed order the adapter's own logic reads. */
  datatype Order = Order(status: Option<string>, triggerPrice: Option<string>)

  /** The fields of a parsed trade of the user's own; the cache reads only its symbol and id. */
  datatype Trade = Trade(order: Option<string>, side: Option<string>, price: Option<string>, amount: Option<string>)

  /** The exchange's order event types that have a unified status name. */
  function StatusTable(): map<string, string> {
    map["open" := "open", "filled" := "closed", "match" := "open", "update" := "open",
        "canceled" := "canceled", "cancel" := "canceled", "TRIGGERED" := "triggered"]
  }

  /** The unified status of an order event type; a type the table does not list passes through. */
  function ParseWsOrderStatus(status: Option<string>): (r: Option<string>)
    ensures status.None? ==> r.None?
    ensures status.Some? && status.value !in StatusTable() ==> r == status
  {
    match status
    case None => None
    case Some(s) => if s in StatusTable() then Some(StatusTable()[s]) else status
  }

  /** Mapping a status a second time changes nothing: every unified name maps to itself or is not listed. */
  lemma ParseWsOrderStatusIdempotent(status: Option<string>)
    ensures ParseWsOrderStatus(ParseWsOrderStatus(status)) == ParseWsOrderStatus(status)
  {
    var t := StatusTable();
    assert "closed" !in t && "triggered" !in t;
    assert t["open"] == "open" && t["canceled"] == "canceled";
  }

  /**
   * The status of an order event: its type mapped through the table, except
   * that a triggered stop order whose `triggerSuccess` is present and not
   * `true` counts as canceled. Only that case departs from the table.
   */
  function WsOrderStatus(rawType: Option<string>, triggerSuccess: Option<bool>): (r: Option<string>)
    ensures r == Some("triggered") ==> triggerSuccess != Some(false)
    ensures ParseWsOrderStatus(rawType) == Some("triggered") && triggerSuccess == Some(false) ==> r == Some("canceled")
    ensures ParseWsOrderStatus(rawType) == Some("triggered") && triggerSuccess != Some(false) ==> r == Some("triggered")
    ensures ParseWsOrderStatus(rawType) != Some("triggered") ==> r == ParseWsOrderStatus(rawType)
  {
    var status := ParseWsOrderStatus(rawType);
    var triggerFail := triggerSuccess != Some(true) && triggerSuccess.Some?;
    assert triggerFail <==> triggerSuccess == Some(false) by {
      if triggerSuccess.Some? { assert triggerSuccess.value || !triggerSuccess.value; }
    }
    if status == Some("triggered") && triggerFail then Some("canceled") else status
  }

  /** A parsed order is a trigger order when it has a trigger price; such orders go to their own cache. */
  predicate IsTriggerOrder(o: Item<Order>) {
    o.data.triggerPrice.Some?
  }

  /**
   * The record `handleOrder` files: once the cached record of an order is
   * closed, the record filed for a later update of it is closed too;
   * otherwise the parsed order is filed as it is. The keys and the trigger
   * price are never changed.
   */
  function StickyStatus(cached: Option<Item<Order>>, parsed: Item<Order>): (r: Item<Order>)
    ensures r.symbol == parsed.symbol && r.id == parsed.id && r.data.triggerPrice == parsed.data.triggerPrice
    ensures cached.Some? && cached.value.data.status == Some("closed") ==> r.data.status == Some("closed")
    ensures cached.None? || cached.value.data.status != Some("closed") ==> r == parsed
  {
    if cached.Some? && cached.value.data.status == Some("closed") then
      parsed.(data := parsed.data.(status := Some("closed")))
    else parsed
  }

  /** The order cache after `handleOrder` files the parsed order `parsed`. */
  function OrderUpdated(s: State<Order>, parsed: Item<Order>): (r: State<Order>)
    requires Aligned(s)
    ensures parsed.symbol in r.hashmap && r.maxSize == s.maxSize
    ensures CachedRecord(s, parsed.symbol, parsed.id).Some? ==>
      |r.deque| > 0 && r.deque[|r.deque| - 1].symbol == parsed.symbol && r.deque[|r.deque| - 1].id == parsed.id
  {
    Appended(s, StickyStatus(CachedRecord(s, parsed.symbol, parsed.id), parsed))
  }

  /**
   * An order whose cached record is closed stays closed in the cache: the
   * update takes the cache's update path (so it never underflows), files a
   * closed record under the order's key and puts it at the tail.
   */
  lemma ClosedOrderStaysClosedInCache(s: State<Order>, parsed: Item<Order>)
    requires Aligned(s)
    requires CachedRecord(s, parsed.symbol, parsed.id).Some?
    requires CachedRecord(s, parsed.symbol, parsed.id).value.data.status == Some("closed")
    ensures var r := OrderUpdated(s, parsed);
      && CachedRecord(r, parsed.symbol, parsed.id).Some?
      && CachedRecord(r, parsed.symbol, parsed.id).value.data.status == Some("closed")
      && |r.deque| > 0 && r.deque[|r.deque| - 1].id == parsed.id
      && r.deque[|r.deque| - 1].data.status == Some("closed")
  {
    var item := StickyStatus(CachedRecord(s, parsed.symbol, parsed.id), parsed);
    assert IsKnown(s, item);
    AppendFilesItem(s, item);
    AppendKeepsAligned(s, item);
  }
}
