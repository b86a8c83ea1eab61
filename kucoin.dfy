/**
 * The exchange adapter's mutable state and the handlers that change it:
 * the request counter, the endpoint memo, the order books by symbol, and
 * the lazily created caches of orders, trigger orders and the user's own
 * trades; and the websocket client's subscription table.
 */
module KucoinAdapter {
  import opened Wrappers
  import opened Strings
  import opened Subscriptions
  import opened Negotiation
  import opened OrderBookSync
  import opened SymbolIdCache
  import opened Orders
  import Dispatch

  /** Default bound of the order caches (no `ordersLimit` option is set). */
  const DefaultOrdersLimit: nat := 1000

  /** Default bound of the user's trade cache (the `tradesLimit` option). */
  const DefaultTradesLimit: nat := 1000

  /** A websocket connection: the URL it was opened on and its subscription table. */
  class Client {
    const url: string
    var subscriptions: Table

    constructor (url: string)
      ensures this.url == url && subscriptions == map[]
    {
      this.url := url;
      subscriptions := map[];
    }
  }

  /** Two books share no object: neither the book nor any side. */
  predicate Separate(a: OrderBook, b: OrderBook) {
    && a != b
    && a.bids != b.bids && a.bids != b.asks
    && a.asks != b.bids && a.asks != b.asks
  }

  /** The ping frame carrying request id `id`. */
  function PingFrame(id: string): Frame {
    map["id" := Str(id), "type" := Str("ping")]
  }

  /** The subscription a watched order book registers: with the snapshot callback on the level-2 channel, empty otherwise. */
  function BookSubscription(fetchesSnapshot: bool, symbols: seq<string>, limit: Option<int>): Subscription {
    if fetchesSnapshot then Subscription(Some(OrderBookSubscription), symbols, limit)
    else Subscription(None, [], None)
  }

  /** Request ids are printed from a counter that only grows, so two requests never share an id. */
  lemma RequestIdsNeverRepeat(before: nat, after: nat)
    requires before < after
    ensures DecimalString(before + 1) != DecimalString(after + 1)
  {
    if DecimalString(before + 1) == DecimalString(after + 1) {
      DecimalStringInjective(before + 1, after + 1);
    }
  }

  /**
   * The steps `handleOrderBook` takes on the symbol's book once it exists:
   * a full book resets it (unless just created) and is applied; a delta is
   * buffered before the first snapshot, dropped when stale, applied
   * otherwise.
   */
  method HandleBookMessage(book: OrderBook, created: bool, symbol: string, subject: Option<string>,
                           data: Payload, snapshotDelay: int) returns (outcome: Outcome)
    requires book.Valid()
    requires created ==> book.Model() == NewBook(None)
    modifies book, book.bids, book.asks
    ensures (book.Model(), outcome)
      == OnMessage(if created then None else Some(old(book.Model())), symbol, subject, data, snapshotDelay)
  {
    if subject == Some(FullBookSubject) {
      if !created {
        book.Reset();
      }
      book.symbol := Some(symbol);
    } else {
      var deltaEnd := DeltaEnd(data);
      if book.nonce.None? {
        outcome := Buffered(|book.cache| == snapshotDelay);
        book.cache := book.cache + [data];
        return;
      } else if deltaEnd.Some? && book.nonce.value >= deltaEnd.value {
        outcome := Dropped;
        return;
      }
    }
    HandleDelta(book, data);
    outcome := Resolved;
  }

  class Kucoin {
    /** The last request id handed out (the `requestId` option; absent counts as 0). */
    var requestCounter: nat
    /** The endpoint memo by channel class (the `urls` option). */
    var urls: Memo
    /** The ticket of the next negotiation started (the identity of the next future). */
    var nextTicket: nat
    var orderbooks: map<string, OrderBook>
    var orders: ArrayCacheBySymbolById?<Order>
    var triggerOrders: ArrayCacheBySymbolById?<Order>
    var myTrades: ArrayCacheBySymbolById?<Trade>
    /** The `ordersLimit`, `tradesLimit` and `watchOrderBook.snapshotDelay` options. */
    const ordersLimit: nat
    const tradesLimit: nat
    const snapshotDelay: int

    /** Every memoised negotiation has a ticket already handed out. */
    predicate TicketsIssued()
      reads this
    {
      forall c :: c in urls ==> urls[c].ticket < nextTicket
    }

    /** Every book is well formed and no two books share an object. */
    predicate BooksValid()
      reads this
    {
      && (forall s :: s in orderbooks ==> orderbooks[s].Valid())
      && (forall s, t :: s in orderbooks && t in orderbooks && s != t ==> Separate(orderbooks[s], orderbooks[t]))
    }

    /** The two order caches exist together, are distinct and well formed. */
    predicate OrdersValid()
      reads this, orders, triggerOrders
    {
      && (orders == null <==> triggerOrders == null)
      && (orders != null ==> orders != triggerOrders && orders.Valid() && triggerOrders.Valid())
    }

    /** The trade cache, once created, is well formed. */
    predicate TradesValid()
      reads this, myTrades
    {
      myTrades != null ==> myTrades.Valid()
    }

    /** A client; an option that is not set takes its default. */
    constructor (ordersLimit: nat := DefaultOrdersLimit, tradesLimit: nat := DefaultTradesLimit,
                 snapshotDelay: int := DefaultSnapshotDelay)
      ensures requestCounter == 0 && urls == map[] && orderbooks == map[]
      ensures orders == null && triggerOrders == null && myTrades == null
      ensures this.ordersLimit == ordersLimit && this.tradesLimit == tradesLimit
      ensures this.snapshotDelay == snapshotDelay
      ensures TicketsIssued() && BooksValid() && OrdersValid() && TradesValid()
    {
      requestCounter := 0;
      urls := map[];
      nextTicket := 0;
      orderbooks := map[];
      orders := null;
      triggerOrders := null;
      myTrades := null;
      this.ordersLimit := ordersLimit;
      this.tradesLimit := tradesLimit;
      this.snapshotDelay := snapshotDelay;
    }

    // -------------------------------------------------------------------
    // Requests

    /** The next request id: one more than the last. */
    method RequestId() returns (id: nat)
      modifies this`requestCounter
      ensures id == old(requestCounter) + 1 && requestCounter == id
    {
      requestCounter := requestCounter + 1;
      id := requestCounter;
    }

    /**
     * Sends a subscribe request for `subscriptionHash` under a fresh request
     * id, which the client's table records unless the hash is already a key.
     */
    method Subscribe(client: Client, subscriptionHash: string, params: Frame) returns (frame: Frame)
      modifies this`requestCounter, client`subscriptions
      ensures requestCounter == old(requestCounter) + 1
      ensures frame == SubscribeFrame(DecimalString(requestCounter), subscriptionHash, params)
      ensures client.subscriptions == Register(old(client.subscriptions), DecimalString(requestCounter), subscriptionHash)
    {
      var n := RequestId();
      var requestId := DecimalString(n);
      frame := SubscribeRequest(requestId, subscriptionHash) + params;
      if subscriptionHash !in client.subscriptions {
        client.subscriptions := client.subscriptions[requestId := HashOf(subscriptionHash)];
      }
    }

    /**
     * Sends one subscribe request for `topic` covering several subscription
     * hashes; the request id is recorded once per hash not yet a key.
     */
    method SubscribeMultiple(client: Client, topic: string, subscriptionHashes: seq<string>, params: Frame)
      returns (frame: Frame)
      modifies this`requestCounter, client`subscriptions
      ensures requestCounter == old(requestCounter) + 1
      ensures frame == SubscribeFrame(DecimalString(requestCounter), topic, params)
      ensures client.subscriptions == RegisterAll(old(client.subscriptions), DecimalString(requestCounter), subscriptionHashes)
    {
      var n := RequestId();
      var requestId := DecimalString(n);
      frame := SubscribeRequest(requestId, topic) + params;
      var i := 0;
      while i < |subscriptionHashes|
        invariant 0 <= i <= |subscriptionHashes|
        invariant requestCounter == n
        invariant client.subscriptions == RegisterAll(old(client.subscriptions), requestId, subscriptionHashes[..i])
      {
        var subscriptionHash := subscriptionHashes[i];
        if subscriptionHash !in client.subscriptions {
          client.subscriptions := client.subscriptions[requestId := HashOf(subscriptionHash)];
        }
        assert subscriptionHashes[..i + 1][..i] == subscriptionHashes[..i];
        i := i + 1;
      }
      assert subscriptionHashes[..|subscriptionHashes|] == subscriptionHashes;
    }

    /**
     * The order-book subscription for several markets: the request checks,
     * then one request for all markets on the chosen channel. Returns the
     * frame sent and the subscription the watch registers.
     */
    method WatchOrderBookForSymbols(client: Client, symbols: seq<string>, marketIds: seq<string>,
                                    limit: Option<int>, configured: Option<string>, params: Frame)
      returns (r: Result<Frame, Dispatch.Error>, subscription: Subscription)
      requires |symbols| == |marketIds|
      modifies this`requestCounter, client`subscriptions
      ensures var plan := Dispatch.PlanOrderBook(marketIds, limit, configured);
        plan.Err? ==>
          && r == Err(plan.error)
          && requestCounter == old(requestCounter)
          && client.subscriptions == old(client.subscriptions)
      ensures var plan := Dispatch.PlanOrderBook(marketIds, limit, configured);
        plan.Ok? ==>
          && requestCounter == old(requestCounter) + 1
          && r == Ok(SubscribeFrame(DecimalString(requestCounter), plan.value.topic, params))
          && client.subscriptions
             == RegisterAll(old(client.subscriptions), DecimalString(requestCounter), plan.value.subscriptionHashes)
          && subscription == BookSubscription(plan.value.fetchesSnapshot, symbols, limit)
    {
      var plan := Dispatch.PlanOrderBook(marketIds, limit, configured);
      if plan.Err? {
        r := Err(plan.error);
        subscription := Subscription(None, [], None);
        return;
      }
      var frame := SubscribeMultiple(client, plan.value.topic, plan.value.subscriptionHashes, params);
      r := Ok(frame);
      subscription := BookSubscription(plan.value.fetchesSnapshot, symbols, limit);
    }

    /** The keep-alive frame: a ping under a fresh request id. */
    method Ping() returns (frame: Frame)
      modifies this`requestCounter
      ensures requestCounter == old(requestCounter) + 1
      ensures frame == PingFrame(DecimalString(requestCounter))
    {
      var n := RequestId();
      frame := PingFrame(DecimalString(n));
    }

    // -------------------------------------------------------------------
    // Endpoint negotiation

    /** Joins the memoised negotiation of the channel class, or starts one under a new ticket. */
    method Negotiate(privateChannel: bool) returns (step: Step)
      requires TicketsIssued()
      modifies this`urls, this`nextTicket
      ensures TicketsIssued()
      ensures (urls, step) == OnNegotiate(old(urls), privateChannel, old(nextTicket))
      ensures nextTicket == if step.Started? then old(nextTicket) + 1 else old(nextTicket)
      ensures step.Started? ==> forall c :: c in old(urls) ==> old(urls)[c].ticket != step.ticket
    {
      var connectId := ConnectIdOf(privateChannel);
      if connectId in urls {
        step := Joined(urls[connectId]);
        return;
      }
      urls := urls[connectId := Future(nextTicket, None)];
      step := Started(nextTicket);
      nextTicket := nextTicket + 1;
    }

    /** The negotiation `ticket` completes with `response`; a failure deletes the class's memo entry. */
    method NegotiateHelper(privateChannel: bool, ticket: nat, response: BulletResponse) returns (url: Option<string>)
      requires TicketsIssued()
      modifies this`urls
      ensures TicketsIssued()
      ensures (urls, url) == OnNegotiated(old(urls), privateChannel, ticket, response)
    {
      var connectId := ConnectIdOf(privateChannel);
      match response {
        case Bullet(endpoint, token, _) =>
          url := Some(NegotiatedUrl(endpoint, token, privateChannel));
          if connectId in urls && urls[connectId].ticket == ticket {
            urls := urls[connectId := Future(ticket, url)];
          }
        case Failed(_) =>
          urls := urls - {connectId};
          url := None;
      }
    }

    /** An error frame on `client`: `token is expired` clears the memo entry of the connection's class. */
    method HandleErrorMessage(client: Client, data: string)
      requires TicketsIssued()
      modifies this`urls
      ensures TicketsIssued()
      ensures urls == OnErrorMessage(old(urls), client.url, data)
    {
      if data == TokenExpired {
        var connectId := if IndexOf(client.url, PrivateMarker) >= 0 then Private else Public;
        urls := urls - {connectId};
      }
    }

    // -------------------------------------------------------------------
    // Subscription acknowledgements

    /** The order-book callback: a fresh, empty book for every symbol of the subscription. */
    method HandleOrderBookSubscription(subscription: Subscription)
      requires BooksValid()
      modifies this`orderbooks
      ensures BooksValid()
      ensures orderbooks.Keys == old(orderbooks).Keys + set s | s in subscription.symbols
      ensures forall s :: s in subscription.symbols ==>
        s in orderbooks && fresh(orderbooks[s]) && orderbooks[s].Model() == NewBook(None)
      ensures forall s :: s in old(orderbooks) && s !in subscription.symbols ==> orderbooks[s] == old(orderbooks[s])
    {
      var symbols := subscription.symbols;
      var i := 0;
      while i < |symbols|
        invariant 0 <= i <= |symbols|
        invariant BooksValid()
        invariant orderbooks.Keys == old(orderbooks).Keys + set s | s in symbols[..i]
        invariant forall s :: s in symbols[..i] ==>
          s in orderbooks && fresh(orderbooks[s]) && fresh(orderbooks[s].bids) && fresh(orderbooks[s].asks)
          && orderbooks[s].Model() == NewBook(None)
        invariant forall s :: s in old(orderbooks) && s !in symbols[..i] ==> orderbooks[s] == old(orderbooks[s])
      {
        var book := new OrderBook();
        orderbooks := orderbooks[symbols[i] := book];
        assert symbols[..i + 1] == symbols[..i] + [symbols[i]];
        i := i + 1;
      }
      assert symbols[..|symbols|] == symbols;
    }

    /**
     * An `ack` frame for request `id`: the id's table entry is deleted and,
     * when the subscription it names carries the order-book callback, the
     * callback runs.
     */
    method HandleSubscriptionStatus(client: Client, id: string) returns (invoked: Option<Subscription>)
      requires BooksValid()
      modifies client`subscriptions, this`orderbooks
      ensures BooksValid()
      ensures (client.subscriptions, invoked) == OnAck(old(client.subscriptions), id)
      ensures invoked.None? ==> orderbooks == old(orderbooks)
      ensures invoked.Some? ==>
        && orderbooks.Keys == old(orderbooks).Keys + set s | s in invoked.value.symbols
        && (forall s :: s in invoked.value.symbols ==> s in orderbooks && fresh(orderbooks[s]) && orderbooks[s].Model() == NewBook(None))
        && (forall s :: s in old(orderbooks) && s !in invoked.value.symbols ==> s in orderbooks && orderbooks[s] == old(orderbooks[s]))
    {
      var table := client.subscriptions;
      if id !in table {
        invoked := None;
        return;
      }
      var subscription: Option<Subscription> := None;
      match table[id] {
        case HashOf(h) =>
          if h in table && table[h].Registered? {
            subscription := Some(table[h].subscription);
          }
        case Registered(_) =>
      }
      client.subscriptions := table - {id};
      invoked := if subscription.Some? && subscription.value.callback.Some? then subscription else None;
      if invoked.Some? {
        HandleOrderBookSubscription(invoked.value);
      }
    }

    // -------------------------------------------------------------------
    // Order books

    /**
     * One order-book message for `symbol`: the symbol's book (created when
     * missing) ends as `OnMessage` says, and no other book changes.
     */
    method HandleOrderBook(symbol: string, subject: Option<string>, data: Payload) returns (outcome: Outcome)
      requires BooksValid()
      modifies this`orderbooks
      modifies if symbol in orderbooks then {orderbooks[symbol], orderbooks[symbol].bids, orderbooks[symbol].asks} else {}
      ensures BooksValid()
      ensures symbol in orderbooks && orderbooks.Keys == old(orderbooks).Keys + {symbol}
      ensures symbol in old(orderbooks) ==> orderbooks[symbol] == old(orderbooks[symbol])
      ensures symbol !in old(orderbooks) ==> fresh(orderbooks[symbol])
      ensures (orderbooks[symbol].Model(), outcome)
        == OnMessage(if symbol in old(orderbooks) then Some(old(orderbooks[symbol].Model())) else None,
                     symbol, subject, data, snapshotDelay)
      ensures forall s :: s in old(orderbooks) && s != symbol ==>
        orderbooks[s] == old(orderbooks[s]) && orderbooks[s].Model() == old(orderbooks[s].Model())
    {
      var created := symbol !in orderbooks;
      var book: OrderBook;
      if created {
        book := new OrderBook();
        orderbooks := orderbooks[symbol := book];
      } else {
        book := orderbooks[symbol];
      }
      ghost var before := if created then None else Some(book.Model());
      assert before == if symbol in old(orderbooks) then Some(old(orderbooks[symbol].Model())) else None;
      outcome := HandleBookMessage(book, created, symbol, subject, data, snapshotDelay);
    }

    // -------------------------------------------------------------------
    // Orders and the user's trades

    /**
     * One order update: the caches are created on first use, the order goes
     * to the trigger cache when it has a trigger price and to the order
     * cache otherwise, and is filed closed when its cached record is closed.
     * `ok` is false when the cache's append raised.
     */
    method HandleOrder(parsed: Item<Order>) returns (ok: bool)
      requires OrdersValid()
      modifies this`orders, this`triggerOrders, orders, triggerOrders
      ensures OrdersValid() && orders != null
      ensures old(orders) == null ==> fresh(orders) && fresh(triggerOrders)
      ensures old(orders) != null ==> orders == old(orders) && triggerOrders == old(triggerOrders)
      ensures var target := if IsTriggerOrder(parsed) then triggerOrders else orders;
        var other := if IsTriggerOrder(parsed) then orders else triggerOrders;
        var before := if old(orders) == null then Empty(Some(ordersLimit)) else old(target.Model());
        && Aligned(before)
        && target.Model() == OrderUpdated(before, parsed)
        && other.Model() == (if old(orders) == null then Empty(Some(ordersLimit)) else old(other.Model()))
        && ok == !Underflows(before, StickyStatus(CachedRecord(before, parsed.symbol, parsed.id), parsed))
    {
      if orders == null {
        orders := new ArrayCacheBySymbolById(Some(ordersLimit));
        triggerOrders := new ArrayCacheBySymbolById(Some(ordersLimit));
      }
      var cachedOrders := if IsTriggerOrder(parsed) then triggerOrders else orders;
      var order := cachedOrders.Lookup(parsed.symbol, parsed.id);
      assert order == CachedRecord(cachedOrders.Model(), parsed.symbol, parsed.id);
      var item := StickyStatus(order, parsed);
      ok := cachedOrders.Append(item);
    }

    /** One trade of the user's: the cache is created on first use and the trade appended. */
    method HandleMyTrade(parsed: Item<Trade>) returns (ok: bool)
      requires TradesValid()
      modifies this`myTrades, myTrades
      ensures TradesValid() && myTrades != null
      ensures old(myTrades) == null ==> fresh(myTrades)
      ensures old(myTrades) != null ==> myTrades == old(myTrades)
      ensures var before := if old(myTrades) == null then Empty(Some(tradesLimit)) else old(myTrades.Model());
        && Aligned(before)
        && myTrades.Model() == Appended(before, parsed)
        && ok == !Underflows(before, parsed)
    {
      if myTrades == null {
        myTrades := new ArrayCacheBySymbolById(Some(tradesLimit));
      }
      ok := myTrades.Append(parsed);
    }
  }
}
