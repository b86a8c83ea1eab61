/**
 * The adapter's request checks, topic builders and inbound dispatch tables.
 */
module Dispatch {
  import opened Wrappers
  import opened Strings

  /** The two kinds of error the request checks raise. */
  datatype Error = ArgumentsRequired(message: string) | ExchangeError(message: string)

  // ---------------------------------------------------------------------
  // Request checks

  /** Most symbols one best-bid/ask subscription accepts. */
  const MaxBidAskSymbols := 100

  /** The best-bid/ask subscription refuses more than 100 symbols. */
  function CheckBidAskSymbols(methodName: string, symbolCount: nat): (r: Result<(), Error>)
    ensures r.Ok? <==> symbolCount <= MaxBidAskSymbols
    ensures r.Err? ==> r.error.ArgumentsRequired?
  {
    if symbolCount > MaxBidAskSymbols then
      Err(ArgumentsRequired(methodName + "() accepts a maximum of 100 symbols"))
    else Ok(())
  }

  /** The trades subscription for several symbols refuses an empty symbol list. */
  function CheckTradeSymbols(symbolCount: nat): (r: Result<(), Error>)
    ensures r.Ok? <==> symbolCount > 0
    ensures r.Err? ==> r.error.ArgumentsRequired?
  {
    if symbolCount == 0 then
      Err(ArgumentsRequired("watchTradesForSymbols() requires a non-empty array of symbols"))
    else Ok(())
  }

  /** The order-book depths a caller may ask for. */
  const BookLimits: set<int> := {5, 20, 50, 100}

  /** The channel of incremental order-book updates, the default, which needs a snapshot to start from. */
  const Level2Method := "/market/level2"

  /** The prefix of the depth-limited channels, which push whole books. */
  const DepthMethodPrefix := "/spotMarket/level2Depth"

  /**
   * The order-book subscription: an empty symbol list is refused, then a
   * limit outside 5, 20, 50 and 100.
   */
  function CheckOrderBookRequest(symbolCount: nat, limit: Option<int>): (r: Result<(), Error>)
    ensures r.Ok? <==> symbolCount > 0 && (limit.None? || limit.value in BookLimits)
    ensures symbolCount == 0 ==> r.Err? && r.error.ArgumentsRequired?
    ensures symbolCount > 0 && r.Err? ==> r.error.ExchangeError?
  {
    if symbolCount == 0 then
      Err(ArgumentsRequired("watchOrderBookForSymbols() requires a non-empty array of symbols"))
    else if limit.Some? && limit.value !in BookLimits then
      Err(ExchangeError("watchOrderBook 'limit' argument must be undefined, 5, 20, 50 or 100"))
    else Ok(())
  }

  /** The order-book channel: the configured one (default the level-2 channel), or the depth channel for limits 5 and 50. */
  function OrderBookMethod(limit: Option<int>, configured: Option<string>): (r: string)
    ensures limit == Some(5) || limit == Some(50) ==>
      |r| > |DepthMethodPrefix| && r[..|DepthMethodPrefix|] == DepthMethodPrefix
    ensures limit == Some(5) ==> r == "/spotMarket/level2Depth5"
    ensures limit == Some(50) ==> r == "/spotMarket/level2Depth50"
    ensures limit != Some(5) && limit != Some(50) && configured.Some? ==> r == configured.value
    ensures limit != Some(5) && limit != Some(50) && configured.None? ==> r == Level2Method
  {
    if limit == Some(5) || limit == Some(50) then DepthMethodPrefix + DecimalString(limit.value)
    else if configured.Some? then configured.value
    else Level2Method
  }

  /** What an order-book subscription sends and registers. */
  datatype BookPlan = BookPlan(
    topic: string,                    // one topic covering every market
    subscriptionHashes: seq<string>,  // one per market
    fetchesSnapshot: bool)            // the subscription carries the snapshot callback

  /** The order-book subscription for `marketIds`, or the error the request checks raise. */
  function PlanOrderBook(marketIds: seq<string>, limit: Option<int>, configured: Option<string>): (r: Result<BookPlan, Error>)
    ensures r.Ok? <==> CheckOrderBookRequest(|marketIds|, limit).Ok?
    ensures r.Err? ==> r.error == CheckOrderBookRequest(|marketIds|, limit).error
    ensures r.Ok? ==> |r.value.subscriptionHashes| == |marketIds|
    ensures r.Ok? ==> r.value.topic == OrderBookMethod(limit, configured) + ":" + Join(marketIds, ",")
  {
    match CheckOrderBookRequest(|marketIds|, limit)
    case Err(e) => Err(e)
    case Ok(_) =>
      var channel := OrderBookMethod(limit, configured);
      Ok(BookPlan(channel + ":" + Join(marketIds, ","),
                  seq(|marketIds|, i requires 0 <= i < |marketIds| => channel + ":" + marketIds[i]),
                  channel == Level2Method))
  }

  /**
   * An accepted order-book request subscribes one hash per market under
   * the chosen channel, and asks for a snapshot exactly when that channel
   * is the level-2 one: never for limits 5 and 50, always when nothing is
   * configured and the limit is absent, 20 or 100.
   */
  lemma OrderBookPlanSnapshotRule(marketIds: seq<string>, limit: Option<int>, configured: Option<string>)
    requires PlanOrderBook(marketIds, limit, configured).Ok?
    ensures var p := PlanOrderBook(marketIds, limit, configured).value;
      var channel := OrderBookMethod(limit, configured);
      && |p.subscriptionHashes| == |marketIds| > 0
      && (forall i :: 0 <= i < |marketIds| ==> p.subscriptionHashes[i] == channel + ":" + marketIds[i])
      && (p.fetchesSnapshot <==> channel == Level2Method)
      && (limit == Some(5) || limit == Some(50) ==> !p.fetchesSnapshot)
      && (configured.None? && limit != Some(5) && limit != Some(50) ==> p.fetchesSnapshot)
  {
    var channel := OrderBookMethod(limit, configured);
    if limit == Some(5) || limit == Some(50) {
      var digits := DecimalString(limit.value);
      assert channel == DepthMethodPrefix + digits;
      assert |channel| > |Level2Method|;
    }
  }

  // ---------------------------------------------------------------------
  // Ticker topics

  /** The ticker topic of one market: the channel, a colon, the market id. */
  function TickerTopic(channel: string, marketId: string): string {
    channel + ":" + marketId
  }

  /**
   * The market id a ticker message is for: the part of its topic between
   * the first and the second colon, or the message's subject when that part
   * is `all`. A topic without a colon names no market.
   */
  function TickerMarketId(topic: Option<string>, subject: Option<string>): (r: Option<string>)
    ensures topic.None? ==> r.None?
    ensures topic.Some? && ':' !in topic.value ==> r.None?
    ensures r.Some? && r != subject ==> ':' !in r.value && r.value != "all"
  {
    if topic.None? then None
    else
      var parts := Split(topic.value, ':');
      var first := if |parts| > 1 then Some(parts[1]) else None;
      if first == Some("all") then subject else first
  }

  /**
   * Parsing a ticker topic recovers the market id it was built from, when
   * neither the channel nor the id has a colon and the id is not `all`;
   * for `all`, the subject names the market.
   */
  lemma TickerTopicRoundTrip(channel: string, marketId: string, subject: Option<string>)
    requires ':' !in channel && ':' !in marketId
    ensures marketId != "all" ==> TickerMarketId(Some(TickerTopic(channel, marketId)), subject) == Some(marketId)
    ensures marketId == "all" ==> TickerMarketId(Some(TickerTopic(channel, marketId)), subject) == subject
  {
    assert TickerTopic(channel, marketId) == channel + [':'] + marketId;
    SplitAtFirstSeparator(channel, ':', marketId);
    SplitWithoutSeparator(marketId, ':');
  }

  // ---------------------------------------------------------------------
  // Inbound dispatch

  /** The handlers of inbound frames, by frame type. */
  datatype FrameHandler = SystemStatus | SubscriptionStatus | Subject | Pong | ErrorMessage

  /** The handler for a frame of type `frameType`; other types are ignored. */
  function HandlerForType(frameType: Option<string>): (r: Option<FrameHandler>)
    ensures r.Some? ==> frameType == Some(TypeOf(r.value))
  {
    match frameType
    case None => None
    case Some(t) =>
      if t == "welcome" then Some(SystemStatus)
      else if t == "ack" then Some(SubscriptionStatus)
      else if t == "message" then Some(Subject)
      else if t == "pong" then Some(Pong)
      else if t == "error" then Some(ErrorMessage)
      else None
  }

  /** The frame type each handler serves. */
  function TypeOf(h: FrameHandler): string {
    match h
    case SystemStatus => "welcome"
    case SubscriptionStatus => "ack"
    case Subject => "message"
    case Pong => "pong"
    case ErrorMessage => "error"
  }

  /** The frame table is one-to-one: each handler serves exactly the type `TypeOf` names. */
  lemma HandlerForTypeInverse(frameType: Option<string>, h: FrameHandler)
    ensures HandlerForType(frameType) == Some(h) <==> frameType == Some(TypeOf(h))
  {
  }

  /** The handlers of `message` frames, by subject. */
  datatype SubjectHandler = BidAsk | OrderBook | Ticker | Trade | OHLCV | Balance | MyTrade | OrderUpdate

  /** The topic of the all-markets ticker, whose messages go to the ticker handler whatever their subject. */
  const AllTickersTopic := "/market/ticker:all"

  /** The subjects each handler serves. */
  function SubjectsOf(h: SubjectHandler): set<string> {
    match h
    case BidAsk => {"level1"}
    case OrderBook => {"level2", "trade.l2update"}
    case Ticker => {"trade.ticker", "trade.snapshot"}
    case Trade => {"trade.l3match"}
    case OHLCV => {"trade.candles.update"}
    case Balance => {"account.balance"}
    case MyTrade => {"/spot/tradeFills"}
    case OrderUpdate => {"orderChange", "stopOrder"}
  }

  /** The handler for a `message` frame: by topic for the all-markets ticker, otherwise by subject. */
  function HandlerForSubject(topic: Option<string>, subject: Option<string>): (r: Option<SubjectHandler>)
    ensures topic == Some(AllTickersTopic) ==> r == Some(Ticker)
    ensures topic != Some(AllTickersTopic) && r.Some? ==> subject.Some? && subject.value in SubjectsOf(r.value)
  {
    if topic == Some(AllTickersTopic) then Some(Ticker)
    else match subject
      case None => None
      case Some(s) =>
        if s == "level1" then Some(BidAsk)
        else if s == "level2" || s == "trade.l2update" then Some(OrderBook)
        else if s == "trade.ticker" || s == "trade.snapshot" then Some(Ticker)
        else if s == "trade.l3match" then Some(Trade)
        else if s == "trade.candles.update" then Some(OHLCV)
        else if s == "account.balance" then Some(Balance)
        else if s == "/spot/tradeFills" then Some(MyTrade)
        else if s == "orderChange" || s == "stopOrder" then Some(OrderUpdate)
        else None
  }

  /**
   * Outside the all-markets ticker topic, a message goes to handler `h`
   * exactly when its subject is one `h` serves; the subject sets of the
   * handlers are disjoint, so no subject reaches two handlers.
   */
  lemma HandlerForSubjectMatchesSubjects(topic: Option<string>, s: string, h: SubjectHandler)
    requires topic != Some(AllTickersTopic)
    ensures HandlerForSubject(topic, Some(s)) == Some(h) <==> s in SubjectsOf(h)
  {
  }
}
