# KuCoin websocket adapter and the symbol/id order cache, in Dafny

This project models two pieces of the exchange library and proves properties of them.

1. **`ArrayCacheBySymbolById`**: the bounded, insertion-ordered cache of records keyed by symbol and id. The adapters use it to hold orders and the user's own trades. The cache has three views of its records:
   - `deque`: the records, oldest first;
   - `index`: the bare id of each record, slot by slot;
   - `hashmap`: symbol → id → record.

   It also keeps a size bound and an update counter. `append` takes one of two paths:
   - update: a record whose id is already in its symbol's map replaces the old one and moves to the tail;
   - insert: a new id is pushed, and the oldest record is evicted first when the deque is full.

   The class `SymbolIdCache.ArrayCacheBySymbolById` performs these steps in place. The value function `SymbolIdCache.Appended` states what one `append` does to the whole state.

2. **The KuCoin websocket adapter's bookkeeping** (`KucoinAdapter.Kucoin`):
   - the request-id counter and the subscribe frames;
   - the client's subscription table and what an `ack` frame does to it;
   - the per-channel memo of negotiated endpoints (`public` or `private`);
   - the order-book synchronisation: deltas are buffered until a snapshot sets the nonce, stale deltas are dropped, and full `level2` books replace the book;
   - the lazily created order and trade caches, and the rule that keeps a closed order closed;
   - the checks on order-book requests, the topic builders and parsers, and the inbound dispatch tables.

The model keeps the source's quirks, and lemmas exhibit them:
- The update path looks up the slot by id alone (`ExampleUpdateFindsSlotByIdAlone`).
- Eviction deletes the evicted id from the appending record's symbol map, not from the evicted record's own map (`ExampleEvictionLeavesStaleEntry`, `ExampleEvictingSameIdUnfilesItem`).
- With no size bound, nothing is ever evicted (`AppendWithoutMaxSizeNeverEvicts`).

The modules, in dependency order:
- `Wrappers` (Option, Result)
- `Strings` (JavaScript's `split`, `join`, `indexOf`; decimal printing)
- `SymbolIdCache`
- `OrderBookSync`
- `Subscriptions`
- `Negotiation`
- `Orders`
- `Dispatch`
- `KucoinAdapter`

A ticker message names its market in its topic: the market id is the part between the first and the second colon. When that part is `all`, the message's subject is the market id instead (`TickerMarketId`).

Behaviour chosen where the source leaves it open:
- **`find` misses.** `Ds\Deque::find` returns `false` when the id is not in the index. The native deque reads `unset($deque[false])` as offset 0, so the update path then removes the oldest record. This happens when an id is still in a symbol map but its slot was evicted. The model follows that reading (`UpdateSlot`, `AppendStaleIdDropsOldest`).
- **Size bound 0.** With a bound of 0, the eviction branch shifts an empty deque, which throws an underflow error. By then the record is already filed in its symbol map. `Append` returns `ok == false` and the state left behind at that point.
- **Parent-class fields.** The fields inherited from the parent classes start empty: no records, `new_updates` 0, `clear_updates` false.
- **Missing sequence numbers.** A missing sequence end compares as JavaScript compares `undefined`: the comparison is false, so the delta is not dropped.

## Model

| member | source | states |
|---|---|---|
| SymbolIdCache.ArrayCacheBySymbolById.constructor | php/base/ArrayCacheBySymbolById.php:11-14 | a new cache is empty, has the given size bound, and has `deque` and `index` aligned |
| SymbolIdCache.ArrayCacheBySymbolById.Lookup | php/base/ArrayCacheBySymbolById.php:17-24 | yields a record exactly when the symbol has a map holding the id, and then yields that record |
| SymbolIdCache.ArrayCacheBySymbolById.Append | php/base/ArrayCacheBySymbolById.php:16-47 | the new state is `Appended` of the old state; `deque` and `index` stay aligned; `ok` is false exactly when a size bound of 0 makes the eviction shift an empty deque |
| SymbolIdCache.ArrayCacheBySymbolById.Prepare | php/base/ArrayCacheBySymbolById.php:17-37 | files the record, then unsets the update slot or evicts the head; the state before the push is `Prepared` |
| SymbolIdCache.ArrayCacheBySymbolById.File | php/base/ArrayCacheBySymbolById.php:17-24 | the record is stored under its symbol and id, and the symbol map is created when missing |
| SymbolIdCache.ArrayCacheBySymbolById.UnsetSlot | php/base/ArrayCacheBySymbolById.php:27-29 | removes the slot `find` reports (offset 0 on a miss) from both `deque` and `index` |
| SymbolIdCache.ArrayCacheBySymbolById.Evict | php/base/ArrayCacheBySymbolById.php:32-36 | shifts the oldest record and its id out, and deletes that id from the appending symbol's map |
| SymbolIdCache.ArrayCacheBySymbolById.Push | php/base/ArrayCacheBySymbolById.php:39-46 | pushes the record and its id, and counts the update: the count restarts at 1 if `clear_updates` was set, otherwise it grows by 1 |
| SymbolIdCache.CachedRecord | ts/src/pro/kucoin.ts:968-969 | yields the record the cache holds under the symbol and id, exactly when there is one |
| SymbolIdCache.UpdateSlot | php/base/ArrayCacheBySymbolById.php:27-29 | the slot the update path unsets holds the id and is its first occurrence; with the id in no slot it is offset 0 |
| SymbolIdCache.Prepared | php/base/ArrayCacheBySymbolById.php:17-37 | before the push, the record's symbol has a map, the bound and update counters are untouched, the deque never grows, and a new id below the bound leaves deque and index as they were |
| SymbolIdCache.Appended | php/base/ArrayCacheBySymbolById.php:16-47 | the record's symbol has a map and the bound is kept; an underflow leaves the deque as it was, and otherwise the record is last |
| SymbolIdCache.Find | php/base/ArrayCacheBySymbolById.php:27 | the first slot whose id is the given id; no slot exactly when the id is absent from the index |
| SymbolIdCache.RemoveAt | php/base/ArrayCacheBySymbolById.php:28-29 | the sequence without position k: shorter by one, earlier elements in place, later ones shifted down |
| SymbolIdCache.AppendKeepsAligned | php/base/ArrayCacheBySymbolById.php:28-41 | `append` keeps `deque` and `index` aligned slot by slot, and a completed append leaves the record and its id last |
| SymbolIdCache.AppendRespectsMaxSize | php/base/ArrayCacheBySymbolById.php:32-39 | with a bound m ≥ 1 and at most m records before, there are at most m records after |
| SymbolIdCache.AppendWithoutMaxSizeNeverEvicts | php/base/ArrayCacheBySymbolById.php:32 | without a size bound, `append` never evicts a record |
| SymbolIdCache.AppendKnownIdMovesToTail | php/base/ArrayCacheBySymbolById.php:23-41 | for an id already in its symbol's map, the slot `find` reports is removed, the new record is pushed last, and the length is unchanged |
| SymbolIdCache.AppendStaleIdDropsOldest | php/base/ArrayCacheBySymbolById.php:27-29 | for an id still in its symbol's map but in no slot, the oldest slot is removed in its place |
| SymbolIdCache.AppendNewIdWhenFullEvictsOldest | php/base/ArrayCacheBySymbolById.php:32-41 | for a new id when the deque is full, exactly the head of `deque` and of `index` is removed before the push |
| SymbolIdCache.AppendNewIdBelowMaxSizeGrows | php/base/ArrayCacheBySymbolById.php:31-41 | for a new id below the bound, the record is appended, and earlier records keep their order |
| SymbolIdCache.AppendCountsUpdate | php/base/ArrayCacheBySymbolById.php:42-46 | `clear_updates` ends false; `new_updates` becomes 1 if it was set, otherwise it grows by exactly 1 |
| SymbolIdCache.AppendFilesItem | php/base/ArrayCacheBySymbolById.php:17-35 | the record is filed under its symbol and id, unless the evicted slot had the same id, in which case that entry is deleted |
| SymbolIdCache.AppendChangesOnlyItsSymbolMap | php/base/ArrayCacheBySymbolById.php:18-35 | no other symbol's map changes; in the record's own map only its id and the evicted id change; the evicted id is deleted from the appending symbol's map |
| SymbolIdCache.ExampleFifoEviction | php/base/ArrayCacheBySymbolById.php:32-35 | with bound 3, ids 1, 2, 3, 4 leave 2, 3, 4 in order |
| SymbolIdCache.ExampleUpdateMovesToTail | php/base/ArrayCacheBySymbolById.php:23-41 | with bound 3, [(A,1),(B,2),(C,3)] plus an update of (B,2) gives [(A,1),(C,3),(B,2')] |
| SymbolIdCache.ExampleEvictionLeavesStaleEntry | php/base/ArrayCacheBySymbolById.php:35 | with bound 1, (A,1) then (B,2) leaves A's map holding id 1, although no slot holds it |
| SymbolIdCache.ExampleEvictingSameIdUnfilesItem | php/base/ArrayCacheBySymbolById.php:31-35 | with bound 1, (A,1) then (B,1) leaves (B,1) in the deque but not in B's map |
| SymbolIdCache.ExampleUpdateFindsSlotByIdAlone | php/base/ArrayCacheBySymbolById.php:23-29 | updating (B,1) while (A,1) is older removes the slot of (A,1): the index ends as [1, 1], A's map still holds (A,1) and B's map holds the new record; the surviving first slot keeps the old value (see "Left out") |
| OrderBookSync.Stored | ts/src/pro/kucoin.ts:568-571 | storing a level of size 0 removes its price; any other size sets it; no other price changes |
| OrderBookSync.LastSizeAt | ts/src/pro/kucoin.ts:754-759 | no size exactly when no level in the list has that price |
| OrderBookSync.StoredAll | ts/src/pro/kucoin.ts:754-759 | besides the side's own prices, only listed prices can appear, and no level of size 0 is ever added |
| OrderBookSync.StoredAllLastLevelWins | ts/src/pro/kucoin.ts:754-759 | after storing a list of levels in order, the last level at each price decides it, and unmentioned prices keep their sizes |
| OrderBookSync.StoredAllIdempotent | ts/src/pro/kucoin.ts:754-759 | storing the same levels twice gives the same side as storing them once |
| OrderBookSync.BufferingBeforeNonce | ts/src/pro/kucoin.ts:696-713 | before a nonce is set, a delta is appended to the cache and applied to neither side; the snapshot load starts exactly when the cache held `snapshotDelay` deltas |
| OrderBookSync.BufferingSpawnsOnce | ts/src/pro/kucoin.ts:696-713 | a run of buffered deltas is cached in order, and the snapshot load starts only at the delta that finds `snapshotDelay` deltas buffered |
| OrderBookSync.BufferAll | ts/src/pro/kucoin.ts:696-713 | buffering a run of deltas leaves the nonce unset |
| OrderBookSync.BufferAllUnfold | ts/src/pro/kucoin.ts:709-712 | one more buffered delta extends the cache by that delta and records whether the snapshot load started |
| OrderBookSync.StaleDeltaDropped | ts/src/pro/kucoin.ts:714-716 | once a nonce is set, a delta whose end is at or before it is dropped, and the book is unchanged |
| OrderBookSync.ReplayedDeltaIsNoOp | ts/src/pro/kucoin.ts:714-742 | applying a delta sets the nonce to its sequence end, so the same delta arriving again is dropped |
| OrderBookSync.ApplyDeltaIdempotent | ts/src/pro/kucoin.ts:740-752 | applying a delta twice gives the same book as applying it once |
| OrderBookSync.ApplyDelta | ts/src/pro/kucoin.ts:740-752 | the buffer and symbol are kept; the time is `time`, else `timestamp`; the nonce is the sequence end, else the time; each side becomes its old levels with the delta's levels stored in list order (their meaning is `StoredAllLastLevelWins`), so no size-0 level is added |
| OrderBookSync.OnMessage | ts/src/pro/kucoin.ts:681-719 | a `level2` message always resolves and sets the symbol; a delta is buffered exactly when the book has no nonce, and then it is last in the buffer and the sides are untouched; a dropped delta ends at or before the nonce and leaves the book as it was; a resolved message sets the nonce from its sequence end, and a resolved delta turns the book into `ApplyDelta` of the old book |
| OrderBookSync.FullBookReplaces | ts/src/pro/kucoin.ts:681-719 | a `level2` message rebuilds both sides from its own levels alone, sets nonce and symbol, and always resolves |
| OrderBookSync.FirstCovering | ts/src/pro/kucoin.ts:730-736 | the first position at or after `from` whose delta window covers the nonce, or the cache length when none does |
| OrderBookSync.CacheIndex | ts/src/pro/kucoin.ts:722-738 | between -1 and the cache length, and -1 exactly when the snapshot is older than the first buffered delta |
| OrderBookSync.GetCacheIndex | ts/src/pro/kucoin.ts:722-738 | -1 exactly when the nonce is before the first delta's start minus 1; otherwise the smallest covering position, or the cache length when no delta covers the nonce |
| OrderBookSync.ExampleCacheIndex | ts/src/pro/kucoin.ts:722-738 | windows [100,105], [106,110], [111,115] give 1 for nonce 107, -1 for nonce 98, and 3 for nonce 115 |
| OrderBookSync.OrderBookSide.constructor | ts/src/pro/kucoin.ts:683 | a new side holds no levels |
| OrderBookSync.OrderBookSide.StoreArray | ts/src/pro/kucoin.ts:568-571 | the side becomes `Stored` of the old side and the level |
| OrderBookSync.OrderBookSide.Clear | ts/src/pro/kucoin.ts:686 | the side holds no levels |
| OrderBookSync.OrderBook.constructor | ts/src/pro/kucoin.ts:683-691 | a new book has two distinct, empty sides, and no nonce, time, buffered deltas or symbol |
| OrderBookSync.OrderBook.Reset | ts/src/pro/kucoin.ts:685-686 | empties both sides and clears nonce, time and symbol; the buffered deltas are kept |
| OrderBookSync.HandleBidAsks | ts/src/pro/kucoin.ts:754-759 | the side ends as storing every listed level in list order |
| OrderBookSync.HandleDelta | ts/src/pro/kucoin.ts:740-752 | the book ends as `ApplyDelta`: nonce from the sequence end (else the time), time from `time` (else `timestamp`), and both sides stored |
| Strings.Split | ts/src/pro/kucoin.ts:262 | splitting always yields at least one part, no part holds the separator, and a string without it is one part |
| Strings.SplitWithoutSeparator | ts/src/pro/kucoin.ts:262-263 | a string without the separator splits into itself alone |
| Strings.SplitAtFirstSeparator | ts/src/pro/kucoin.ts:262-263 | splitting `a + sep + b`, where `a` has no separator, yields `a` and then the parts of `b` |
| Strings.Join | ts/src/pro/kucoin.ts:609 | the joined text starts with the first part, and joining nothing gives the empty text |
| Strings.SplitJoinRoundTrip | ts/src/pro/kucoin.ts:609 | splitting the join of one or more separator-free parts at that separator gives the parts back |
| Strings.IndexOf | ts/src/pro/kucoin.ts:1220 | the first occurrence at or after `from`, or -1 exactly when there is none |
| Strings.EndsWithIsFound | ts/src/pro/kucoin.ts:1220 | a string ending in a text contains that text |
| Strings.DecimalString | ts/src/pro/kucoin.ts:127 | the decimal form of a number has at least one digit, and at least two from 10 on |
| Strings.DecimalStringInjective | ts/src/pro/kucoin.ts:127 | distinct numbers have distinct decimal forms |
| Subscriptions.SubscribeFrame | ts/src/pro/kucoin.ts:128-134 | the frame has `id`, `type`, `topic`, `response` and the caller's parameters; the parameters win on a clash |
| Subscriptions.Register | ts/src/pro/kucoin.ts:136-138 | the request id is recorded for the hash only when the hash is not already a key; otherwise the table is unchanged |
| Subscriptions.LastUnregistered | ts/src/pro/kucoin.ts:152-157 | the last hash not yet a key, or none when every hash is a key |
| Subscriptions.RegisterAll | ts/src/pro/kucoin.ts:152-157 | only the request id's entry can change, and if it does it names one of the hashes |
| Subscriptions.RegisterAllKeepsLastHash | ts/src/pro/kucoin.ts:152-157 | one request over many hashes writes only its request id, bound to the last unregistered hash; nothing else changes |
| Subscriptions.OnAck | ts/src/pro/kucoin.ts:786-796 | an unknown id is ignored; a known id loses exactly its entry and nothing else changes; the subscription registered under the id's hash runs exactly when it has a callback, and nothing else runs |
| Subscriptions.SecondAckIgnored | ts/src/pro/kucoin.ts:786-796 | a second ack for the same id changes nothing and runs nothing |
| Negotiation.NegotiatedUrl | ts/src/pro/kucoin.ts:104-107 | the URL starts with the endpoint and its query; a private URL ends in `connectId=private`, a public one in `connectId=public` |
| Negotiation.OnNegotiate | ts/src/pro/kucoin.ts:57-69 | the class is memoised afterwards; a memoised class is joined with the memo unchanged; otherwise the new ticket is memoised; the other class is untouched |
| Negotiation.OnNegotiated | ts/src/pro/kucoin.ts:72-118 | a URL results exactly on success; failure deletes the class's entry; success resolves the entry when it still holds this ticket; the other class is untouched |
| Negotiation.ClassOfUrl | ts/src/pro/kucoin.ts:1219-1222 | a connection is private exactly when `connectId=private` occurs in its URL |
| Negotiation.SecondCallJoinsPending | ts/src/pro/kucoin.ts:57-69 | a second `negotiate` for a class joins the pending negotiation without starting another; the other class is untouched |
| Negotiation.CompletionThenNextCall | ts/src/pro/kucoin.ts:64-116 | after a success the next call joins with the URL; after a failure the entry is gone, so the next call starts afresh |
| Negotiation.PrivateUrlIsPrivate | ts/src/pro/kucoin.ts:104-107 | a URL negotiated for the private class is recognised as private |
| Negotiation.OnErrorMessage | ts/src/pro/kucoin.ts:1217-1224 | `token is expired` clears the entry of the connection's class and no other; any other text changes nothing |
| Orders.ParseWsOrderStatus | ts/src/pro/kucoin.ts:846-857 | a missing type stays missing; a type the table does not list passes through unchanged |
| Orders.ParseWsOrderStatusIdempotent | ts/src/pro/kucoin.ts:846-857 | mapping a status a second time changes nothing |
| Orders.WsOrderStatus | ts/src/pro/kucoin.ts:898-907 | an event whose type maps to triggered becomes canceled exactly when `triggerSuccess` is false, and stays triggered otherwise; an event that maps to anything else keeps its mapped status |
| Orders.StickyStatus | ts/src/pro/kucoin.ts:968-975 | a closed cached record makes the filed record closed; otherwise the parsed order is filed as it is; keys and trigger price never change |
| Orders.OrderUpdated | ts/src/pro/kucoin.ts:967-976 | the order's symbol has a map and the bound is kept; an order already cached ends last under its own symbol and id |
| Orders.ClosedOrderStaysClosedInCache | ts/src/pro/kucoin.ts:967-976 | an order whose cached record is closed is filed closed under its key and placed last |
| Dispatch.CheckBidAskSymbols | ts/src/pro/kucoin.ts:320-323 | accepted exactly when there are at most 100 symbols; otherwise ArgumentsRequired |
| Dispatch.CheckTradeSymbols | ts/src/pro/kucoin.ts:483-486 | accepted exactly when the symbol list is non-empty; otherwise ArgumentsRequired |
| Dispatch.CheckOrderBookRequest | ts/src/pro/kucoin.ts:591-599 | accepted exactly when symbols are given and the limit is absent or one of 5, 20, 50, 100; no symbols gives ArgumentsRequired, and a bad limit gives ExchangeError |
| Dispatch.OrderBookMethod | ts/src/pro/kucoin.ts:604-608 | limit 5 selects `/spotMarket/level2Depth5` and limit 50 `/spotMarket/level2Depth50`; any other limit uses the configured channel, or `/market/level2` when none is configured |
| Dispatch.PlanOrderBook | ts/src/pro/kucoin.ts:591-616 | a plan exists exactly when the request checks pass, and otherwise the checks' error is returned; a plan's topic is the channel, a colon and the market ids joined by commas, and it has one hash per market |
| Dispatch.OrderBookPlanSnapshotRule | ts/src/pro/kucoin.ts:604-625 | an accepted request gives one hash per market on the chosen channel, and asks for a snapshot exactly when the channel is `/market/level2`: never for limits 5 and 50, always by default |
| Dispatch.TickerTopicRoundTrip | ts/src/pro/kucoin.ts:259-271 | parsing the topic `watchTicker` builds gives back its market id, or the subject for `all` |
| Dispatch.TickerMarketId | ts/src/pro/kucoin.ts:259-269 | no topic, or a topic without a colon, names no market; a market id taken from the topic has no colon and is not `all` |
| Dispatch.HandlerForType | ts/src/pro/kucoin.ts:1228-1241 | a frame routed to a handler has the type that handler serves |
| Dispatch.HandlerForTypeInverse | ts/src/pro/kucoin.ts:1228-1241 | a frame goes to a handler exactly when its type is the one that handler serves |
| Dispatch.HandlerForSubjectMatchesSubjects | ts/src/pro/kucoin.ts:1167-1189 | outside the all-tickers topic, a message goes to a handler exactly when its subject is one that handler serves |
| Dispatch.HandlerForSubject | ts/src/pro/kucoin.ts:1167-1189 | the all-tickers topic goes to the ticker handler; otherwise a routed message has a subject its handler serves |
| KucoinAdapter.RequestIdsNeverRepeat | ts/src/pro/kucoin.ts:120-124 | ids printed from a growing counter never repeat |
| KucoinAdapter.HandleBookMessage | ts/src/pro/kucoin.ts:681-719 | the book and the outcome are what `OnMessage` gives for the book (none if just created) |
| KucoinAdapter.Client.constructor | ts/src/pro/kucoin.ts:135 | a new connection has its URL and an empty subscription table |
| KucoinAdapter.Kucoin.constructor | ts/src/pro/kucoin.ts:36-46 | a new adapter has counter 0, no endpoints, no books and no caches, and the given options (a trade bound of 1000 and a snapshot delay of 5 when not given; the order bound defaults to the 1000 that `handleOrder` reads) |
| KucoinAdapter.Kucoin.RequestId | ts/src/pro/kucoin.ts:120-124 | returns the previous counter plus 1, and stores it |
| KucoinAdapter.Kucoin.Subscribe | ts/src/pro/kucoin.ts:126-140 | sends `SubscribeFrame` under the next request id; the table becomes `Register` of the old table |
| KucoinAdapter.Kucoin.SubscribeMultiple | ts/src/pro/kucoin.ts:142-159 | sends one frame under the next request id; the table becomes `RegisterAll` over the hashes in order |
| KucoinAdapter.Kucoin.WatchOrderBookForSymbols | ts/src/pro/kucoin.ts:591-627 | a refused request sends nothing and returns the check's error; an accepted one sends the plan's topic and registers its hashes, and its subscription carries the snapshot callback exactly on `/market/level2` |
| KucoinAdapter.Kucoin.Ping | ts/src/pro/kucoin.ts:1192-1201 | the ping frame carries the next request id |
| KucoinAdapter.Kucoin.Negotiate | ts/src/pro/kucoin.ts:56-70 | the memo and step are `OnNegotiate`: a memoised class is joined, otherwise a new ticket is memoised; tickets stay unique |
| KucoinAdapter.Kucoin.NegotiateHelper | ts/src/pro/kucoin.ts:72-118 | the memo and URL are `OnNegotiated`: success yields the URL, and failure deletes the class's entry |
| KucoinAdapter.Kucoin.HandleErrorMessage | ts/src/pro/kucoin.ts:1208-1224 | the memo becomes `OnErrorMessage` for the connection's URL and the error text |
| KucoinAdapter.Kucoin.HandleOrderBookSubscription | ts/src/pro/kucoin.ts:761-777 | every symbol of the subscription gets a fresh empty book; other books are kept |
| KucoinAdapter.Kucoin.HandleSubscriptionStatus | ts/src/pro/kucoin.ts:779-797 | the table and the invoked subscription are `OnAck`, so a registered callback runs exactly once; the order-book callback gives each of its symbols a fresh empty book and keeps every other book |
| KucoinAdapter.Kucoin.HandleOrderBook | ts/src/pro/kucoin.ts:630-720 | the symbol's book (created when missing) ends as `OnMessage` says; every other book is unchanged |
| KucoinAdapter.Kucoin.HandleOrder | ts/src/pro/kucoin.ts:955-980 | both order caches are created on first use with the `ordersLimit` bound; the order goes to the trigger cache exactly when it has a trigger price, is filed by `OrderUpdated`, and the other cache is unchanged |
| KucoinAdapter.Kucoin.HandleMyTrade | ts/src/pro/kucoin.ts:1012-1024 | the trade cache is created on first use with the `tradesLimit` bound, and the trade is appended as `Appended` says |

## Left out

- Transport, futures and concurrency are not modelled: `watch`, `watchMultiple`, `client.resolve`, `spawn`, and the timing of concurrent `negotiate` calls. A memoised future is a ticket standing for its identity. Its resolution is the memo entry gaining its URL.
- The watch's own entry in the subscription table (hash → subscription) is written by the base exchange class, which is not part of this model. The table is taken as it is found, and `WatchOrderBookForSymbols` returns the subscription that would be registered.
- The snapshot load is not modelled: fetching, replaying from the index `getCacheIndex` finds, and retrying. `Buffered(true)` marks where it starts.
- The limit lookup loop in `handleOrderBook` (ts/src/pro/kucoin.ts:698-707) only feeds the snapshot load, so it is left out with it.
- The network calls for bullet tokens are not modelled. Their response is the `BulletResponse` parameter, and `urlencode` is taken as already applied to the token.
- Ticker, trade, candle, balance and best-bid/ask parsing are left out, and so are market lookup and floating-point prices. The handlers take the parsed record or the resolved symbol as a parameter. Prices and sizes are integers.
- Book-side sorting and depth limits are left out: each side is a map from price to size. The price-0 rule in the comment at ts/src/pro/kucoin.ts:569 is not applied, because `storeArray` is not part of this model.
- `handleOrderBookSubscription` builds books with the subscription's `limit`, which only bounds their depth. The model drops that limit.
- WsOrderStatus: `triggerSuccess` is taken as an optional boolean. The source also counts any other present value as a failed trigger; such values are not modelled.
- `HandleSubscriptionStatus` takes the ack's id as a string. An ack without an id is not modelled.
- `handleErrorMessage` passes the error to `handleErrors`, which is not part of this model. The ping-pong timing (`handlePong`, `keepAlive`) is left out too.
- `HandleOrder`: a `clear_updates` request from a consumer (`getLimit`) is not modelled, so the flag stays false in the adapter.
- ExampleUpdateFindsSlotByIdAlone, Appended: PHP references are not modelled. The map entry and the deque slot of a record are held as equal values, not as one shared record. The source writes an update through the map entry's reference, so a slot that still shares that reference shows the new record. When the update path removes its own record's slot (the usual case), the two agree. When `find` by bare id removes another symbol's slot, they differ: after (A,1), (B,1) and an update of (B,1), the source's first remaining slot shows the new record (B,1,1), while the model keeps (B,1,0).
- The market id of an order-book message (its data's `symbol`, else its topic's market part) and its unified symbol come from market lookup, which is not modelled. `HandleOrderBook` takes the resolved symbol.
- `ArrayCacheBySymbolById` in the TypeScript runtime is not part of this model. The adapter's caches follow the PHP class.
