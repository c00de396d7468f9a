# A verified model of the exchange

The repository is a small electronic exchange: gRPC handlers push orders into a lock-free queue, one engine thread matches
them in a limit order book, and subscribers, a gateway and a browser front end follow what happens. This project models that
pipeline in Dafny and proves what each stage owes to the next one.

1. **The queue** (`Queue*.dfy`, `SequentialQueue.dfy`). The Jiffy-style multi-producer single-consumer queue is a transition
   system in which every load, store, `fetch_add` and `compare_exchange` of a shared field is one step, and the scheduler
   picks any producer or the consumer at every step. One invariant is shown inductive for all of them (`QueueInvariant.Inv`),
   including folds of handled buffers behind the backs of walking producers. From it follow safety, real-time order, and
   liveness: when an enqueue or a dequeue that runs alone comes to its end, what it answers, and that what goes in comes out.
   `SequentialQueue` is the same data structure as one thread sees it, updated in place.
2. **The book** (`MarketTypes.dfy`, `FlatBook.dfy`, `Book*.dfy`, `OrderBook.dfy`). The order book's nested loops over
   price levels and lists, with their id index, are a class proved against one pass over a flat queue. About that flat book
   the project proves price-time priority, maximal and cheapest execution, symmetry of the two sides, and
   the run-level invariants and conservation laws.
3. **The engine and its publishers** (`EngineSpec.dfy`, `Publishers.dfy`, `MatchingEngine.dfy`, `EngineRuns.dfy`). Classes
   for both publishers and the engine, and a transition system in which subscribers come and go between any two
   steps of processing a message.
4. **The shadows of the book** (`BookShadow.dfy`, `Normalizer*.dfy`, `WireRuns.dfy`, `Stats*.dfy`, `Positions.dfy`,
   `FailingRuns.dfy`). The gateway rebuilds the resting orders from telemetry, the front end rebuilds positions and open
   orders from the gateway's batches; both are compared with the engine's book over whole runs.

## What is not so, and when it is

- *The shadow of the gateway equals the book* only while the book never holds more than 50,000 orders; this is an
  if-and-only-if (`NormalizerRuns.ShadowIsBookIff`). `FailingRuns.ShadowOutgrown` has the runs for which it fails: any larger
  number of equal bids.
- *The open orders shown are the human's resting orders* exactly when nobody else ever cancelled one of them (the code
  compares the canceller's node, not the owner's) and none of them rests without a side (`StatsRuns.OpenIsBookIff`).
  `FailingRuns.ForeignCancelIsShown` and `Positions.SidelessOrderIsNotShown` are concrete runs for the two halves.
- *Positions and cash on the screen are what was traded* except for orders without a side: the book handles every side but
  BID as a sale, the gateway reads the missing side as a purchase. While the book stays within the gateway's 50,000 orders,
  a node's position is off by exactly twice what it traded as an aggressor without a side, less what such aggressors traded
  against its orders; so it is right if and only if the two are equal, and its cash if and only if the amounts paid are
  (`Positions.PositionsAreRealIff`).
  `Positions.PositionsDiffer` has the formula without any bound on the book, including trades attributed to "?", and
  `Positions.SidelessTradeIsMisread` a run in which the human sells one unit and is shown to have bought one. Trade by trade,
  what is booked is what was traded if and only if every aggressor had a side and every resting order was still known or
  belonged to a node named "?" (`Positions.LegsAreRealIff`). That positions, cash and profits add up to zero holds for all frames whatsoever.
- *An enqueue finishes on its own* from every reachable state except one family: it needs a buffer behind `tailOfQueue`, and
  another enqueue has linked that buffer but not yet swung the tail. Then it loops until the other one goes on
  (`QueueFinishes.FinishesIff`).
- *Resting quantities are positive* after a submit exactly when a negative quantity was not allowed to rest
  (`BookInvariant.PositivityNeedsQuantity`); the book itself does not check quantities.
- The repository's own README (line 40) says that a MARKET order that cannot fully fill is rejected with what did execute;
  the code, and so the model, does the same, but an order of unspecified type is handled as a LIMIT order that accepts every
  price, so it rests when it finds no more liquidity. All invariants below include it.

## Assumptions

Atomics are sequentially consistent; locations, sequence numbers and quantities are unbounded integers and prices are real
numbers. Clocks are parameters. Runs that speak of ids assume that those of submitted orders are distinct, as
`OrderIdGenerator` draws them from a counter (`BookRuns.FreshIds`). Runs that speak of positive or owned quantities submit
none below zero (`BookRuns.NonNegative`).

## Model

| member | source | states |
|---|---|---|
| QueueInvariant.InitialInv | exchange/OrderProcessor/repo/mpscqueue.h:53 | the queue as constructed satisfies the invariant |
| QueueProducer.ClaimInv | exchange/OrderProcessor/repo/mpscqueue.h:56 | fetch_add on tail, at any moment, keeps the invariant |
| QueueProducer.WalkLands | exchange/OrderProcessor/repo/mpscqueue.h:76-82 | one step back over prev never passes the buffer of the location, because prev links only ever skip fully handled buffers |
| QueueProducer.CheckInv | exchange/OrderProcessor/repo/mpscqueue.h:84-86 | the EMPTY guard always succeeds, so no item is dropped there |
| QueueProducer.OwnSlot | exchange/OrderProcessor/repo/mpscqueue.h:84-88 | until it publishes, an enqueue holds the live buffer of its own location and its slot is EMPTY and not yet behind the head |
| QueueAppend.NullNext | exchange/OrderProcessor/repo/mpscqueue.h:62-66 | the last buffer has a null next link, and any other null next link belongs to a folded buffer |
| QueueAppend.CasNextInv | exchange/OrderProcessor/repo/mpscqueue.h:63-70 | both compare-and-swaps on next (on demand and ahead of need) keep the invariant, won or lost |
| QueueAppend.CasTailInv | exchange/OrderProcessor/repo/mpscqueue.h:95 | swinging tailOfQueue keeps the invariant, and it never lags more than one buffer |
| QueueConsumer.ScanInv | exchange/OrderProcessor/repo/mpscqueue.h:199-229 | the scan ahead stays on linked buffers at or behind the head and knows when it has seen a fully handled buffer |
| QueueConsumer.HandledBehindTail | exchange/OrderProcessor/repo/mpscqueue.h:175-183 | a buffer to be folded is not behind tailOfQueue |
| QueueConsumer.RescanInv | exchange/OrderProcessor/repo/mpscqueue.h:231-254 | everything the candidate's enqueue saw published and ReScan has passed is delivered |
| QueueDeliver.DeliverInv | exchange/OrderProcessor/repo/mpscqueue.h:141-148 | delivering the candidate after a full ReScan pass keeps order and the exactly-once ledger |
| QueueDeliver.TakeInv | exchange/OrderProcessor/repo/mpscqueue.h:126-131 | delivering the head slot keeps the invariant |
| QueueFold.FoldFreeInv | exchange/OrderProcessor/repo/mpscqueue.h:185-196 | taking a handled buffer out of the list leaves every other buffer linked in both directions |
| QueueReclaim.SpareStep | exchange/OrderProcessor/repo/mpscqueue.h:163-190 | every step keeps the garbage list a list of buffers nobody can be sent to, and only such buffers and former heads are ever deleted |
| QueueReclaim.SlotsAlive | exchange/OrderProcessor/repo/mpscqueue.h:84-88 | in every reachable state, no thread's next step uses the slots of a deleted buffer |
| QueueTheorems.StepInv | exchange/OrderProcessor/repo/mpscqueue.h:55-254 | the invariant, including that of deleted buffers, survives every step of every producer and of the consumer |
| QueueTheorems.RunInv | exchange/OrderProcessor/repo/mpscqueue.h:55-254 | the invariant holds in every state of every run under every schedule |
| QueueTheorems.QueueSafety | exchange/OrderProcessor/repo/mpscqueue.h:55-152 | in every run: no step uses slots deleted by a fold, with an old head or with old garbage; every location is delivered at most once with its own item; nothing is skipped by the head; and every finished enqueue is delivered or waits where next links from the head lead |
| QueueTheorems.ProducerLands | exchange/OrderProcessor/repo/mpscqueue.h:58-84 | in every run a producer accesses the slot of its own location, in a buffer not folded, and finds it EMPTY |
| QueueFinishes.FinishesIff | exchange/OrderProcessor/repo/mpscqueue.h:55-101 | in every state of every run, an enqueue that now runs alone finishes if and only if it does not wait for a buffer behind a tail that another enqueue has still to swing |
| QueueFinishes.EnqueueFinishes | exchange/OrderProcessor/repo/mpscqueue.h:55-101 | in every such state in which no other enqueue is about to swing tailOfQueue, it finishes within an explicit number of steps, touching nobody else, with its item SET in its slot |
| QueueFinishes.StuckForever | exchange/OrderProcessor/repo/mpscqueue.h:61-74 | an enqueue that waits for another one to swing the tail loops for as long as it runs alone |
| QueueTheorems.RealTimeFifo | exchange/OrderProcessor/repo/mpscqueue.h:133-148 | in every run, an enqueue finished before another one began is delivered before it |
| QueueQuiet.QuietFacts | exchange/OrderProcessor/repo/mpscqueue.h:90-98 | with no enqueue in flight, slots are EMPTY exactly from tail on and early allocation has placed tailOfQueue so that the test of dequeue is exact |
| QueueQuiet.QuietDequeueIsFifo | exchange/OrderProcessor/repo/mpscqueue.h:103-152 | with no enqueue in flight, a dequeue that has returned is false exactly when all is delivered and otherwise has delivered the oldest undelivered location |
| QueueQuiet.RescanProgress | exchange/OrderProcessor/repo/mpscqueue.h:235-253 | every turn of ReScan lowers a measure, and a restart strictly lowers the candidate's location |
| QueueQuiet.RescanUndisturbed | exchange/OrderProcessor/repo/mpscqueue.h:231-254 | no step of a producer changes that measure |
| QueueQuiet.RescanTerminates | exchange/OrderProcessor/repo/mpscqueue.h:231-254 | under any interference ReScan takes at most the number of turns its measure gave at first |
| QueueReturns.AloneProgress | exchange/OrderProcessor/repo/mpscqueue.h:103-254 | wherever producers have stopped, every step of a dequeue that runs alone lowers a bound made of the slots before the tail, the garbage list, the buffers to scan and the ReScan to come |
| QueueReturns.AloneReturns | exchange/OrderProcessor/repo/mpscqueue.h:103-152 | wherever producers have stopped, a dequeue that runs alone returns within that bound |
| QueueAlone.AloneDequeueAnswers | exchange/OrderProcessor/repo/mpscqueue.h:103-152 | wherever producers have stopped, a dequeue that runs alone delivers one published, undelivered item; it answers false only if there is none or if it met the head at `tail` in the tail buffer |
| QueueAlone.LooksEmptyAnswers | exchange/OrderProcessor/repo/mpscqueue.h:121-123 | the emptiness test answers false at once |
| QueueFolds.DeliveryFolds | exchange/OrderProcessor/repo/mpscqueue.h:209-213 | when a dequeue that runs alone delivers from behind an unset slot, every fully handled buffer in between has been folded |
| QueueFolds.DeliveryMovesHead | exchange/OrderProcessor/repo/mpscqueue.h:126-148 | a delivery moves the head on exactly if it was at the head, and leaves no used-up buffer at the head that is not the tail |
| QueueFolds.MoveDropsOldGarbage | exchange/OrderProcessor/repo/mpscqueue.h:163-170 | moving on deletes the buffer left and all garbage at the front of the list that is older than the next buffer |
| QueueFolds.MoveKeepsNewGarbage | exchange/OrderProcessor/repo/mpscqueue.h:163-168 | and no garbage that is not older |
| QueueSequence.ClaimAppends | exchange/OrderProcessor/repo/mpscqueue.h:56 | claiming a location appends the item to the sequence of pending items |
| QueueSequence.ProducerKeepsPending | exchange/OrderProcessor/repo/mpscqueue.h:58-100 | no other step of an enqueue changes that sequence |
| QueueSequence.QuietDequeueIsSequence | exchange/OrderProcessor/repo/mpscqueue.h:103-152 | the same in terms of the pending sequence: first item removed and returned, false exactly on the empty sequence |
| QueueSequence.DequeueAlone | exchange/OrderProcessor/repo/mpscqueue.h:103-152 | in any run that has come to a state with no enqueue in flight, a dequeue returns, within a known bound, the first pending item and removes it, or false exactly if there is none |
| QueueRoundTrip.EnqueuedIsDelivered | exchange/OrderProcessor/repo/mpscqueue.h:55-152 | from any state of any run in which nobody is inside the queue: an enqueue run to its end and dequeues to the end deliver what was pending, in order, and then exactly the new item |
| SequentialQueue.MPSCQueue.Enqueue | exchange/OrderProcessor/repo/mpscqueue.h:55-101 | one thread: appends to the contents; a new buffer appears exactly when slot N - 2 is filled |
| SequentialQueue.MPSCQueue.Dequeue | exchange/OrderProcessor/repo/mpscqueue.h:103-152 | one thread: returns and removes the first item, false exactly on empty contents, from any head position |
| SequentialQueue.MPSCQueue.Scan | exchange/OrderProcessor/repo/mpscqueue.h:199-229 | one thread: from an EMPTY head slot the scan ends at the last buffer and finds nothing |
| BookMatching.WalkShape | exchange/OrderProcessor/engine/orderBook.cpp:76-116 | trades are a prefix of the acceptable opposite queue, all but the last fully consume their order, the rest is the suffix with its head reduced, and matching stops for one of the three reasons |
| BookMatching.FillIsMaximal | exchange/OrderProcessor/engine/orderBook.cpp:76-118 | filled quantity is the smaller of what was wanted and what was acceptable |
| BookMatching.GreedyIsOptimal | exchange/OrderProcessor/engine/orderBook.cpp:76-119 | no allocation of the filled quantity is cheaper for a bid or dearer for an ask |
| BookAnswers.SubmitAnswers | exchange/OrderProcessor/engine/orderBook.cpp:118-142 | every submit, on every book, is answered with the quantity of the trades it published, with an average price that times that quantity is their value (0 without trades), and with the status and reason these give |
| BookAnswers.SubmitEvents | exchange/OrderProcessor/engine/orderBook.cpp:86-102 | a submit publishes one trade for each of the first orders of the other side, at that order's price, with consecutive numbers and its own side and id, and then the new top |
| BookAnswers.SubmitExhausts | exchange/OrderProcessor/engine/orderBook.cpp:77-82 | an unfilled LIMIT order leaves only worse prices on the other side, and an unfilled order of any other type leaves nothing there |
| BookAnswers.SubmitMovesDepth | exchange/OrderProcessor/engine/orderBook.cpp:86-140 | quantity at a price changes exactly by what the published trades took there and what came to rest there |
| BookAnswers.CancelAnswers | exchange/OrderProcessor/engine/orderBook.cpp:230-261 | a cancel is answered with success and a new top exactly if the order rests, and otherwise with "not found" and no event |
| BookAnswers.MessageAnswered | exchange/OrderProcessor/engine/matchingEngine.cpp:45-67 | in every run, every message is answered so |
| BookMirror.AskIsMirroredBid | exchange/OrderProcessor/engine/orderBook.cpp:145-221 | submitAsk is submitBid on the book with sides swapped and prices negated, events and trade numbers included |
| BookLevels.PushBackIsInsert | exchange/OrderProcessor/engine/orderBook.cpp:10-13 | appending to the list at a price puts the order where price-time priority wants it in the flat queue |
| BookInvariant.InsertOk | exchange/OrderProcessor/engine/orderBook.cpp:10-22 | resting keeps a side in strict price-time order with distinct ids |
| BookInvariant.SubmitOk | exchange/OrderProcessor/engine/orderBook.cpp:223-228 | every submit of a non-negative quantity keeps both sides ordered, positive, uncrossed and without shared ids |
| BookInvariant.CancelOk | exchange/OrderProcessor/engine/orderBook.cpp:230-261 | a cancel keeps all that, succeeds exactly for resting ids and removes only its own |
| BookInvariant.CancelKeepsPriority | exchange/OrderProcessor/engine/orderBook.cpp:242-255 | the queue after a cancel is the old one without the one order, everyone else in place |
| BookInvariant.QueueThenCancelRestores | exchange/OrderProcessor/engine/orderBook.cpp:137-140 | a QUEUED order that is cancelled leaves the book exactly as it was |
| BookInvariant.PositivityNeedsQuantity | exchange/OrderProcessor/engine/orderBook.cpp:72 | resting quantities stay positive if and only if the quantity is not negative or the order is a MARKET order |
| BookRuns.RunOk | exchange/OrderProcessor/engine/orderBook.cpp:67-261 | after every run of submits and cancels, of any order types, the book is in price-time order, never crossed or locked, positive and without repeated ids |
| BookRuns.RunIds | exchange/OrderProcessor/engine/orderBook.cpp:67-261 | only submitted orders ever rest |
| BookRuns.CancelAfterRun | exchange/OrderProcessor/engine/orderBook.cpp:234-260 | in every reachable state a cancel succeeds exactly for resting ids, and a failed one changes and publishes nothing |
| BookRuns.LastTopIsCurrent | exchange/OrderProcessor/engine/orderBook.cpp:129-141 | after every run the last event published is a top of book equal to the current one |
| BookRuns.SubmitConserves | exchange/OrderProcessor/engine/orderBook.cpp:86-142 | a submit conserves the quantity of every order, and its trades sum to filledQuantity |
| BookRuns.CancelConserves | exchange/OrderProcessor/engine/orderBook.cpp:230-261 | a cancel conserves the quantity of every order |
| BookRuns.RunConserves | exchange/OrderProcessor/engine/orderBook.cpp:67-261 | over every run and for every id: submitted is traded as aggressor, plus traded as resting order, plus still resting, plus given up by cancel or rejection |
| BookDepths.LevelTotals | exchange/OrderProcessor/engine/orderBook.cpp:53-58 | the sums over a list are what rests at its price in the whole side |
| BookDepths.RowsAreSorted | exchange/OrderProcessor/engine/orderBook.cpp:49-65 | depth rows are strictly price-sorted, extend shallower queries and start with the top of book |
| BookDepths.DepthAfterRun | exchange/OrderProcessor/engine/orderBook.cpp:24-65 | the same in every reachable state, for both sides, with every bid row below every ask row |
| BookAnswers.DepthIsExact | exchange/OrderProcessor/engine/orderBook.cpp:49-65 | in every reachable state, a price has a row in the depth of k levels if and only if something rests there and fewer than k distinct better prices rest, the row carries quantity and number of orders at its price, and there is no other row |
| BookIndex.IndexedUnique | exchange/OrderProcessor/engine/orderBook.h:24-34 | an index that locates every order forces ids to be distinct |
| BookIndex.IndexErase | exchange/OrderProcessor/engine/orderBook.cpp:103-105 | erasing a consumed order with its entry keeps the index exact |
| BookLoops.LevelTrade | exchange/OrderProcessor/engine/orderBook.cpp:86-108 | one turn of the inner loop is one step of the flat walk |
| BookLoops.MatchEnd | exchange/OrderProcessor/engine/orderBook.cpp:77-82 | where the outer loop ends, the flat walk ends |
| BookLoops.CancelLevel | exchange/OrderProcessor/engine/orderBook.cpp:242-255 | the index entry leads to the level and list node of exactly the cancelled order |
| OrderBooks.OrderBook.constructor | exchange/OrderProcessor/engine/orderBook.h:30-34 | a new book is empty |
| OrderBooks.OrderBook.RestBid | exchange/OrderProcessor/engine/orderBook.cpp:10-15 | resting a bid inserts it by priority, for every order; the index stays exact under a new id |
| OrderBooks.OrderBook.RestAsk | exchange/OrderProcessor/engine/orderBook.cpp:17-22 | resting an ask inserts it by priority, for every order; the index stays exact under a new id |
| OrderBooks.OrderBook.MatchBid | exchange/OrderProcessor/engine/orderBook.cpp:76-116 | the nested loops over ask levels compute the flat walk, and an index in bijection with the resting orders stays so |
| OrderBooks.OrderBook.MatchAsk | exchange/OrderProcessor/engine/orderBook.cpp:154-194 | the nested loops over bid levels compute the flat walk, and an index in bijection with the resting orders stays so |
| OrderBooks.OrderBook.SubmitBid | exchange/OrderProcessor/engine/orderBook.cpp:67-143 | book, result and events are those of the flat submit (see SubmitAnswers, SubmitEvents), for every order; the index stays exact under a new id |
| OrderBooks.OrderBook.SubmitAsk | exchange/OrderProcessor/engine/orderBook.cpp:145-221 | book, result and events are those of the flat submit (see SubmitAnswers, SubmitEvents), for every order; the index stays exact under a new id |
| OrderBooks.OrderBook.Submit | exchange/OrderProcessor/engine/orderBook.cpp:223-228 | dispatch: every side but BID is an ask |
| OrderBooks.OrderBook.Cancel | exchange/OrderProcessor/engine/orderBook.cpp:230-261 | with an exact index, the lookup, list erase and level erase are the removal from the flat queue; success exactly for indexed ids |
| OrderBooks.OrderBook.CurrentTopOfBook | exchange/OrderProcessor/engine/orderBook.cpp:24-47 | best prices with all quantity resting at them |
| OrderBooks.OrderBook.Depth | exchange/OrderProcessor/engine/orderBook.cpp:49-65 | the first rows of both sides, one per distinct price (see DepthIsExact) |
| EngineSpec.EngineIsBookRun | exchange/OrderProcessor/engine/matchingEngine.cpp:45-62 | the engine's book and event stream are those of the run of the messages with payload |
| EngineSpec.AnsweredOnce | exchange/OrderProcessor/engine/matchingEngine.cpp:65-67 | each promise is set exactly once, with the result of its own message |
| MatchingEngines.MatchingEngine.Process | exchange/OrderProcessor/engine/matchingEngine.cpp:19-77 | one message, whatever its id: book, reply, published batch, sequence number and telemetry record are those of the sequential book |
| MatchingEngines.MatchingEngine.Run | exchange/OrderProcessor/engine/matchingEngine.cpp:6-17 | over any dequeue order with distinct ids: book, replies, the published stream and the numbered records are those of the sequential book |
| EngineRuns.EngineRefinesBook | exchange/OrderProcessor/engine/matchingEngine.cpp:19-77 | in every interleaving with subscribers, replies and the published stream are those of the sequential book, batch by batch |
| EngineRuns.MarketSubscriberSees | exchange/OrderProcessor/engine/matchingEngine.cpp:70-72 | in every interleaving a market data subscriber holds one unbroken stretch of the event stream, cut at batches |
| EngineRuns.TelemetryIsConsecutive | exchange/OrderProcessor/engine/matchingEngine.cpp:28-76 | in every interleaving a telemetry subscriber holds complete records of consecutive messages with consecutive numbers, from the first message begun after it came to the last one done before it left, none missing |
| EngineRuns.TelemetrySubscriberSees | exchange/OrderProcessor/engine/matchingEngine.cpp:68-76 | in every interleaving a telemetry subscriber holds exactly the records published from its subscribe to its unsubscribe |
| Publishers.SubscriberGetsWindow | exchange/OrderProcessor/engine/marketDataPublisher.cpp:3-22 | over every run of a publisher, a subscriber gets exactly the whole batches between its subscribe and its unsubscribe, in order |
| Publishers.MarketDataPublisher.Subscribe | exchange/OrderProcessor/engine/marketDataPublisher.cpp:3-8 | a new id and an empty queue, nobody else disturbed |
| Publishers.MarketDataPublisher.Unsubscribe | exchange/OrderProcessor/engine/marketDataPublisher.cpp:10-13 | only this subscriber stops receiving; an unknown id changes nothing |
| Publishers.MarketDataPublisher.Publish | exchange/OrderProcessor/engine/marketDataPublisher.cpp:15-22 | the nested loops append the whole batch to every subscribed queue |
| Publishers.TelemetryPublisher.Subscribe | exchange/OrderProcessor/engine/telemetry.h:66-72 | as above, and the count follows |
| Publishers.TelemetryPublisher.Unsubscribe | exchange/OrderProcessor/engine/telemetry.h:74-78 | as above, and the count follows |
| Publishers.TelemetryPublisher.HasSubscribers | exchange/OrderProcessor/engine/telemetry.h:80-82 | the count answers exactly whether anybody is subscribed |
| Publishers.TelemetryPublisher.Publish | exchange/OrderProcessor/engine/telemetry.h:84-89 | the record reaches every subscribed queue and no other |
| BookShadow.SubmitFollows | exchange/OrderProcessor/engine/orderBook.cpp:86-142 | the trades, status and filled quantity a submit reports determine the new set of resting orders, and every trade hits an order still resting |
| BookShadow.CancelFollows | exchange/OrderProcessor/engine/orderBook.cpp:230-261 | the result a cancel reports determines the new set of resting orders |
| Normalizers.Normalizer.Normalize | web/gateway/normalize.ts:68-162 | the batch carries the record (see QuoteOnWire, BatchShowsMessage), trades are attributed one by one, the shadow is updated and bounded, and the depth is shown or held back as one step of the throttle |
| Normalizers.Normalizer.FlushBook | web/gateway/normalize.ts:62-66 | the held-back depth is handed out once, as one step of the throttle |
| Normalizers.WireTradesCarry | web/gateway/normalize.ts:79-97 | the trades on the wire are the record's trades, whatever the shadow knows |
| NormalizerRuns.HitWithin | web/gateway/normalize.ts:80-86 | a trade keeps the shadow within, and equal to, the set of resting orders |
| NormalizerRuns.ShadowIsWithinBook | web/gateway/normalize.ts:79-106 | over every run the shadow only holds resting orders with the right owner and remaining quantity, never more than 50,000, and all of them while the book never held more than that |
| NormalizerRuns.ShadowIsBookIff | web/gateway/normalize.ts:101-104 | the shadow equals the book after every message if and only if the book never held more than 50,000 orders |
| NormalizerAges.ShadowForgetsOldest | web/gateway/normalize.ts:101-104 | over every run, every resting order the shadow has lost was submitted before every order it still holds |
| FailingRuns.ShadowOutgrown | web/gateway/normalize.ts:101-104 | any number of equal bids above 50,000 is a sound run after which the shadow misses resting orders |
| NormalizerRuns.TradesNameOwners | web/gateway/normalize.ts:80-95 | over every run a trade names the owner of the order it hit, or "?" only after the cap was exceeded |
| NormalizerRuns.ThrottlingLosesNothing | web/gateway/normalize.ts:150-160 | over every sequence of calls of the two methods, what is shown or pending is the latest depth, and it is shown after a flush and after trades |
| NormalizerRuns.ThrottleSpacing | web/gateway/normalize.ts:153 | a record's book is sent at once exactly if it has trades or 33 ms have passed since the last one that was |
| WireRuns.QuoteOnWire | web/gateway/normalize.ts:111-119 | over every run, a batch has a quote unless its message was a failed cancel or had no payload, and the quote is the greatest bid and the least ask of the book after the message with all quantity resting there, nothing for an empty side, bid below ask |
| WireRuns.BatchShowsMessage | web/gateway/normalize.ts:121-138 | over every run, a batch shows id, node, side, type, price and quantity of its message and the status, fill, average, reason and success the book answered |
| WireRuns.RecordDepth | exchange/OrderProcessor/engine/matchingEngine.cpp:74 | over every run, the depth of a record is exactly the ten best prices of each side after its message |
| Stats.ColumnsBalance | web/src/derive.ts:109-121 | over all nodes positions and cash add up to zero and volumes to twice the traded quantity, self-trades included |
| Stats.PnlSums | web/src/derive.ts:134 | the profit column adds up to cash plus position at the last price |
| Stats.ComputeStats | web/src/derive.ts:87-136 | the frames up to and including `idx` count, all of them if there are fewer and none for a negative `idx`: each row is the account of its node under its roster name, every node of the roster has one, and positions, cash and profits add up to zero |
| StatsFrames.OneFrameMore | web/src/derive.ts:101-133 | from `idx` to `idx + 1` exactly the frame at `idx + 1` is counted: orders, cancels, fills, positions and cash of every node, open orders and last price change by that batch alone, and not at all for a book frame |
| StatsFrames.NoFrame | web/src/derive.ts:99-101 | before the first frame nothing is counted |
| WireRuns.CountsAreReal | web/src/derive.ts:106-107 | over every run, the counters of a node are the submits it sent and its cancels that succeeded |
| WireRuns.LastPriceIsLast | web/src/derive.ts:110 | over every run, profits are valued at the price of the last trade published |
| Stats.BookTrade | web/src/derive.ts:109-121 | both legs of a trade reach the rows of their nodes, also when it is one node |
| StatsRuns.OpenIsHumanPlusOrphans | web/src/derive.ts:122-132 | over every engine run the open orders are the human's resting orders with a side, plus those cancelled by somebody else, frozen |
| StatsRuns.OpenIsBookIff | web/src/derive.ts:122-132 | they are the human's resting orders if and only if nobody else cancelled one and none rests without a side |
| FailingRuns.ForeignCancelIsShown | web/src/derive.ts:128-131 | a concrete run of two messages in which a bot cancels the human's only order and the screen still shows it as open |
| Positions.RunDealsAre | web/src/derive.ts:109-121 | over every engine run, the legs booked and the legs traded are two readings of the same trades, side and owner |
| Positions.LegsAreRealIff | web/src/derive.ts:111-121 | over every engine run, the legs booked are the legs traded if and only if every aggressor had a side and every resting order hit was still known (or its owner is named "?") |
| Positions.PositionsDiffer | web/src/derive.ts:111-121 | over every engine run and for every node, by how much position and cash shown differ from what was traded |
| Positions.PositionsAreRealIff | web/src/derive.ts:111-121 | within the normalizer's cap, a node's position (cash) is right if and only if it traded as much (for as much) without a side as was traded so against its orders; fills and volume always are |
| Positions.SidelessTradeIsMisread | web/gateway/normalize.ts:91 | a concrete run of two orders after which the human's position is -1 and the screen shows 1 |
| Positions.SidelessOrderIsNotShown | web/src/derive.ts:129 | a concrete order that rests, belongs to the human and is not shown as open |

## Left out

- Weak memory orders and 32-bit wrap-around of queue locations: the queue model is sequentially consistent and has unbounded locations.
- QueueTheorems.QueueSafety: speaks of slots and not of buffer nodes. All three statements that delete slots are recorded, and no step uses slots afterwards; but a producer that has published can still read `next` and `positionInQueue` of a `BufferList` node that the consumer has deleted (it publishes slot N - 2, pauses at line 90, others fill the buffer and the consumer drains and deletes it). The model keeps those fields readable.
- Deleting the remaining buffers in the destructor.
- The elements of the queue are represented by numbers, since the queue never looks at them.
- The concurrent queue is a step machine over a heap value and not a class, because its methods interleave; reading a slot's data shares a step with the access to its state next to it, and deleting the slots of a folded buffer shares a step with the store to its next link, since no producer touches either at that time.
- Dequeue while a producer is in flight may answer false although items are pending; the exact cases are those of a dequeue that runs alone. While producers are moving only ReScan is proved to end; Scan need not, as they may keep appending.
- SequentialQueue.MPSCQueue.Dequeue: does not contain the loop over HANDLED slots, fold and ReScan, which a single thread never enters; the step machine has them all.
- OrderBooks.OrderBook.Cancel: requires an exact index. A submit under a repeated id is modelled (it overwrites the index entry of the first order), but a cancel after it may follow an entry to a level or list node that is gone, which has no defined behaviour in the source; the service never repeats an id.
- The iterators in the index are represented by the identity of their list node, lists and maps by sequences; a list erased in place is a new sequence of its level.
- Rejection reasons are values with their numbers instead of formatted strings, trade and order ids keep only what distinguishes them.
- IEEE rounding, NaN prices and 64-bit overflow of sums.
- The queues of subscribers are represented by what was enqueued to them, one queue per subscription; that an item enqueued is dequeued in order is the subject of the queue model. One queue handed to two subscriptions is not modelled.
- Waiting, starting and stopping of the engine thread, latency traces and their clocks, gRPC, Cap'n Proto, protobuf mapping and sockets.
- Records with missing fields: the normalizer is modelled on complete records, as the exchange sends them.
- Stats.ComputeStats: does not specify the order of the open orders list.
- Trading bots, charts, playback and the rest of the user interface.
