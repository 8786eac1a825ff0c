# A verified model of the exchange matching engine

A Dafny model of the exchange's order path: the per-symbol limit order book with its matching loop, the
snapshot mirror that market data is rebuilt from, the single-producer single-consumer ring, the block pool, and
the pipeline gateway - sequencer - per-symbol threads - feed - mirror. `dafny verify dfyconfig.toml` checks all
of it.

## How it is built

The book exists twice. `Book.dfy` gives it as a value: two lists of orders, best price first and oldest first
within a price, with `Step` saying what each request does and which responses and updates it emits. The
properties of whole runs are proved about this flat book. `OrderBook.dfy` gives the book as the engine stores
it: price maps, doubly linked lists through pool blocks, an id index and two pools, updated in place by the same
loops. Every method there is proved to do to the flat contents exactly what the flat book prescribes, events
included, and to abort exactly when the result would not fit the pools; `Walk.dfy` shows that the flat contents
are what following the pointers spells out, so they are not a free choice of the proof.

| file | what it holds |
|---|---|
| `Types.dfy`, `Book.dfy` | messages and the flat book |
| `Matching.dfy` | the walk down the book is the greedy allocation over eligible orders |
| `Invariant.dfy`, `Priority.dfy`, `Conservation.dfy`, `Reports.dfy` | what holds over every run |
| `Answers.dfy` | what every request is answered with, field by field, by a plain allocation |
| `Equivalence.dfy` | which operations coincide with or undo each other |
| `Mirror.dfy` | replaying the update stream against the live book |
| `MemPool.dfy`, `Links.dfy`, `LinkedBook.dfy`, `Progress.dfy`, `OrderBook.dfy`, `Walk.dfy` | the stored book and its refinement |
| `RingQueue.dfy`, `Sequencer.dfy`, `Gateway.dfy`, `Schedules.dfy`, `Routing.dfy`, `OrderServer.dfy`, `MatchingCore.dfy`, `Pipeline.dfy`, `RingPipeline.dfy`, `Determinism.dfy` | threads and queues |
| `Seal.dfy` | a small device for carrying a large invariant without its contents |

Modelling decisions:

- Ids and quantities are unsigned 64-bit, prices and times signed 64-bit, as subset types; every subtraction is
  shown to stay in range.
- Any side other than BUY takes the sell branch, as in the code.
- The bid and the ask branch of matching and removal are textual copies of each other in the source; here they
  are one method with a side parameter.
- Pool blocks are named by index. A failed assertion that aborts the process is a result `ok == false`.
- The clock reading used to stamp a resting order is an input. `Priority.ClockIrrelevant` shows that it changes
  nothing but the stored stamp, and time priority is stated with request numbers instead.
- `std::sort` is not stable: where it matters the sorted order is any sorted permutation of the buffer.
- Concurrent code is a state machine whose steps are the atomic actions, in any interleaving; the classes show
  that the threads' code is made of those steps.
- A book's outgoing queues are sequences. `MatchingCore.ResponsesFit` and `MatchingCore.UpdatesFit` say when the
  rings that carry them really are first in, first out.

Where code and documentation disagree the code is followed:

- The mirror's comment (exchange/market_data/book_snapshot_service.h:94-97) relies on every order that fills
  completely being followed by a CANCEL. That holds for resting orders, but an order that is re-priced and then
  fills completely leaves no event at all and stays in the mirror: `Mirror.PhantomExample`. `Mirror.ExactIff`
  gives the exact condition for the mirror to be a true copy.
- The gateway documents strict receive-time order (exchange/order_server/request_sequencer.h:15-20 and the
  repository's README.md:24-27). The clock is read before the inbox lock is taken, so a request can be overtaken
  by a later one and land in a later flush: `Schedules.OvertakenInFlight`. The order holds, for every schedule of
  drains and flushes, if and only if producers enter the inbox in receive-time order:
  `Schedules.RoutesInOrderWhen`.
- The documentation promises that replaying the same input always gives the same trades (README.md:152-156).
  `Determinism.ReplayDiffers` gives runs with the same requests, different receive times and a clock that never
  goes back whose trades differ in price. When producers enter the inbox in the order they read the clock, what a
  symbol processes is a function of the submitted requests if and only if receive times separate that symbol's
  requests (`Determinism.ReplayDeterminedWhen`), and then so are its responses, updates and book
  (`Determinism.ReplayDetermined`).

## Model

| member | source | states |
|---|---|---|
| `Matching.SweepIsAllocation` | exchange/matcher/order_book.cpp:114-184 | matching equals the greedy allocation over the eligible orders (other client, within the limit) in priority order: same executions in the same order, same survivors in the same places, leaves = qty - min(qty, total eligible) |
| `Matching.ServedInOrder` | exchange/matcher/order_book.cpp:116-150 | whoever is served, every eligible order ahead of it is served in full |
| `Invariant.StepOK` | exchange/matcher/order_book.cpp:190-311 | every request keeps sides sorted, ids unique, 0 < qty <= original qty, and no two clients' orders crossed |
| `Invariant.ReachableOK` | exchange/matcher/order_book.cpp:116-183 | in every reachable book a bid at or above an ask belongs to the same client, although own orders are skipped |
| `Invariant.SweepClears` | exchange/matcher/order_book.cpp:118-150 | a taker with quantity left has removed every other client's order within its limit |
| `Priority.ReachableInPriority` | exchange/matcher/order_book.cpp:60-71 | over every run, each side is strictly ordered by price and then by the number of the request that last rested, grew or re-priced the order |
| `Priority.PriceTimePriority` | exchange/matcher/order_book.cpp:116-183 | over every run, each execution comes after the complete fill, in the same sweep, of every eligible order that outranks its resting order by price and then arrival number, and those have left the book |
| `Priority.ClockIrrelevant` | exchange/matcher/order_book.cpp:203-204 | the clock readings influence neither responses nor updates nor the book apart from the stored stamp |
| `Conservation.QuantityConserved` | exchange/matcher/order_book.cpp:127-145 | over every run accepted quantity plus net modifies = twice traded + cancelled updates + cancelled remainders + resting |
| `Conservation.StepBalance` | exchange/matcher/order_book.cpp:190-311 | the same balance for one request from any well-formed book |
| `Answers.RefusedWhen` | exchange/matcher/matching_core.h:140-179 | a request is answered REJECTED, then with its own client, id, side, price and size, alone and without effect, if and only if its type is invalid, its size or price is out of range for its type, or it is a new order under a resting id; a cancel never is |
| `Answers.LimitAnswered` | exchange/matcher/order_book.cpp:190-206 | a fresh limit order: every field of every response and update, who survives opposite, and the rested remainder with its original size, by a plain allocation over the opposite side |
| `Answers.IocAnswered` | exchange/matcher/order_book.cpp:225-240 | the same for an IOC, whose remainder is reported cancelled with what was executed and what was not |
| `Answers.MarketAnswered` | exchange/matcher/order_book.cpp:208-223 | the same for a market order, at any price |
| `Answers.MarketFills` | exchange/matcher/order_book.cpp:208-223 | a market order trades exactly the lesser of its size and what other clients' orders opposite hold at whatever price, and clears them if they hold less |
| `Answers.CancelAnswered` | exchange/matcher/order_book.cpp:242-260 | CANCELED, with the order's side and price, if and only if an order with that id and client rests; it is then gone and all others stay in place; otherwise CANCEL_REJECTED and no change |
| `Answers.ModifyAnsweredWhen` | exchange/matcher/order_book.cpp:262-274 | MODIFIED first if and only if an order with that id and client rests; otherwise MODIFY_REJECTED and no change |
| `Answers.ModifyAnswered` | exchange/matcher/order_book.cpp:276-311 | the whole outcome of all four accepted branches: nothing to do, shrink in place, grow to the back, re-price |
| `Answers.ExecutionReported` | exchange/matcher/order_book.cpp:126-145 | the j-th execution is with an order that rested opposite before the request, and both responses and both updates carry that order's own price, id, side and client |
| `Equivalence.IocIsLimitThenCancel` | exchange/matcher/order_book.cpp:225-260 | an IOC leaves the book of limit-then-cancel, if and only if the client does not already own that id |
| `Equivalence.LimitThenCancelRestores` | exchange/matcher/order_book.cpp:190-206 | limit then cancel restores the book exactly, if and only if nothing traded, that is, if and only if no order opposite is another client's within the price |
| `Equivalence.NothingTradedWhen` | exchange/matcher/order_book.cpp:116-150 | a sweep trades with nobody if and only if no order opposite is eligible |
| `Equivalence.ModifyIsCancelThenLimit` | exchange/matcher/order_book.cpp:282-306 | a re-pricing or growing modify leaves the book of cancel-then-limit; growing needs no matcher because nothing crosses |
| `Equivalence.ShrinkKeepsPlace` | exchange/matcher/order_book.cpp:294-299 | shrinking differs from cancel-then-limit exactly when somebody queues behind at the same price |
| `Reports.LeavesReported` | exchange/matcher/order_book.cpp:126-132 | over every run the latest non-reject response about a resting order reports its remaining quantity |
| `Reports.FillsReportedInPairs` | exchange/matcher/order_book.cpp:126-132 | over every run fills come in adjacent taker/maker pairs: equal positive size, equal price within the announced limit, different clients, leaves decreasing by the size |
| `Reports.OnePartialFill` | exchange/matcher/order_book.cpp:124-148 | only the last execution of a sweep can leave its resting order with quantity |
| `Reports.BurstBound` | exchange/matcher/order_book.cpp:190-240 | a request filling k orders emits at most 2k+2 responses and 2k+1 updates, and k is at most the number of opposite orders |
| `Mirror.SweepMirrored` | exchange/market_data/book_snapshot_service.h:98-120 | the updates of a sweep turn a copy of the swept side into a copy of what is left |
| `Mirror.StepCarries` | exchange/market_data/book_snapshot_service.h:98-120 | the updates of one request carry the copy along, with exactly the re-pricing exception |
| `Mirror.MirrorAgrees` | exchange/market_data/book_snapshot_service.h:98-120 | after every run the replayed mirror is exactly the live orders (side, price, qty) plus the phantoms |
| `Mirror.PhantomsExplained` | exchange/matcher/order_book.cpp:282-293 | an id is a phantom if and only if some re-pricing filled it completely and it has not rested since |
| `Mirror.RepricingFillsWhen` | exchange/matcher/order_book.cpp:282-293 | a re-pricing fills completely if and only if the other clients' orders within the new price hold at least its quantity |
| `Mirror.ExactIff` | exchange/market_data/book_snapshot_service.h:94-120 | the mirror is an exact copy if and only if no such id exists |
| `Mirror.ExactWithoutRepricing` | exchange/market_data/book_snapshot_service.h:94-120 | runs without a completely filled re-pricing are mirrored exactly |
| `Mirror.PhantomExample` | exchange/matcher/order_book.cpp:282-293 | three requests after which the book is empty and the mirror is not |
| `Mirror.BookSnapshotService.ApplyUpdate` | exchange/market_data/book_snapshot_service.h:98-120 | applies one update to its symbol's copy and to no other, entry by entry: ADD sets it, MODIFY changes the size of a known one only, CANCEL drops it, TRADE does nothing |
| `Mirror.BookSnapshotService.SnapshotFor` | exchange/market_data/book_snapshot_service.h:56-67 | returns every entry of the symbol exactly once, nothing for an unknown symbol |
| `MemPool.MemPool.constructor` | Common/memory_pool.h:13-16 | all blocks free, cursor on a free block |
| `MemPool.MemPool.Allocate` | Common/memory_pool.h:20-28 | takes the block under the cursor; aborts exactly when that was the last free one; otherwise the cursor rests on the first free block after it |
| `MemPool.MemPool.UpdateNextFreeIndex` | Common/memory_pool.h:48-59 | the cyclic search ends at the first free block, or reports that there is none |
| `MemPool.MemPool.Deallocate` | Common/memory_pool.h:32-37 | frees a live block; aborts exactly on foreign and already free blocks |
| `MemPool.SpareBlock` | Common/memory_pool.h:20-59 | with the cursor on a free block, another one exists if and only if fewer than n - 1 blocks are live |
| `Links.RemovedSideOK` | exchange/matcher/order_book.cpp:74-104 | unlinking keeps every list, level, count and map entry of a side right |
| `Links.InsertedSideOK` | exchange/matcher/order_book.cpp:42-69 | appending at the tail of an old or new level does too |
| `LinkedBook.RemovedOK` | exchange/matcher/order_book.cpp:74-108 | removal keeps both sides, the index bijection and the exact ownership of live blocks |
| `LinkedBook.InsertedOK` | exchange/matcher/order_book.cpp:36-72 | resting keeps them |
| `LinkedBook.ResizedOK` | exchange/matcher/order_book.cpp:294-299 | changing quantities in place keeps them |
| `LinkedBook.LiveOrderCount` | exchange/matcher/order_book.cpp:39-57 | as many live order blocks as resting orders |
| `LinkedBook.LiveLevelCount` | exchange/matcher/order_book.cpp:39-57 | one live level block per occupied price and side |
| `LinkedBook.RoomCounts` | exchange/matcher/order_book.h:16-20 | a pool can take an order exactly while orders and levels stay below the pool sizes |
| `Walk.LevelSpellsOrders` | exchange/matcher/book_order.h:50-61 | a level's list is acyclic and, followed from head or from tail, is exactly the orders at its price, oldest first; the count is its length |
| `Walk.OneReading` | exchange/matcher/order_book.h:71-80 | maps, lists and pools stand for one list of orders only |
| `Walk.ContentsSpelled` | exchange/matcher/order_book.h:71-80 | the contents used in the book's contracts are what its fields spell out |
| `OrderBook.SymbolOrderBook.constructor` | exchange/matcher/order_book.cpp:6-10 | an empty book with pools of the configured sizes |
| `OrderBook.SymbolOrderBook.Unlink` | exchange/matcher/order_book.cpp:78-104 | the relinking of neighbours, level ends and count, and the fate of an emptied level |
| `OrderBook.SymbolOrderBook.RemoveOrder` | exchange/matcher/order_book.cpp:74-108 | removes exactly that order; neither the defensive returns nor the pool checks are ever taken |
| `OrderBook.SymbolOrderBook.OpenLevel` | exchange/matcher/order_book.cpp:42-58 | finds or creates the level, aborting exactly when a new one is needed and the pool is exhausted |
| `OrderBook.SymbolOrderBook.LinkAtTail` | exchange/matcher/order_book.cpp:60-69 | appends the order behind the level's tail |
| `OrderBook.SymbolOrderBook.RestOrder` | exchange/matcher/order_book.cpp:36-72 | the order goes behind every order priced at least as well; aborts exactly when a pool is exhausted |
| `OrderBook.SymbolOrderBook.FillOrder` | exchange/matcher/order_book.cpp:126-146 | one execution: both quantities, removal when used up, and its four events |
| `OrderBook.SymbolOrderBook.VisitOrder` | exchange/matcher/order_book.cpp:125-147 | one turn of the inner loop: trade or pass over, and the saved next pointer is still right after a removal |
| `OrderBook.SymbolOrderBook.SweepLevel` | exchange/matcher/order_book.cpp:122-148 | the inner loop terminates and has swept the whole level |
| `OrderBook.NextLevel` | exchange/matcher/order_book.cpp:149-149 | the best key beyond a price, or none: what `begin` and `upper_bound` return |
| `OrderBook.SymbolOrderBook.MatchIncoming` | exchange/matcher/order_book.cpp:114-184 | the nested loops over maps and lists they delete from equal the flat matching: contents, leaves, responses, updates |
| `OrderBook.SymbolOrderBook.MatchThenRest` | exchange/matcher/order_book.cpp:199-205 | match, then rest and announce the remainder |
| `OrderBook.SymbolOrderBook.AddLimitOrder` | exchange/matcher/order_book.cpp:190-206 | equals the flat limit order, duplicates refused |
| `OrderBook.SymbolOrderBook.AddMarketOrder` | exchange/matcher/order_book.cpp:208-223 | equals the flat market order; the remainder is cancelled, never rests |
| `OrderBook.SymbolOrderBook.AddIOCOrder` | exchange/matcher/order_book.cpp:225-240 | equals the flat IOC order |
| `OrderBook.SymbolOrderBook.CancelOrder` | exchange/matcher/order_book.cpp:242-260 | equals the flat cancel, unknown and foreign orders refused |
| `OrderBook.SymbolOrderBook.ModifyOrder` | exchange/matcher/order_book.cpp:262-311 | equals the flat modify on all paths |
| `OrderBook.SymbolOrderBook.Reprice` | exchange/matcher/order_book.cpp:282-293 | remove, announce, match at the new price, rest the remainder |
| `OrderBook.SymbolOrderBook.ShrinkInPlace` | exchange/matcher/order_book.cpp:294-299 | smaller size, same place, always possible |
| `OrderBook.SymbolOrderBook.GrowToBack` | exchange/matcher/order_book.cpp:300-306 | larger size, back of the level |
| `OrderBook.SymbolOrderBook.ProcessRequest` | exchange/matcher/matching_core.h:140-179 | validation and dispatch equal the flat step; aborts exactly when the resulting book does not fit the pools |
| `RingQueue.Fifo` | Common/lock_free_queue.h:13-38 | for every interleaving with a writer that starts only while count < capacity: what is read is a prefix of what was written, unread values are intact, the non-empty assertion cannot fire |
| `RingQueue.HeldSlotStable` | Common/lock_free_queue.h:26-34 | a slot being read is not overwritten before it is released |
| `RingQueue.OverflowOverwrites` | Common/lock_free_queue.h:17-24 | there is no full check: a write harms an unread value if and only if every slot holds one, wherever the reader is; the count covers a value until its release is complete |
| `RingQueue.BurstSafe` | Common/lock_free_queue.h:17-24 | a writer that never looks at the count is safe for as many writes as there were free slots |
| `RingQueue.LFQueue.Write` | Common/lock_free_queue.h:17-19 | is the fill-slot step |
| `RingQueue.LFQueue.UpdateWriteIndex` | Common/lock_free_queue.h:21-24 | is the advance and increment steps |
| `RingQueue.LFQueue.GetNextToRead` | Common/lock_free_queue.h:26-28 | is the test step and yields the oldest unread value, or nothing when the count is zero |
| `RingQueue.LFQueue.UpdateReadIndex` | Common/lock_free_queue.h:30-34 | is the release and decrement steps, and the assertion holds |
| `Sequencer.OrderDetermined` | exchange/order_server/request_sequencer.h:50-65 | the flushed order is a function of the set of buffered requests if and only if receive times separate them |
| `Sequencer.SortSequences` | exchange/order_server/request_sequencer.h:55-58 | a sorted permutation of the buffer exists and is computed |
| `Sequencer.RequestSequencer.Enqueue` | exchange/order_server/request_sequencer.h:34-41 | buffers the request tagged with its receive time; a full buffer is flushed first and nothing is dropped |
| `Sequencer.RequestSequencer.Flush` | exchange/order_server/request_sequencer.h:50-65 | routes a receive-time-sorted permutation of the buffer and empties it |
| `Gateway.GatewaySafe` | exchange/order_server/order_server.h:48-107 | for every interleaving of submits with the loop: each request is in exactly one place, the buffer never overflows, the routed stream is a sequence of sorted flushes |
| `Gateway.SortedAcrossFlushes` | exchange/order_server/request_sequencer.h:50-65 | the whole stream is sorted if and only if each flush is and none reaches back before an earlier one |
| `Schedules.SortedPushesRouteSorted` | exchange/order_server/order_server.h:68-107 | requests that enter the inbox in receive-time order are routed in that order, wherever drains and flushes of a full buffer cut the stream |
| `Schedules.RoutesInOrderWhen` | exchange/order_server/order_server.h:48-107 | every schedule with a given order of pushes routes in receive-time order if and only if that order is sorted |
| `Schedules.OvertakenInFlight` | exchange/order_server/order_server.h:48-52 | any two requests can be routed against their receive times, with a clock that never goes back |
| `Schedules.AnyOrder` | exchange/order_server/order_server.h:48-52 | with such a clock, requests can still be routed in every order whatsoever |
| `Schedules.RoutesExactly` | exchange/order_server/order_server.h:48-107 | when pushes follow the clock readings, drained runs route the sorted arrangements of what was submitted, all of them and no others |
| `Schedules.StreamDetermined` | exchange/order_server/request_sequencer.h:50-65 | over those runs what a symbol is sent is a function of the submitted requests if and only if receive times separate its requests |
| `Routing.SymbolOrderDetermined` | exchange/order_server/request_sequencer.h:50-65 | what one symbol sees of a flush is a function of the set of buffered requests if and only if receive times separate that symbol's requests; ties across symbols are harmless |
| `Routing.SameFlushesSameStream` | exchange/matcher/matching_core.h:63-72 | flushes of the same requests give a symbol the same routed stream |
| `OrderServer.OrderGatewayServer.Submit` | exchange/order_server/order_server.h:48-52 | is a stamp and a push |
| `OrderServer.OrderGatewayServer.DrainInbox` | exchange/order_server/order_server.h:95-107 | empties the inbox by gateway steps, flushing whenever the buffer is full |
| `OrderServer.OrderGatewayServer.RunOnce` | exchange/order_server/order_server.h:68-78 | one turn is a run of gateway steps after which everything pushed has been routed, nothing lost or duplicated |
| `MatchingCore.SymbolContext.RunOnce` | exchange/matcher/matching_core.h:127-136 | one turn processes the oldest unread request; ring, linked book and both streams stay equal to the flat run over the requests read |
| `MatchingCore.Router.RouteRequest` | exchange/matcher/matching_core.h:63-72 | writes to the symbol's ring, full or not, or for an unknown symbol a REJECTED response to the ring of its own; with a free slot the symbol's state stays consistent and the request is last in line |
| `MatchingCore.ForwardAll` | exchange/market_data/market_data_feed.h:57-73 | one pass over all symbols moves everything waiting in every update ring to the snapshot ring, each symbol's updates in order, full or not; with enough free slots nothing is lost |
| `MatchingCore.Forward` | exchange/market_data/market_data_feed.h:61-70 | the inner loop does so for one update ring |
| `OrderBook.SymbolOrderBook.SendResponse` | exchange/matcher/order_book.cpp:18-22 | appends one response and touches nothing else |
| `OrderBook.SymbolOrderBook.SendBookUpdate` | exchange/matcher/order_book.cpp:24-30 | appends one update and touches nothing else |
| `MatchingCore.ResponsesFit` | exchange/matcher/order_book.cpp:18-22 | with m opposite orders 2m+2 free slots suffice: for every interleaving with the reader no unread response is overwritten during the request |
| `MatchingCore.UpdatesFit` | exchange/matcher/order_book.cpp:24-30 | likewise 2m+1 for updates |
| `Pipeline.SymbolIsSequential` | exchange/matcher/matching_core.h:127-179 | for every interleaving, each symbol's book, responses and updates are those of processing a prefix of its routed requests one by one; the rest is queued |
| `Pipeline.SchedulingIrrelevant` | exchange/matcher/matching_core.h:63-72 | two systems that routed the same requests to a symbol and processed them agree on everything it emitted |
| `RingPipeline.StepSimulates` | exchange/matcher/matching_core.h:63-136 | each atomic step of gateway and matching threads on the request rings is a step of the exchange with plain queues, or none |
| `RingPipeline.RingsAreQueues` | exchange/matcher/matching_core.h:63-136 | for every interleaving in which a request is routed while its ring has a free slot, the exchange with rings is in a state the exchange with plain queues reaches |
| `RingPipeline.RingSymbolIsSequential` | exchange/matcher/matching_core.h:127-179 | through the rings, each symbol's book, responses and updates are those of processing, one by one, a prefix of what was routed to it |
| `Pipeline.Deterministic` | exchange/matcher/matching_core.h:63-72 | even with pushes out of order, systems whose flushes hold the same requests, without ties within a symbol, give that symbol the same responses, updates and book |
| `Determinism.ReplayDetermined` | README.md:152-156 | over all runs whose pushes follow the clock readings and that route the same submitted requests, an idle symbol whose requests receive times separate has the same responses, updates and book |
| `Determinism.ReplayDeterminedWhen` | README.md:152-156 | the requests an idle symbol has processed are a function of the submitted ones, over those runs, if and only if receive times separate that symbol's requests |
| `Determinism.ReplayDiffers` | exchange/order_server/order_server.h:48-52 | otherwise the promise fails: for any crossing bid and offer with different receive times, two runs with just these trade at different prices |
| `Pipeline.MirrorCatchesUp` | exchange/market_data/market_data_feed.h:57-73 | once a symbol's updates have reached the mirror it agrees with the live book up to the phantoms, whatever other symbols did |
| `Pipeline.NothingLostEndToEnd` | exchange/order_server/order_server.h:48-107 | every submitted request is in flight, queued, processed or refused |

## Left out

- Logging, `toString` methods, enum names, CSV reading, benchmarks: text and I/O only.
- Thread start and stop, CPU pinning, sleeps, the snapshot timer and `publishSnapshot`: operating system plumbing and logging.
- Response delivery to client callbacks (`drainResponses`) and feed subscribers: the values they hand on are those in the response and update streams.
- exchange/market_data/order_book.cpp: a copy that is not built and does not match the current header.
- Progress of the polling loops: it depends on the scheduler; what is proved is safety over all interleavings.
- Pipeline.SymbolIsSequential: its queues are unbounded sequences; `RingPipeline.RingSymbolIsSequential` states it for the request rings, given a free slot at each routing, which the code never checks and `RingQueue.OverflowOverwrites` shows to be necessary.
- RingPipeline.RingsAreQueues: response, update and snapshot rings stay sequences there; `MatchingCore.ResponsesFit` and `MatchingCore.UpdatesFit` say how much space makes them so.
- MatchingCore.ForwardAll: no writer is active during the pass; the interleaving with writers is the `Feed` step of the pipeline.
- Sequencer.RequestSequencer.Flush: the library sort is represented by an insertion sort, and callers may rely only on a sorted permutation.
- OrderBook.NextLevel: the balanced tree behind `std::map` is represented by a search for the best key, so its logarithmic cost is not modelled; neither is the hash table behind the id index.
- Raw pointers and placement new in the pool: blocks are indices, and an object and its block are the same thing.
