# FlowManager: a verified model

This Dafny project models the trading core of FlowManager and proves what it relies on.

- **The limit order book** (`order_book/src/order_book.cpp`). `OrderBook.dfy` keeps the C++ state: two maps from
  price to a list of orders, an index from id to order and list node, and orders whose remaining quantity is decreased
  in place. A list iterator is the identity of a list node. `Matching.dfy` is the same engine on flattened sides
  (insert, match the two best orders while they cross, remove a Fill-And-Kill remainder); the class is proved to compute
  exactly that. `Greedy.dfy` is the reference: the incoming order walks the other side. `Walking.dfy`, `Reachable.dfy`,
  `Priority.dfy`, `Snapshots.dfy` and `TwoRuns.dfy` hold the laws of single operations, of runs, and of pairs of runs.
- **The server and the broker in front of it** (`order_book/src/order_book_server.cpp`,
  `position_manager/app/brokers/cpp_ob_broker.py`). `Server.dfy` and `Broker.dfy` are the objects, `BrokerModel.dfy` the
  functions they are proved against. `AnswerLaws.dfy` says what each request is answered, in terms of the request and of
  the book before it, and what the broker makes of the answer. `FillLaws.dfy` and `MirrorLaws.dfy` hold the agreement of the broker with the book,
  `EdgeLaws.dfy` the exact set of calls that keep it, `ReuseLaws.dfy` and `TraceLaws.dfy` what using a client id again
  does to the id maps and to what clients are told, `StoryLaws.dfy` what is told of each broker id, which is never used
  again.
- **The position manager over the simulated broker** (`position_manager/app/position_manager.py`,
  `position_manager/app/brokers/simulated_broker.py`). `PositionManager.dfy` holds the objects, `PositionModel.dfy` the
  functions, `PositionLaws.dfy` the reconciliation laws. `Interleaving.dfy` is a step system in which the manager's loop
  and one thread per order interleave at every shared access; its steps use the functions of `PositionModel.dfy`, and
  `LoopLaws.dfy` shows that a round of the loop which nothing interrupts does what the manager object does in one call.

How the proofs fit together: a method's contract equates the new abstract state with a function of the old one, and the
lemmas below are about those functions. `Inv` (sorted sides, unique ids, best bid below best ask, only unfilled
Good-Till-Cancel orders rest) is kept by every operation, so the laws that require it hold in every reachable book.

Conventions and facts about the source:

- Prices and quantities are naturals below 2^32. Matching never overflows; only `GetOrderInfos` adds, and it adds
  modulo 2^32.
- Nothing in the book rejects quantity 0. `MatchOrders` and `AddOrder` are modelled and proved for it too;
  `Priority.ZeroQuantityBreaks` says exactly when such an order breaks the invariant, `EdgeLaws.ZeroExactly` when it
  puts broker and book out of step; the laws of runs of the book alone ask for positive quantities.
- The repository's README describes a multi-threaded engine with callbacks for several symbols. The code is one
  sequential server with one book that ignores `symbol` (order_book/src/order_book_server.cpp:106-113); the model
  follows the code.
- order_book/src/order_book_server.cpp:118 assigns a variable declared only at line 139. The model takes the evident
  intent: an ERROR response.
- position_manager/app/brokers/cpp_ob_broker.py:226 takes a non-reentrant lock that line 197 already holds. The model
  treats each block under a lock as one atomic section.
- `PositionManager` submits without a price, which `CppOrderBookBroker` always rejects. The broker is therefore driven
  by an arbitrary client, the manager by the simulated broker.
- Each side of a trade carries its own limit price; there is no single execution price.
- position_manager/app/brokers/broker_interface.py:37 asks for unique client ids. The code does not check it, and its
  promises depend on it differently. Mirror agreement, the zero sum of all fills and what is told of each broker id hold
  however client ids are used again. The two id maps stay inverse exactly as long as a live id is used again only to
  finish both orders in the same call. In runs that reuse no live id, what is told under each client id is well-formed
  exactly as long as no id is used twice.
- The broker takes an empty client id for an unknown order (position_manager/app/brokers/cpp_ob_broker.py:161) and
  ignores fills of it. An order under the empty id may rest and be cancelled like any other; broker and book fall out of
  step exactly when a trade names one (`EdgeLaws.NamesExactly`, `EdgeLaws.UnnamedTrade`).

## Model

| member | source | states |
|---|---|---|
| OrderBooks.Order.Fill | order_book/src/order.cpp:18-25 | a fill beyond the remaining quantity throws and changes nothing; any other is subtracted |
| OrderBooks.PushIsInsert | order_book/src/order_book.cpp:100-110 | pushing at the back of the list of its price puts an order behind all orders priced at least as well and ahead of all worse ones |
| OrderBooks.EraseIsRemove | order_book/src/order_book.cpp:70-84 | erasing one list node, and its level when that empties it, removes exactly its order from the priority sequence |
| OrderBooks.PopAgrees | order_book/src/order_book.cpp:54-61 | dropping the front of a level with its index entry keeps levels and index in agreement, every stored location naming its very node |
| OrderBooks.OrderBook.MatchOrders | order_book/src/order_book.cpp:21-68 | on every consistent book, crossed or not, with empty levels or without and for any quantities, the nested loops end, compute the flat matching of both sides, keep the three structures consistent, lose no unfilled order, and make at least half as many and at most as many trades as orders leave |
| OrderBooks.OrderBook.CancelOrder | order_book/src/order_book.cpp:126-134 | returns whether the id rested, removes exactly that order and its index entry, and keeps the three structures consistent |
| OrderBooks.OrderBook.AddOrder | order_book/src/order_book.cpp:87-124 | for every order: null exactly for a duplicate id; trades, book and remaining quantity are those of the flat engine, and on a book with the invariant those of the greedy walk, with the invariant kept; the three structures stay consistent |
| OrderBooks.OrderBook.CanMatchIs | order_book/src/order_book.cpp:9-19 | the test on the two maps is the test on the best opposite order |
| OrderBooks.OrderBook.SizeIs | order_book/src/order_book.cpp:136-138 | the index has as many entries as orders rest on both sides together |
| OrderBooks.OrderBook.RemainingIs | order_book/src/order_book.hpp:20-27 | the order object an index entry names is the one whose quantity the book shows under that id |
| OrderBooks.OrderBook.GetOrderInfos | order_book/src/order_book.cpp:140-164 | each side lists exactly its occupied prices, strictly best first, each with the sum of remaining quantities modulo 2^32 |
| OrderBooks.OrderBook.LevelQuantity | order_book/src/order_book.cpp:145-151 | adding in 32 bits gives the true sum modulo 2^32 |
| Matching.MatchFlip | order_book/src/order_book.cpp:25-66 | the matching treats the two sides alike |
| Greedy.AddIsGreedy | order_book/src/order_book.cpp:87-124 | refinement: on every reachable book and for every order with a quantity, insert-match-remove gives the trades, the book and the rest of a walk over the opposite side in price-time order |
| Greedy.InsertMatchesAsWalk | order_book/src/order_book.cpp:100-112 | on an uncrossed book, inserting an order and matching everything is letting that order walk |
| Walking.WalkShape | order_book/src/order_book.cpp:38-62 | a walk empties a prefix of the crossing orders, one trade each, and fills at most one more in part |
| Greedy.InvInNumbers | order_book/src/order_book.cpp:21-68 | the invariant in numbers: bids never rise along their side, asks never fall, and every bid is strictly below every ask |
| Reachable.AddKeepsInv | order_book/src/order_book.cpp:87-124 | after adding any order with a quantity: best bid below best ask, sides sorted, ids unique, every resting order Good-Till-Cancel with 0 < remaining <= initial |
| Reachable.CancelKeepsInv | order_book/src/order_book.cpp:126-134 | cancelling any id keeps the same invariant |
| Reachable.RunKeepsInv | order_book/src/order_book.cpp:87-134 | the invariant holds after every run of additions and cancels |
| Reachable.AddMovesDepth | order_book/src/order_book.cpp:100-122 | at any set of prices, depth changes by exactly the traded quantity on the other side and by exactly the resting remainder on the own side |
| Reachable.AddVolume | order_book/src/order_book.cpp:25-66 | the traded volume is min(quantity, opposite quantity at crossing prices), the same on both sides |
| Reachable.AddAccount | order_book/src/order_book.cpp:42-62 | every other order loses exactly what the trades name it for; the new order is split into traded and left |
| Reachable.RunConserves | order_book/src/order_book.cpp:42-62 | over every run and on each side, accepted quantity is resting plus traded plus cancelled and killed, and both sides trade the same total |
| Reachable.OrderAccount | order_book/src/order_book.cpp:42-134 | over every run that does not reuse its id, an order's initial quantity is what is left of it plus the trades naming it plus what its cancel removed plus, for Fill-And-Kill, what was killed |
| Priority.AddFollowsPriority | order_book/src/order_book.cpp:25-66 | every trade pairs the incoming order with the next resting order at a crossing price, each once; all but the last are filled completely and the rest of the side is as before |
| Priority.AddReaches | order_book/src/order_book.cpp:25-66 | an order trades with exactly the crossing orders that have less than its quantity ahead of them |
| Priority.NonCrossingUntouched | order_book/src/order_book.cpp:25-66 | orders that do not cross keep quantity and place |
| Priority.TradesAreBounded | order_book/src/order_book.cpp:21-68 | on any two sides, trades <= orders that leave <= 2 * trades, so the reserved capacity is enough |
| Priority.ZeroQuantityBreaks | order_book/src/order_book.cpp:87-110 | an order of quantity 0 keeps the invariant if and only if it is refused, is Fill-And-Kill, or meets a crossing order |
| Priority.ZeroOnEmptyBook | order_book/src/order_book.cpp:87-112 | a failing input: quantity 0 added to the empty book |
| Snapshots.SnapshotIsUnique | order_book/src/order_book.cpp:140-164 | the depth at each price determines the snapshot |
| Snapshots.SplittingKeepsSnapshots | order_book/src/order_book.cpp:140-164 | an order and the same quantity sent in two give the same snapshots |
| TwoRuns.FillAndKillIsAddThenCancel | order_book/src/order_book.cpp:95-122 | a Fill-And-Kill order has the trades and the final book of the same order sent Good-Till-Cancel and then cancelled |
| TwoRuns.SplittingIsInvisible | order_book/src/order_book.cpp:21-68 | one order of q1 + q2 and two of q1, then q2, leave the same opposite side, fill every other order alike and leave the same depth |
| TwoRuns.NonInterference | order_book/src/order_book.cpp:9-134 | over whole runs: an order that rests, never trades, is named by nothing else and is cancelled leaves every other reply and the final book as in the run without it |
| Server.OrderBookServer.Expand | order_book/src/order_book_server.cpp:123-137 | two fills per trade, in order, the bid's first, each with the id, the limit price and the quantity of its own side |
| Server.OrderBookServer.HandleAdd | order_book/src/order_book_server.cpp:98-155 | the book of AddOrder; ERROR exactly for an id that rests already; the fills; FILLED, REJECTED_BY_BOOK or WORKING from what is left and the order type |
| Server.OrderBookServer.Handle | order_book/src/order_book_server.cpp:98-172 | each ADD_ORDER and CANCEL_ORDER request moves the book and is answered as the function Serving says |
| Server.OrderBookServer.Serve | order_book/src/order_book_server.cpp:32-210 | the command loop threads one book through any sequence of requests, and keeps the book's invariant when every quantity is positive |
| Server.ServingKeepsInv | order_book/src/order_book_server.cpp:98-172 | the book's invariant holds after serving any requests for positive quantities |
| Server.Refusals | order_book/src/order_book_server.cpp:115-172 | on any book: ADD_ORDER is answered ERROR exactly for an id that rests and CANCEL_ORDER refused exactly for one that does not; a refused request changes nothing |
| Server.FillsAt | order_book/src/order_book_server.cpp:123-137 | fill 2i is of the bid and fill 2i + 1 of the ask of trade i, each with the id, price and quantity of its own side |
| AnswerLaws.AddAnswer | order_book/src/order_book_server.cpp:98-155 | an accepted order is answered with pairs of fills, the bid first: the i-th pair is of the new order at its limit price and of the i-th order of the other side at that order's own price, for one quantity; FILLED exactly when its fills make up its quantity, else REJECTED_BY_BOOK for Fill-And-Kill and WORKING for the rest, which then alone rests |
| AnswerLaws.TwoPrices | order_book/src/order_book_server.cpp:123-137 | an example: a buy at 10 against a sale at 9 is reported at 10 to the buyer and at 9 to the seller |
| AnswerLaws.CancelAnswer | order_book/src/order_book_server.cpp:158-172 | a cancel takes exactly the named id out of the book and leaves every other order its quantity |
| AnswerLaws.RefusedSubmission | position_manager/app/brokers/cpp_ob_broker.py:103-142 | without a price, or under a broker id that rests already: exactly one REJECTED is sent, None is returned, the book stays, and the maps keep nothing of the order |
| AnswerLaws.AcceptedSubmission | position_manager/app/brokers/cpp_ob_broker.py:114-230 | any other submission reaches the book under the broker id that is returned, with the side, price, quantity and type asked for, and no REJECTED is sent |
| AnswerLaws.CancelAnswers | position_manager/app/brokers/cpp_ob_broker.py:233-275 | every case of a cancel: ignored for unknown, finished or already cancelled orders; back to WORKING when the book does not have it; else one CANCELLED with the order's price, and the maps forget it |
| FillLaws.FillsKeep | position_manager/app/brokers/cpp_ob_broker.py:151-191 | a response's fills, whatever client ids are shared, leave exactly the orders not filled up, each with its fills added; the signed total grows by the signed fills |
| MirrorLaws.AddSizes | order_book/src/order_book_server.cpp:123-137 | every fill of an ADD_ORDER response is of an order the broker tracks, on its side, none is overfilled, and the signed fills cancel out |
| MirrorLaws.AddNames | position_manager/app/brokers/cpp_ob_broker.py:161 | the condition checked before the call implies that no fill of the response is of an order under the empty client id |
| MirrorLaws.PricedSubmission | position_manager/app/brokers/cpp_ob_broker.py:103-230 | a submission under any client id, live, finished or new, none of whose trades names an order under the empty id, keeps mirror agreement and the zero sum |
| MirrorLaws.Cancellation | position_manager/app/brokers/cpp_ob_broker.py:233-275 | a cancel request keeps them too; it goes through exactly for client ids that lead to a tracked order, which alone leaves the book |
| EdgeLaws.EveryRunMirrors | position_manager/app/brokers/cpp_ob_broker.py:103-293 | over every run, whatever is called and however client ids are used again: tracked ids are the resting ids, side, price and open quantity agree with the book, and all signed fills sum to zero, all the time, if and only if every call meets the condition of CallExactly; then the book keeps its invariant and each client id in use leads to an order of its own |
| EdgeLaws.ZeroExactly | order_book/src/order_book.cpp:87-112 | a submission of quantity 0 keeps broker and book in step if and only if it is Fill-And-Kill or meets a crossing order |
| EdgeLaws.ZeroRests | order_book/src/order_book.cpp:100-112 | a failing input: quantity 0 sent to an empty book |
| EdgeLaws.NamesExactly | position_manager/app/brokers/cpp_ob_broker.py:161-187 | a submission with a quantity keeps broker and book in step if and only if it crosses nothing or is named itself, and every resting order that it reaches is named; all of it known before the call |
| EdgeLaws.ReachedUnnamed | position_manager/app/brokers/cpp_ob_broker.py:161-187 | a trade with a resting order under the empty id: the book takes it off, the broker keeps the old record |
| EdgeLaws.UnnamedUnbalances | position_manager/app/brokers/cpp_ob_broker.py:161-187 | an order under the empty id that trades with named ones: their fills are reported, its own are not, and the sum is not zero |
| EdgeLaws.UnnamedTrade | position_manager/app/brokers/cpp_ob_broker.py:161 | a failing run: a buy under the empty id rests in step and can be cancelled in step, but a sale that trades with it puts broker and book out of step |
| EdgeLaws.CallExactly | position_manager/app/brokers/cpp_ob_broker.py:103-275 | the exact condition, for any call at all: with it the whole invariant is kept, without it tracked and resting orders disagree or the fills no longer cancel out |
| EdgeLaws.ProperRunsAreHarmless | position_manager/app/brokers/cpp_ob_broker.py:103-293 | when priced submissions have a quantity and a non-empty client id, every call of every run meets the condition, however the ids are used again |
| ReuseLaws.WalkFinishes | order_book/src/order_book.cpp:38-62 | an incoming order finishes exactly the crossing orders that its quantity reaches the end of in priority order |
| ReuseLaws.LiveReuse | position_manager/app/brokers/cpp_ob_broker.py:119-122 | for a submission under a live client id, the id maps stay inverse bijections if and only if the earlier order rests on the other side within the limit, the quantity reaches its end, and the new order is Fill-And-Kill or fits the crossing quantity |
| ReuseLaws.BothFinishMeans | position_manager/app/brokers/cpp_ob_broker.py:194-228 | that condition, checkable before the call, holds exactly when neither of the two orders rests after it |
| ReuseLaws.CallLinks | position_manager/app/brokers/cpp_ob_broker.py:103-293 | for any call that keeps broker and book in step: the maps stay inverse if and only if it does not reuse a live id, or finishes both orders |
| ReuseLaws.EveryRunLinks | position_manager/app/brokers/cpp_ob_broker.py:103-293 | over every run, whatever is called: broker and book are in step and the id maps inverse all the time if and only if every single call meets both conditions |
| ReuseLaws.TwoBuysUnderOneId | position_manager/app/brokers/cpp_ob_broker.py:119-122 | a run that fails: after two buys under one id and a cancel, the first still rests and no client id leads to it |
| TraceLaws.FillKeepsTraces | position_manager/app/brokers/cpp_ob_broker.py:151-189 | one fill of a tracked order keeps every client order's confirmation trace well-formed |
| TraceLaws.CancellationTraces | position_manager/app/brokers/cpp_ob_broker.py:233-275 | a cancel request under any client id keeps every trace well-formed |
| TraceLaws.FreeIdTraces | position_manager/app/brokers/cpp_ob_broker.py:103-230 | a submission under an id that is not live keeps the traces well-formed if and only if the id was never used |
| TraceLaws.OneIdTwice | position_manager/app/brokers/cpp_ob_broker.py:103-112 | a failing run: two submissions under one id, both rejected |
| TraceLaws.EveryRunTraces | position_manager/app/brokers/cpp_ob_broker.py:103-293 | after every run that keeps broker and book in step and uses no client id twice: each client order was told partial fills and then at most one terminal status, FILLED exactly when the fills reach the quantity, always with the symbol, side and limit price asked for |
| TraceLaws.EveryRunTracesExactly | position_manager/app/brokers/cpp_ob_broker.py:103-293 | over every run that reuses no live id: the traces are well-formed all the time if and only if no id is used twice |
| StoryLaws.EveryStoryEndsOnce | position_manager/app/brokers/cpp_ob_broker.py:103-293 | on any book, in every run, whatever is called: the confirmations that carry one broker order id are partial fills and then at most one terminal status |
| StoryLaws.TrackedIsWorking | position_manager/app/brokers/cpp_ob_broker.py:145-259 | on any book, in every run, whatever is called: between two calls every tracked order is WORKING; acknowledged, partially filled, or after a refused cancel |
| StoryLaws.EveryRunStories | position_manager/app/brokers/cpp_ob_broker.py:103-293 | after every run that keeps broker and book in step, however client ids are used again: each order was told partial fills of its own terms (client id, symbol, side, limit price), adding up to its record while it is tracked, and then one terminal status, FILLED exactly when they reach its quantity |
| Brokers.CppOrderBookBroker.HandleFill | position_manager/app/brokers/cpp_ob_broker.py:152-191 | a fill moves the record, the maps and the callback as ProcessFill says; unknown orders are ignored |
| Brokers.CppOrderBookBroker.CleanupOrderMaps | position_manager/app/brokers/cpp_ob_broker.py:285-292 | the order leaves all three maps, nothing else does |
| Brokers.CppOrderBookBroker.SubmitOrder | position_manager/app/brokers/cpp_ob_broker.py:103-230 | broker and book together move as Submitting says; the next counter value is returned exactly for a priced order that the server acknowledges |
| Brokers.CppOrderBookBroker.CancelOrder | position_manager/app/brokers/cpp_ob_broker.py:233-275 | broker and book together move as Cancelling says; true exactly when a CANCELLED confirmation for this client order was sent |
| PositionLaws.ConfirmKeepsAgree | position_manager/app/position_manager.py:72-86 | a confirmation keeps live_orders and live_orders_by_symbol in exact agreement |
| PositionLaws.ConfirmMovesWorking | position_manager/app/position_manager.py:66-88 | a confirmation moves the working position of its own symbol only, by its fill less what it takes off the pending quantity |
| PositionLaws.ConfirmAllAddsUp | position_manager/app/position_manager.py:69-70 | draining adds the net quantity to the position and the gross quantity to the traded total |
| PositionLaws.OrdersFollowConfirmations | position_manager/app/position_manager.py:72-88 | draining any queue: an order is tracked until a confirmation of its id is terminal, its fills are the sum of its confirmations', and its status is that of the last of them |
| PositionLaws.LastUpdateWins | position_manager/app/position_manager.py:91-103 | draining target updates: the last one of each symbol is its target, and nothing but targets changes |
| PositionLaws.CancelsExactly | position_manager/app/position_manager.py:154-186 | exactly the opposing orders the broker still knows are flagged there and marked PENDING_CANCEL here |
| PositionLaws.CancelsTheOtherSide | position_manager/app/position_manager.py:154-186 | when the target is not reached: the symbol's orders that work away from it, are known to the broker and neither finished nor being cancelled become PENDING_CANCEL and are flagged; every other order, on the same side, of another symbol or unknown, stays as it was with manager and broker |
| PositionLaws.OrdersTheDifference | position_manager/app/position_manager.py:149-197 | one order of exactly the missing quantity, a buy when too little is held, is tracked as PENDING_NEW, listed last under its symbol and given to the broker; nothing when nothing is missing |
| PositionLaws.ReconcileReachesTarget | position_manager/app/position_manager.py:135-197 | reconciling a symbol makes its working position equal its target whatever cancels are accepted, and moves no other symbol and no position |
| PositionLaws.IterationOnTarget | position_manager/app/position_manager.py:205-218 | at the end of every iteration every symbol is on target |
| PositionLaws.FillsCauseNoOrders | position_manager/app/position_manager.py:122-150 | from an on-target state, a batch of non-overfilling fills, FILLED only on completion, makes reconciliation leave the manager's state and the broker's orders as they are: nothing is submitted, nothing cancelled |
| PositionLaws.EmptyTerminalShift | position_manager/app/position_manager.py:68-84 | a CANCELLED or REJECTED with no fill shifts the working position by exactly the unfilled rest |
| Interleaving.StepKeeps | position_manager/app/brokers/simulated_broker.py:38-146 | every atomic step of the manager and of any order thread keeps the invariant of the whole system |
| Interleaving.LedgerBalances | position_manager/app/brokers/simulated_broker.py:38-93 | in every interleaving: position + queued + in hand + unreported = all signed shares ever filled, per symbol |
| Interleaving.LiveOrderIsInOnePlace | position_manager/app/position_manager.py:55-89 | in every interleaving one thread carries each live order, the broker knows it exactly while that thread runs, and exactly when the thread is done there is a confirmation of it in the queue, just one |
| Interleaving.NoUnknownConfirmation | position_manager/app/position_manager.py:73-88 | the unknown-id branch is never taken; every queued confirmation has the terms of the tracked order, all that it filled and the price 100; FILLED only for the whole quantity, and always when no cancel was asked for |
| Interleaving.IterationEndsOnTarget | position_manager/app/position_manager.py:205-218 | whenever the loop comes round, every working position is on target, and with no live orders the position itself is |
| Interleaving.AskedIsReached | position_manager/app/position_manager.py:91-108 | in every interleaving the amount last asked for in a symbol is the last one queued or, when none is, its target; when the loop comes round it is then the working position, and with no live orders the position itself |
| Interleaving.RoundTakesEverything | position_manager/app/position_manager.py:205-218 | whatever interleaves: between two ends of the loop at least as many confirmations and target updates are taken as were queued at the first, so none waits for more than a round |
| Interleaving.ThreadsMoveByStep | position_manager/app/brokers/simulated_broker.py:38-67 | whatever step the system takes, an order before its report moves only by a step of its thread or a cancel |
| Interleaving.FillAdds | position_manager/app/brokers/simulated_broker.py:41-43 | any quantity from 1 to a tenth of the order can be drawn, or 1; a fill adds what was drawn, or what is left when that is less |
| Interleaving.FillsSlowly | position_manager/app/brokers/simulated_broker.py:41-47 | no step of the system fills more than a tenth of an order, or one share, and only a fill moves it |
| Interleaving.NewOrderStands | position_manager/app/brokers/simulated_broker.py:38-41 | over any run, a new order has filled nothing and stands where it was started until its thread tests the loop condition |
| Interleaving.CancelStopsFilling | position_manager/app/brokers/simulated_broker.py:41-47 | over any run, after a cancel at most the fill already begun happens |
| Interleaving.CancelIsTold | position_manager/app/brokers/simulated_broker.py:49-62 | over any run, a cancel that comes before the final status is decided is confirmed as CANCELLED |
| LoopLaws.UninterruptedRound | position_manager/app/position_manager.py:205-218 | the single steps of a round that nothing interrupts move manager and broker as one call of the manager object does: both queues drained, exactly the named symbols reconciled, each once |
| PositionManagers.SimulatedOrder.ExecuteOrderThread | position_manager/app/brokers/simulated_broker.py:38-62 | with a cancel arriving between any two steps or never: the thread goes through steps of Interleaving from its loop test to its report, none of which fills more than a tenth of the order or one share; it never overfills; FILLED is only said of a complete order and CANCELLED only of a cancelled one; an uncancelled order fills up and one cancelled before stops where it is |
| PositionManagers.SimulatedBroker.SubmitOrder | position_manager/app/brokers/simulated_broker.py:98-132 | a live client id is refused and a REJECTED confirmation scheduled; any other gets the next id, an unfilled order and a started thread |
| PositionManagers.SimulatedBroker.FireTimer | position_manager/app/brokers/simulated_broker.py:114 | a scheduled confirmation, any of them, goes to the manager |
| PositionManagers.SimulatedBroker.CancelOrder | position_manager/app/brokers/simulated_broker.py:134-146 | accepted exactly for known orders, whose flag is set |
| PositionManagers.SimulatedBroker.InternalTradeCallback | position_manager/app/brokers/simulated_broker.py:79-95 | the order leaves the broker and its confirmation joins the manager's queue |
| PositionManagers.PositionManager.ProcessTradeConfirmations | position_manager/app/position_manager.py:55-89 | empties the queue, folds every confirmation into the state in order, and returns exactly the symbols named |
| PositionManagers.PositionManager.UpdateTargetPosition | position_manager/app/position_manager.py:106-108 | the amount is queued last, so that draining makes it the symbol's target and leaves all others as they would have been |
| PositionManagers.PositionManager.ProcessTargetUpdates | position_manager/app/position_manager.py:91-103 | empties the queue, the last update of a symbol wins, and returns exactly the symbols named |
| PositionManagers.PositionManager.CalculateWorkingPosition | position_manager/app/position_manager.py:122-133 | the loop computes the position plus the signed pending quantity of the symbol's live orders |
| PositionManagers.PositionManager.ReconcileSymbol | position_manager/app/position_manager.py:141-197 | manager and broker together move as Reconcile and OrdersAfter say, under a new client id |
| PositionManagers.PositionManager.ReconcilePositions | position_manager/app/position_manager.py:135-197 | every symbol to check is reconciled once, with manager and broker moving together, and ends on target; every symbol on target stays there; the two views of the live orders agree |
| PositionManagers.PositionManager.RunIteration | position_manager/app/position_manager.py:205-218 | one iteration folds both queues into the state, reconciles exactly the symbols they named, each once, and takes a state with every symbol on target to one with every symbol on target |

## Left out

- ZeroMQ sockets, JSON, timeouts and reconnects: each request is assumed to get its one faithful answer.
- GET_BOOK_INFO and PING requests: the first only wraps GetOrderInfos.
- The FastAPI application, strategy replay, logging, sleeps and real time.
- uuid4 and the random generator: client ids are new strings, fill sizes any value the code can draw.
- The case of the order type string: the client passes the type that `order_type_str.upper() == "GTC"` selects.
- Order ids are unbounded naturals: wrap-around after 2^64 submissions is not modelled.
- Prices given as floats: the client passes the integer the broker would send.
- `OrderModify` and `ModifyOrder`: nothing calls them.
- `get_order_details` and the other read-only snapshots of the brokers and the manager.
- Quantities outside 32 bits at the broker: the client passes what the server can read.
- The status text of `SimulatedOrder`: only `get_order_details` reads it.
- The broker order id that `PositionManager` stores in its details, and the order type and price there: nothing reads them.
- `stop` of the simulated broker, which cancels all its orders; how long the timer of a duplicate-id rejection waits.
- Convergence: cancels and opposing orders can alternate without end, so only safety and "quiescent means on target" are stated.
- PositionManagers.PositionManager.RunIteration: states one iteration during which no order thread runs; what other
  threads do meanwhile is the subject of Interleaving, and LoopLaws connects the two.
- TraceLaws.EveryRunTracesExactly: says nothing of runs that use a live client id again, in which the confirmations of two
  orders mix under one id; StoryLaws speaks of those runs, order by order.
