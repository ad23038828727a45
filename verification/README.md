# Verified model of the hybrid exchange

A Dafny model of an exchange that matches orders off chain and settles trades on chain: the
price-time matching engine, the gateway's collateral ledger and order lifecycle, the database it
recovers from, the deposit and batch services, and the settlement contract. `dafny verify
dfyconfig.toml` checks everything.

## Layers

Code that changes state in place is a class; each method is proved against a function on values, and
the laws are proved about those functions and about runs of them.

| files | what is in them |
|---|---|
| `Types`, `Arithmetic` | orders, trades, deposits; 256-bit subtraction and multiplication as the code performs them, floor division by 1e18 |
| `PriorityBook` | one side of the book as a flat list in (price, id) order; the matching loop on it; best execution |
| `Levels`, `OrderBook` | maps of FIFO queues plus the location index, refining the flat lists |
| `MatchingEngine`, `EngineRuns` | `submit` and `cancel`; what every run of the engine keeps |
| `Ledger` | available and reserved balances, fills, snapshot and load, sums over users |
| `Persistence` | the tables and their transactions |
| `Gateway`, `AppState` | submitting and cancelling signed orders, as functions on the whole gateway state and as the class that does it in place |
| `GatewayInvariants`, `Solvency`, `GatewaySolvency`, `SubmitSafety` | book, maps, tables and ledger agree; collateral covers the book; rounding dust; exactly when a submission or a cancel is safe |
| `TradeLog`, `Exchange` | net effect and replay of a list of trades; the contract, its one-shot nonces and its batches |
| `Recovery`, `GatewayMain` | what a restart computes, and the start-up sequence that computes it |
| `Deposits`, `DepositLoss` | replay in chunks and the live subscription, statement by statement; exactly when every deposit is credited once |
| `Batch` | the settlement loop and its row updates |
| `System`, `Agreement`, `GuardedRuns` | everything as one state machine over all interleavings, crashes and late batches included, and the results over its runs |
| `StuckFunds` | upper bounds on reserves over runs |
| `Admission`, `Cancels`, `Vouching` | which submissions and cancels are accepted, told by their fields; cancelled orders never come back; whatever is traded was signed and taken in time |
| `BatchOrder`, `RepeatedKeys`, `Acceptance` | when the batch in flight is the next slice of the log; what becomes of orders filled by more than one trade; how often an order is accepted |
| `Examples` | short runs in which unguarded statements fail |

The state machine has one event per atomic section: submit, cancel, deposit on chain, credit, drain,
a broadcast batch reaching the contract, the acknowledgement or the failure of a submission, one
database statement of the row updates, a crash with restart, a nonce cancelled on chain, and the
deletion of a pending cancel that the contract has. A batch
that was ever broadcast may land at any later time, and more than once; a deposit may be credited in
any order, never, or more than once.

## Where the code does not meet the plain statement

The model keeps the code as it is. Each of these has a concrete failing run or input and the exact
condition under which the code does what is promised.

- A market buy reserves quantity times its own price but walks the book without looking at that price
  (`Examples.MarketBuyBelowTheAskWraps`). Its fills keep to the price if and only if enough rests within
  it (`PriorityBook.MarketKeepsToPriceIff`), and the ledger stands it if and only if the cost of the walk
  fits the budget (`SubmitSafety.MarketBuySafeIff`).
- An order reserves the token it names itself, and is settled in the configured pair
  (`Examples.ForeignTokenWraps`). `SubmitSafety.SubmitSafeIff` says, for every order the gateway accepts,
  exactly when the ledger stands it.
- The amount a cancel releases is fixed when the order comes to rest and fills do not reduce it
  (`Examples.CancelAfterPartialFillWraps`). A cancel is safe if and only if the excess is spare in the
  maker's reserve (`GatewaySolvency.CancelSafeIff`); there is none if and only if nothing was filled, or
  its value rounds away (`GatewaySolvency.CancelReleasesExactlyIff`).
- A cancel searches by nonce alone, and entries of filled orders stay. An entry of another maker
  (`Examples.ShadowedCancelIsRefused`) or of a filled order (`Examples.LeftoverEntryIsRefused`) may shadow
  a resting one. Exact condition: `Gateways.CancelSureIff`.
- A partly filled maker's row keeps the quantity it came to rest with, so a restart puts the filled part
  back on the book (`Examples.RestartAfterPartialFillIsUncovered`). The restart is safe if and only if the
  reserves cover the recorded quantities of the rows that are not stale (`Recovery.RestartSafeIff`), and
  brings back the same quantities under `Recovery.RestartIsExactIff`.
- A deposit's row and the cursor are two statements, and the cursor covers whole blocks. Stopped inside a
  block, the live loop loses the block's other deposits (`DepositLoss.SecondDepositOfABlockIsLost`);
  stopped between the two statements, it credits the deposit again
  (`DepositLoss.FirstDepositOfABlockCountsTwice`), and so does the replay (`DepositLoss.ChunkCountsTwice`).
  Exact conditions, for a stop after any statement: `DepositLoss.StoppedLiveExactIff`, by where the stop
  falls `DepositLoss.StopPositionExactIff`, and for the replay `DepositLoss.StoppedChunkExactIff`.
- The head is read before the subscription starts, and blocks in between are read by neither
  (`DepositLoss.LateSubscriptionMisses`). Exact condition: `DepositLoss.SubscribedExactIff`.
- An order that takes part in two trades repeats its nonce key (`Examples.AskFilledTwiceReverts`): the two
  trades neither settle together (`RepeatedKeys.TwoFillsRevert`) nor apart
  (`RepeatedKeys.SharedKeySettlesOnce`). A submission's trades share no key if and only if there is at most
  one (`RepeatedKeys.DisjointIffOneFill`).
- The gateway refuses an order whose hash it remembers; it never looks at the (maker, nonce) pair, and a
  restart remembers only what has not expired or rests. A filled order is taken again after such a restart
  (`Examples.FilledOrderIsTakenAgain`). What is remembered: `Recovery.RememberedIff`; between two
  acceptances of one order there is always a restart that forgot it
  (`Acceptance.AcceptedOnceBetweenRestarts`), later than the first acceptance plus the nonce expiry.
- A batch drained after a restart that came before the rows of settled trades were retired holds a settled
  trade and reverts for good (`BatchOrder.BatchWithSettledRowReverts`). The pending trades are the rest of
  the log if and only if those rows were retired (`BatchOrder.RestartIsSliceIff`).
- The repository's own README.md says that a restart loses all open orders; the code restores them, and
  the model follows the code.

## Model

| member | source | states |
|---|---|---|
| OrderBooks.OrderBook.Insert | crates/matching-engine/src/book.rs:30-42 | for any order, pushing to the back of its price queue inserts it into the flat (price, id) list at its place and records its location; with a fresh id queues and index go on agreeing |
| OrderBooks.OrderBook.Cancel | crates/matching-engine/src/book.rs:44-59 | succeeds exactly for indexed ids, deletes exactly that order from the flat list, keeps the order of the rest and drops the index entry |
| OrderBooks.OrderBook.TakeBestAsk | crates/matching-engine/src/book.rs:70-88 | takes the smaller of the two quantities from the first order of the flat list of asks; fails exactly when there is none; bids stay |
| OrderBooks.OrderBook.TakeBestBid | crates/matching-engine/src/book.rs:91-109 | the same for bids |
| OrderBooks.OrderBook.BestIsFirst | crates/matching-engine/src/book.rs:61-67 | the best bid and ask are the prices of the first orders of the flat lists, and absent exactly when these are empty |
| OrderBooks.OrderBook.TotalAskQty | crates/matching-engine/src/book.rs:112-118 | the sum over all levels is the sum over the flat list of asks |
| OrderBooks.OrderBook.TotalBidQty | crates/matching-engine/src/book.rs:121-127 | the same for bids, visited lowest price first |
| Levels.TotalOfFlatten | crates/matching-engine/src/book.rs:112-127 | levels add up to the flat list in whatever order they are visited |
| OrderBooks.OrderBook.RestingFacts | crates/matching-engine/src/book.rs:19-23 | both flat lists are in price order with distinct ids, and the index holds exactly the ids that rest, each on one side |
| OrderBooks.OrderBook.IndexedPlace | crates/matching-engine/src/book.rs:44-51 | an indexed order is found in the queue of its recorded side and price, so the searches inside cancel never fail |
| OrderBooks.OrderBook.OnlyIndexedPlace | crates/matching-engine/src/book.rs:30-42 | an order found in any queue is indexed with that very side and price |
| OrderBooks.InsertThenCancel | crates/matching-engine/src/book.rs:30-59 | inserting a fresh id and cancelling it restores the same queues and the same index |
| Levels.FlattenPushed | crates/matching-engine/src/book.rs:35-39 | pushing onto a level refines insertion into the flat list, whatever the levels |
| Levels.FlattenDropped | crates/matching-engine/src/book.rs:50-57 | removing from the middle of a queue, with the level if it empties, removes one element of the flat list |
| Levels.FlattenReduced | crates/matching-engine/src/book.rs:71-85 | reducing or popping the front of the best level refines taking from the head of the flat list |
| Levels.FlattenPriceSorted | crates/matching-engine/src/book.rs:19-23 | the queues one behind the other, best level first, are in price order |
| Levels.FlattenInjective | crates/matching-engine/src/book.rs:19-23 | equal flat lists come from equal level maps |
| PriorityBook.InsertSorted | crates/matching-engine/src/book.rs:30-42 | inserting an order with the highest id keeps strict (price, id) order |
| MatchingEngines.MatchingEngine.WalkAsks | crates/matching-engine/src/engine.rs:77-101 | the buy loop terminates and its fills, the asks left and the remainder are those of the loop on flat lists; the inner take never fails |
| MatchingEngines.MatchingEngine.WalkBids | crates/matching-engine/src/engine.rs:102-126 | the same for the sell loop |
| MatchingEngines.MatchingEngine.Submit | crates/matching-engine/src/engine.rs:40-140 | refines submission on flat lists: market pre-check, matching, resting remainder, next id; the index goes on agreeing when the next id does not rest yet |
| MatchingEngines.MatchingEngine.Cancel | crates/matching-engine/src/engine.rs:142-144 | answers whether the id rested and removes exactly it |
| MatchingEngines.MatchingEngine.HasOrder | crates/matching-engine/src/book.rs:156-158 | true exactly for ids resting on either side |
| MatchingEngines.MatchingEngine.RestoreOrder | crates/matching-engine/src/engine.rs:147-155 | puts an order back at its place under its old id, the next id unchanged; the index goes on agreeing when the id does not rest yet |
| Recovery.FreeIdIsFree | crates/gateway/src/main.rs:150-152 | the next id set at start-up is the first one above every id ever recorded |
| PriorityBook.MatchConsumesPrefix | crates/matching-engine/src/engine.rs:76-127 | the fills are a prefix of the opposite list, all but the last taken whole, and the list left is exactly the rest |
| PriorityBook.MatchFillsAll | crates/matching-engine/src/engine.rs:76-127 | exactly min(quantity, quantity resting at acceptable prices) is filled, and that much leaves the book |
| PriorityBook.MatchExhausts | crates/matching-engine/src/engine.rs:78-84 | when something remains, no order left on the opposite side is acceptable |
| PriorityBook.MakersInPriority | crates/matching-engine/src/engine.rs:76-127 | the makers of one order are in strict (price, id) order, so none appears twice |
| PriorityBook.GreedyIsOptimal | crates/matching-engine/src/engine.rs:76-127 | no other allocation of the filled quantity over the orders resting at the start is cheaper for a buyer or dearer for a seller |
| PriorityBook.GreedyBound | crates/matching-engine/src/engine.rs:76-127 | the exchange argument for it: any allocation of at least as much costs the greedy fills plus the excess at the best price, or more |
| PriorityBook.MarketKeepsToPriceIff | crates/matching-engine/src/engine.rs:82-84 | fills of a market order keep to a price exactly when the depth within that price covers the quantity |
| EngineRuns.SubmitKeepsSound | crates/matching-engine/src/engine.rs:40-140 | every submission keeps both sides sorted, live, distinct, below the next id, and uncrossed |
| EngineRuns.CancelKeepsSound | crates/matching-engine/src/engine.rs:142-144 | every cancel keeps them |
| EngineRuns.RunsAreSound | crates/matching-engine/src/engine.rs:40-144 | they hold in every state reached from the empty book |
| EngineRuns.NeverCrossed | crates/matching-engine/src/engine.rs:369-376 | in every run the best bid is below the best ask |
| EngineRuns.PriorityInEveryRun | crates/matching-engine/src/engine.rs:63-127 | after any run, the makers of one submission are in strict (price, id) order and all but the last are consumed whole |
| EngineRuns.LimitFilledExactly | crates/matching-engine/src/engine.rs:76-133 | a limit order fills min(quantity, depth within its limit) and rests with precisely the rest |
| EngineRuns.MarketAllOrNothing | crates/matching-engine/src/engine.rs:49-61 | a market order is filled completely with nothing resting, or leaves the engine as it was |
| EngineRuns.QuantityConserved | crates/matching-engine/src/engine.rs:73-139 | over every run and on each side, accepted quantity is filled plus resting plus cancelled |
| Ledgers.Ledger.FromBalances | crates/gateway/src/ledger.rs:83-98 | the load loop builds exactly the nested map of the rows, whatever their order |
| Ledgers.Ledger.Snapshot | crates/gateway/src/ledger.rs:100-108 | every entry appears once with its balance, and what is absent reads as zero |
| Ledgers.Ledger.Reserve | crates/gateway/src/ledger.rs:32-40 | succeeds exactly when enough is available and moves the amount; a refusal leaves an entry but no changed balance |
| Ledgers.Ledger.SettleFill | crates/gateway/src/ledger.rs:48-61 | the four updates in sequence, with wrapping subtractions |
| Ledgers.Ledger.Credit | crates/gateway/src/ledger.rs:28-30 | one available balance grows, every other balance stays |
| Ledgers.Ledger.Release | crates/gateway/src/ledger.rs:42-46 | moves the amount from reserved to available, with a wrapping subtraction |
| Ledgers.ReserveThenRelease | crates/gateway/src/ledger.rs:32-46 | releasing what was just reserved restores every balance |
| Ledgers.FillSettledExactly | crates/gateway/src/ledger.rs:48-61 | with the collateral in place nothing wraps, reserves drop by what is paid and holdings move by the trade, also when one user is on both sides |
| Ledgers.TradeDeltaSumsToZero | crates/gateway/src/ledger.rs:57-60 | a trade creates no tokens over any users that include its parties |
| Solvency.TakerSplit | crates/gateway/src/state.rs:152-176 | payment, surplus and collateral for the rest fit the collateral before the fill, with at most two units of dust |
| Solvency.FillKeepsUnderway | crates/gateway/src/state.rs:152-176 | one fill keeps both sides of the book covered and leaves the taker collateral for the rest |
| Solvency.MatchSettles | crates/gateway/src/state.rs:134-210 | over all fills of an order no subtraction wraps, both sides stay covered, holdings move by precisely the trades and each trade is backed by what its parties hold |
| Gateways.FillsFromBook | crates/gateway/src/state.rs:137-141 | every maker of a fill is in the order map, so the lookup never fails, and the fills plus the remainder are the quantity |
| Gateways.ReportedRemainders | crates/gateway/src/state.rs:186-192 | the remainder reported with each fill is the quantity minus all fills so far |
| AppStates.AppState.SubmitOrder | crates/gateway/src/state.rs:78-270 | engine, ledger, maps, trade log and database end exactly as specified, with every refusal in the code's order |
| Admission.AcceptedIff | crates/gateway/src/state.rs:83-124 | a submission is accepted if and only if it is signed by its maker, not past its expiry, its order without signature not taken before, its collateral available in the token it names, and, for a market order, priced, with a quantity the other side can fill completely |
| Admission.RefusedFor | crates/gateway/src/state.rs:83-124 | a refusal names the first of these that fails, in the code's order |
| Admission.TradesAndAnswer | crates/gateway/src/state.rs:134-192 | the i-th trade and report carry the signed order of the i-th order on the other side, its price, the taker's order and the time; all but the last take it whole |
| Admission.AnswerNamesOrder | crates/gateway/src/state.rs:126-233 | the answer's id is the new order's; a remainder rests, is in the order map and has a resting row under it |
| Admission.GoneAreFilled | crates/persistence/src/lib.rs:390-398 | after a submission a row that rested says filled exactly when its order left the book, else it is as it was |
| AppStates.AppState.ApplyFills | crates/gateway/src/state.rs:134-210 | the in-place loop over the fills computes the settled ledger, the trades and the reports |
| AppStates.AppState.SettleOne | crates/gateway/src/state.rs:152-176 | one turn of it: settle the fill and release the surplus when it is positive |
| AppStates.AppState.Execute | crates/gateway/src/state.rs:126-269 | everything recorded after matching, the taker's answer included |
| AppStates.AppState.FilledMakerIds | crates/gateway/src/state.rs:237-242 | the makers among the fills that no longer rest, in fill order |
| AppStates.AppState.Persist | crates/gateway/src/state.rs:235-267 | the transaction written and the row ids the pending trades get |
| AppStates.AppState.CancelOrder | crates/gateway/src/state.rs:272-306 | for whichever entry with that nonce the search finds, state and answer are as specified |
| AppStates.AppState.CancelFound | crates/gateway/src/state.rs:285-305 | the part after the search, each refusal leaving everything as it was |
| Cancels.CancelAnswers | crates/gateway/src/state.rs:277-292 | a cancel is accepted only for an entry of that nonce, by its maker, while it rests, and answers its id and maker; each refusal names what is missing and changes nothing |
| Cancels.CancelLeaves | crates/gateway/src/state.rs:289-305 | an accepted cancel takes the order off the book and out of both maps, marks its row cancelled, notes its maker and nonce for the chain, frees its collateral, and changes nothing else |
| Cancels.CancelledForGood | crates/persistence/src/lib.rs:499-528 | in every run a cancelled order never rests again, restarts included, and its maker and nonce wait to be cancelled on chain until they are |
| AppStates.AppState.DrainBatch | crates/gateway/src/state.rs:308-310 | hands out all pending trades and leaves none, all else unchanged |
| GatewayInvariants.FilledExactlyGone | crates/gateway/src/state.rs:237-242 | the makers marked filled are exactly the orders that left the book |
| GatewayInvariants.SubmitKeepsConsistent | crates/gateway/src/state.rs:78-270 | after every submission, accepted or refused, rows with status resting are the book, resting orders are in both maps with matching entries, and the tables hold the ledger |
| GatewayInvariants.CancelKeepsConsistent | crates/gateway/src/state.rs:272-306 | so after every cancel |
| GatewayInvariants.CreditKeepsConsistent | crates/gateway/src/deposit.rs:131-156 | so after every credited deposit |
| GatewaySolvency.SubmitKeepsHealthy | crates/gateway/src/state.rs:105-233 | a submission on the configured pair keeps every user's reserve at or above what that user's orders need; limit orders and market sells need no price guard |
| GatewaySolvency.RefusedChangesNothing | crates/gateway/src/state.rs:83-124 | a refused order, an unfillable market order included, changes no balance and no order on the book |
| GatewaySolvency.DustIsBounded | crates/gateway/src/state.rs:152-232 | for a limit buy with n fills, what stays in reserve beyond the recorded collateral lies between 0 and 2n |
| GatewaySolvency.CancelReleasesExactlyIff | crates/gateway/src/state.rs:218-232 | the recorded collateral is what the order still locks exactly when nothing was filled, or, for a bid, when the filled value added to the remainder modulo 1e18 of what is left stays below 1e18 |
| GatewaySolvency.CancelSafeIff | crates/gateway/src/state.rs:294-295 | a cancel wraps nothing and keeps everyone covered exactly when the excess it releases is spare in the maker's reserve |
| GatewaySolvency.CancelKeepsHealthy | crates/gateway/src/state.rs:289-303 | a safe cancel gives back exactly the recorded collateral, moves no holdings and keeps everyone covered |
| GatewaySolvency.UnfilledIsSpare | crates/gateway/src/state.rs:218-232 | an order unfilled since it rested can always be cancelled safely and gives back what it locks |
| Gateways.CancelSureIff | crates/gateway/src/state.rs:279-292 | a cancel succeeds whichever entry is found exactly when one has the nonce and all that do are the signer's and still rest |
| SubmitSafety.SubmitSafeIff | crates/gateway/src/state.rs:105-232 | for any accepted order, whatever its type, price and tokens: its maker's reserve drops by the cost of the fills without wrapping and everyone stays covered exactly when fills and resting collateral fit what it reserved of the settled token plus the maker's spare reserve there |
| SubmitSafety.MarketBuySafeIff | crates/gateway/src/state.rs:105-176 | for a market buy on the pair: exactly when its cost fits its collateral plus the maker's spare reserve |
| SubmitSafety.FundedMatch | crates/gateway/src/state.rs:134-176 | fills within a budget leave exactly the rest of it, whatever their prices and the side |
| Examples.MarketBuyBelowTheAskWraps | crates/matching-engine/src/engine.rs:82-84 | a run with ten units resting at price 2: a market buy of four at price 1 is accepted and its reserve of four wraps around on paying eight |
| Examples.CancelAfterPartialFillWraps | crates/gateway/src/state.rs:279-295 | a run that sells four of ten units and cancels: ten are released over a reserve of six, which wraps around |
| Examples.RestartAfterPartialFillIsUncovered | crates/persistence/src/lib.rs:390-398 | the same run with a restart instead: ten units rest over a reserve of six |
| Examples.AskFilledTwiceReverts | contracts/src/Exchange.sol:121-126 | a guarded run that sells from one ask twice: its two trades settle together in no state of the contract, at no time |
| Examples.ForeignTokenWraps | crates/gateway/src/state.rs:105-110 | a run in which a buy names another quote token: eight of that are reserved, eight of the configured one are taken, and the reserve wraps around |
| Examples.ShadowedCancelIsRefused | crates/gateway/src/state.rs:279-287 | a guarded run in which the owner of a resting order is refused because another maker's order has the same nonce |
| Examples.LeftoverEntryIsRefused | crates/gateway/src/state.rs:279-292 | the same because of the maker's own filled order |
| Examples.FilledOrderIsTakenAgain | crates/gateway/src/main.rs:103-113 | a filled order passes every check again after a restart past its nonce's expiry |
| Persistence.Db.SaveOrderFill | crates/persistence/src/lib.rs:338-438 | the five writes end in the specified tables, and the trades get the next keys |
| Persistence.OrderFillSavedIs | crates/persistence/src/lib.rs:354-388 | the order's hash has a row, an old one kept and a new one with the given expiry; the given balances are overwritten; cursor and pending cancels stay |
| Persistence.TradesInsertedIs | crates/persistence/src/lib.rs:362-373 | each trade has a pending row under its key, and no other row changes |
| Persistence.OrdersSavedIs | crates/persistence/src/lib.rs:390-421 | the remainder has a resting row, listed makers are filled, every other row stays |
| Persistence.Db.CancelOrder | crates/persistence/src/lib.rs:490-540 | status, balances and pending cancel in one transaction |
| Persistence.Db.MarkTrades | crates/persistence/src/lib.rs:242-265 | the loop changes the status of exactly the listed rows that exist |
| Persistence.Db.DeleteConfirmedTrades | crates/persistence/src/lib.rs:267-272 | the rows that stay are those not confirmed, each as it was |
| Persistence.Db.SaveBalance | crates/persistence/src/lib.rs:77-97 | one balance row is written, new or not |
| Persistence.Db.SetLastSyncedBlock | crates/persistence/src/lib.rs:63-73 | the cursor is overwritten |
| Persistence.Db.PruneExpiredNonces | crates/persistence/src/lib.rs:302-309 | the nonces that stay are those expiring at or after now, each with its expiry |
| Persistence.MaxOrderId | crates/persistence/src/lib.rs:188-201 | the greatest id among all rows, or none when there are none |
| Persistence.Ascending | crates/persistence/src/lib.rs:443-471 | the key order in which resting rows are read: each id once, strictly increasing |
| GatewayMain.Recover | crates/gateway/src/main.rs:80-211 | start-up over the real objects computes the specified restart; the orders that rest are those whose rows rest and whose expiry is not before now, and exactly the other resting rows become cancelled |
| GatewayMain.RestoreResting | crates/gateway/src/main.rs:167-210 | the loop over resting rows, in ascending id order |
| GatewayMain.RestoreRow | crates/gateway/src/main.rs:176-207 | one row: back on the book and in both maps if its expiry is not before now, else marked cancelled |
| GatewayMain.Load | crates/gateway/src/main.rs:83-157 | ledger, next id, pending trades and unexpired nonces as loaded |
| Recovery.RestartRebuildsBook | crates/gateway/src/main.rs:159-211 | the restored sides are the old sides in the same order, without stale orders and with the recorded quantities; the next id is above every recorded id |
| Recovery.RestsAfterRestartIff | crates/gateway/src/main.rs:176-185 | an order rests after a restart if and only if it rested before and its expiry is not before now; its row becomes cancelled if and only if it rested and its expiry is before now |
| Recovery.RestartKeepsByExpiry | crates/gateway/src/main.rs:104-211 | the same from any tables; expired nonce rows go, and nothing else in the tables changes |
| Recovery.RestartIsExactIff | crates/persistence/src/lib.rs:390-398 | a restart brings back exactly the orders that are not stale if and only if none of them was filled since it rested |
| Recovery.RememberedIff | crates/gateway/src/main.rs:104-113 | after a restart a hash is known if and only if its nonce row has not expired or a restored order has it |
| Recovery.SortedIsUnique | crates/gateway/src/main.rs:167-188 | a strictly sorted list is determined by its elements, whence price levels and FIFO order survive restoration by id |
| Recovery.RestartKeepsConsistent | crates/gateway/src/main.rs:146-211 | a restart keeps book, maps, tables and ledger in agreement, the book uncrossed, and every balance |
| Recovery.RestartSafeIff | crates/gateway/src/main.rs:167-207 | a restart leaves everyone covered exactly when each user's reserves cover the recorded quantities of that user's rows that are not stale |
| Recovery.RestartKeepsHealthy | crates/gateway/src/main.rs:146-211 | such a restart keeps everything guarded runs rely on, and every balance |
| Recovery.UnfilledRowsAreCovered | crates/persistence/src/lib.rs:390-398 | that is so when no resting order was partly filled |
| Exchanges.Exchange.SettleTrade | contracts/src/Exchange.sol:107-160 | the checks in order with the error of the first that fails, then nonces and balances |
| Exchanges.SettledTradeIff | contracts/src/Exchange.sol:115-154 | a trade settles if and only if both orders are signed by their makers and not past their expiry, neither (maker, nonce) is used, the price is at least each sell's and at most each buy's, the product fits, and seller and buyer hold the quantity and its quote value |
| Exchanges.RevertedFor | contracts/src/Exchange.sol:115-154 | a revert names the first check that fails |
| Exchanges.SettledTradeMoves | contracts/src/Exchange.sol:139-159 | between two users and two tokens quantity and quote value change hands, nothing else moves, and both (maker, nonce) pairs are used |
| Exchanges.SettledTradesKeepLimits | contracts/src/Exchange.sol:128-137 | over every run each settled trade was signed by both makers and keeps both limits |
| Exchanges.CancelledNeverSettles | contracts/src/Exchange.sol:72-76 | after a cancelled nonce no order of that maker with that nonce ever settles |
| Exchanges.Exchange.Transfer | contracts/src/Exchange.sol:153-159 | the two balance checks and the four updates in sequence |
| Exchanges.Exchange.SettleBatch | contracts/src/Exchange.sol:78-105 | operator only; all trades in order, or balances and nonces as before |
| Exchanges.Exchange.Deposit | contracts/src/Exchange.sol:59-63 | one balance grows by the amount |
| Exchanges.Exchange.CancelNonce | contracts/src/Exchange.sol:72-76 | one key becomes used, whoever asks |
| Exchanges.BatchEffect | contracts/src/Exchange.sol:96-102 | a settled batch moves every balance by the net of its trades |
| Exchanges.BatchConservesTokens | contracts/src/Exchange.sol:153-159 | a settled batch keeps each token's sum over users, with self-trades and equal tokens |
| Exchanges.SettledKeysAreFresh | contracts/src/Exchange.sol:121-126 | a batch that settles used only fresh keys, each in one trade, and marks exactly those |
| Exchanges.RepeatedKeyReverts | contracts/src/Exchange.sol:121-126 | a batch that repeats a key across trades reverts |
| Exchanges.NoncesAreOneShot | contracts/src/Exchange.sol:72-126 | over every run of deposits, withdrawals, cancelled nonces and batches a key is in at most one settled trade, and in none once used or cancelled |
| Exchanges.BackedBatchSettlesIff | contracts/src/Exchange.sol:107-160 | a backed batch of well-formed trades settles exactly when its keys are fresh and nothing expired, and never fails on balance or price |
| Deposits.DepositService.SyncHistorical | crates/gateway/src/deposit.rs:36-104 | the chunks partition cursor to head: each account gains exactly its deposits there, available, and the cursor ends at the head |
| Deposits.DepositService.SyncChunk | crates/gateway/src/deposit.rs:56-98 | one chunk credits its range, writes the balances and moves the cursor |
| Deposits.DepositService.CreditAll | crates/gateway/src/deposit.rs:63-69 | each account gains the sum of its deposits in the list |
| Deposits.DepositService.SaveAll | crates/gateway/src/deposit.rs:70-95 | the rows after any number of its statements: those of the accounts reached, with the balances of the whole chunk |
| Deposits.DepositService.CreditOne | crates/gateway/src/deposit.rs:131-153 | one live deposit credited and saved |
| Deposits.DepositService.Live | crates/gateway/src/deposit.rs:124-168 | memory and disk end where its statements, played one by one, lead: a row for each deposit above the boundary, the cursor for each new block |
| Deposits.DepositService.SyncAndSubscribe | crates/gateway/src/deposit.rs:106-168 | replay up to the head, then the live loop from the later of head and cursor |
| DepositLoss.LiveSaves | crates/gateway/src/deposit.rs:125-156 | the live loop saves the deposits above the boundary, each once, in stream order |
| Deposits.RangeSplits | crates/gateway/src/deposit.rs:54-101 | cutting a range of blocks loses and repeats nothing |
| Deposits.SyncTwice | crates/gateway/src/deposit.rs:36-46 | syncing to one head and then another is syncing to the higher one |
| DepositLoss.SubscribedGains | crates/gateway/src/deposit.rs:106-168 | wherever cursor and head are, each account gains its deposits from the first block on, less those between boundary and subscription |
| DepositLoss.SubscribedExactIff | crates/gateway/src/main.rs:237-246 | each deposit is credited exactly once if and only if no block between boundary and subscription holds an amount |
| DepositLoss.StoppedLive | crates/gateway/src/deposit.rs:142-156 | stopped after any statement and replayed to a new head, an account has what the chain holds, less what was missed and lost, plus what was credited again |
| DepositLoss.StoppedLiveExactIff | crates/gateway/src/deposit.rs:142-156 | that is exact if and only if, on every account, the deposits credited again add up to those missed and lost |
| DepositLoss.StoppedInOrderExactIff | crates/gateway/src/deposit.rs:142-156 | with logs in block order and a timely subscription, exact if and only if no amount is lost and none is credited again |
| DepositLoss.EveryStop | crates/gateway/src/deposit.rs:125-156 | every stop of the live loop falls between two events or between a row that opens a block and the cursor |
| DepositLoss.LossAt | crates/gateway/src/deposit.rs:142-156 | the first kind loses what is still to come of the block reached and repeats nothing; the second repeats that one deposit and loses nothing |
| DepositLoss.StopPositionExactIff | crates/gateway/src/deposit.rs:142-156 | so each is exact if and only if those deposits have no amount |
| DepositLoss.StoppedChunk | crates/gateway/src/deposit.rs:89-98 | stopped inside a chunk's statements, the accounts whose rows were written gain the chunk twice |
| DepositLoss.StoppedChunkExactIff | crates/gateway/src/deposit.rs:89-98 | that is exact if and only if the chunk brings no amount to an account whose row was written |
| DepositLoss.SecondDepositOfABlockIsLost | crates/gateway/src/deposit.rs:142-156 | deposits of 100 and 50 in one block, stopped after the cursor moved: the service ends with 100 |
| DepositLoss.FirstDepositOfABlockCountsTwice | crates/gateway/src/deposit.rs:152-154 | the same, stopped before the cursor moved: the service ends with 250 |
| DepositLoss.ChunkCountsTwice | crates/gateway/src/deposit.rs:92-95 | a replay stopped between the row of a deposit of 100 and the cursor: the service ends with 200 |
| DepositLoss.LateSubscriptionMisses | crates/gateway/src/main.rs:237-246 | the same, with the head read before the block and the subscription started after it: the service ends with nothing |
| BatchLoop.BatchRound | crates/gateway/src/batch.rs:11-42 | one round: on success the contract moved by the batch, no row of it is left and every other unconfirmed row stays as it was; on failure only the pending trades are gone from memory |
| BatchLoop.RoundIsRun | crates/gateway/src/batch.rs:11-58 | a round ends in the state that the drain, the landing, the answer and all row updates reach, so every law about reachable states covers it |
| BatchLoop.MarkTradesDone | crates/gateway/src/batch.rs:44-51 | the rows left are the old ones neither listed nor confirmed, each as it was |
| BatchLoop.StatementsAddUp | crates/gateway/src/batch.rs:44-51 | from any statement on, the remaining row updates end where the whole of them does |
| System.StepIsSafe | crates/gateway/src/batch.rs:11-58 | every step of every component, guarded or not, keeps rows, log, broadcasts and settled trades in step and gateway consistent |
| System.ReachedIsSafe | crates/gateway/src/batch.rs:11-58 | that holds in every reachable state, and there every maker lookup of a submission succeeds |
| System.ReachedSteps | crates/gateway/src/batch.rs:11-42 | reachable states are closed under every event, so any interleaving is covered |
| System.NoTradeForgotten | crates/persistence/src/lib.rs:217-272 | in every run each trade ever produced was settled or still has a pending or submitted row |
| System.NoTradeSettlesTwice | contracts/src/Exchange.sol:121-126 | in every run no trade is applied twice, however batches are resubmitted or delayed |
| Agreement.StepIsGood | crates/gateway/src/state.rs:152-167 | every guarded step keeps solvency, both accounts and the replayability of the log |
| Agreement.CreditedAtMostOnce | crates/gateway/src/deposit.rs:63-69 | deposits credited at most once add up to no more than was deposited, in whatever order they were credited |
| GuardedRuns.GuardedRunsAreGood | crates/gateway/src/state.rs:105-233 | so in every state of a guarded run |
| GuardedRuns.ReservesCoverTheBook | crates/gateway/src/state.rs:105-233 | in every guarded run each user's reserve covers that user's orders on the book |
| StuckFunds.StuckIsBounded | crates/gateway/src/state.rs:152-233 | in every state of a guarded run a user's reserve exceeds what that user's orders need by at most two units of quote for each trade plus the collateral that restarts dropped as stale |
| StuckFunds.MatchKeepsAtMost | crates/gateway/src/state.rs:134-176 | each fill leaves at most two units of quote in excess on either side, and no base at all |
| StuckFunds.RestartKeepsTight | crates/gateway/src/main.rs:176-185 | a restart adds at most the recorded collateral of the rows it drops |
| GuardedRuns.DiskAndBookAgree | crates/gateway/src/state.rs:235-267 | in every run, guarded or not, resting rows are the book, makers are known, the book is uncrossed and the tables hold the ledger |
| GuardedRuns.GatewayAndContractAgree | contracts/src/Exchange.sol:128-159 | in every guarded run, deposits credited in any order, never or again, the contract's balances with the unsettled trades applied are the ledger's plus what was deposited less what was credited |
| GuardedRuns.LogSettlesInOrder | contracts/src/Exchange.sol:107-160 | in every guarded run where no account was credited more than it deposited, the next trades of the log settle as one batch exactly when no order expired and no key is used or repeats |
| BatchOrder.InFlightIsNextSliceIff | crates/gateway/src/batch.rs:20-32 | from the start, and from every restart that finds its rows retired: the batch in flight is the next slice of the log if and only if all sent before it was applied in order |
| BatchOrder.RestartIsSliceIff | crates/persistence/src/lib.rs:217-240 | after a restart the pending trades are the rest of the log if and only if no row of a settled trade still waited |
| BatchOrder.BatchWithSettledRowReverts | contracts/src/Exchange.sol:121-126 | in every run a batch that holds a settled trade reverts and changes nothing |
| BatchOrder.SettledStays | contracts/src/Exchange.sol:125-126 | no step takes back what was settled or sent, so it does for good |
| BatchOrder.InFlightSettlesIff | crates/gateway/src/batch.rs:32-40 | and then it settles exactly when no order expired and no key is used or repeats |
| RepeatedKeys.DisjointIffOneFill | crates/gateway/src/state.rs:143-150 | the trades of one submission share no nonce key if and only if there is at most one of them |
| RepeatedKeys.TwoFillsRevert | contracts/src/Exchange.sol:121-126 | the trades of a submission with two fills settle together in no state of the contract, at no time |
| RepeatedKeys.SharedKeySettlesOnce | contracts/src/Exchange.sol:121-126 | in every run, of two trades with a key in common at most one is ever applied and the other keeps its row |
| RepeatedKeys.CancelledNonceNeverSettles | contracts/src/Exchange.sol:72-76 | in every run no trade applied after a nonce was cancelled on chain has an order of that maker with that nonce, whenever its batch was sent |
| Acceptance.AcceptedIsStored | crates/gateway/src/state.rs:247-257 | in every reachable state each stored hash is known; an accepted order is known and stored with the time of acceptance plus the nonce expiry |
| Acceptance.AcceptedOnceBetweenRestarts | crates/gateway/src/state.rs:100-114 | in every run, between two acceptances of the same order lies a restart later than the first one's time plus the nonce expiry, and a restart that no longer knew it |
| Vouching.TradesAreVouched | crates/gateway/src/state.rs:87-98 | in every run each trade was signed by both makers and made no later than its taker's expiry |
| Vouching.RestingOrdersAreVouched | crates/gateway/src/state.rs:212-213 | in every run each resting order was signed by its maker |
| GuardedRuns.LedgerConservesTokens | crates/gateway/src/ledger.rs:28-61 | in every guarded run available plus reserved over all users is what was credited |

A guarded run submits only orders on the configured pair whose quantity times price fits 256 bits and
whose price can hold (every limit order does; a market order when the depth within its price covers
it), and cancels and restarts only where that is safe in the exact sense of `CancelSafeIff` and
`RestartSafeIff`.

## Left out

- HTTP routes, WebSocket connections and messages, the connection registry and the command line; `submit_order` also returns dispatches for them, which are dropped.
- Signature recovery and hashing: an order carries what recovery yields (an address, or none); its hash is the order without the signature, taken to be injective, and a nonce key is the pair (maker, nonce).
- SQLite, bincode and byte conversions, migrations, rows from before `resting_quantity` existed, rows that do not deserialise, failing writes and ROLLBACK: each transaction commits, and resting rows and pending trades come back in key order.
- Overflow of additions (ledger, contract balances, depth totals, order ids, block numbers): tokens and ids are assumed to stay in range; subtraction and multiplication wrap as the code's do, and the contract's checked product reverts.
- The six parallel arrays of `settleBatch` are one list of trades, so its length check is not modelled; events and `orderHash` neither.
- ERC20 calls. `withdraw` is a step of the contract's own runs but not of the combined state machine, because the gateway never sees it.
- Clocks: `now` is an argument, and a restart reads it once where the code reads it twice.
- Async scheduling: every section under the lock is one step together with its persistence. A deposit's credit and its row are one event of the combined state machine; the separate statements of the service are in `DepositLoss`, without orders submitted in between.
- The live stream is a finite list that yields each deposit of its blocks once; log decoding, chain reorganisations and back-off are not part of it.
- The hourly pruning of expired nonces: a restart prunes as well, before it reads them.
- A submission that returns Ok is taken to mean that the batch was applied; a failed one may still land later.
- When pending cancels are retried on chain: the contract may take any nonce at any time, and a pending cancel is deleted at any time after the contract has it.
- Depth and level queries of the book, `set_from_chain`, `BalanceDelta`, `batch_size`, single-row persistence calls that the flows above do not use.
- Ledgers.Ledger.Snapshot: yields a map rather than a list, because the order of entries is never relied on.
