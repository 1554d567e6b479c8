# Exchange core, modelled and proved

A Dafny model of the order-matching and settlement core of the exchange: the price-time matching
engine with one worker per symbol, the order, trade, deposit and withdrawal transactions over an
append-only ledger, asynchronous settlement of matches, and the derived copies of the book (market
data, restart rehydration, the partner mirror).

Prices and quantities are whole ticks of 10^-10, the scale of every stored amount; command decimals
are exact reals and are rounded where the code rounds them. The services' tables are maps,
sequences and sets.

| files | what they hold |
|---|---|
| `Domain`, `Numeric` | shared values; scale-10 arithmetic and rounding |
| `PriceTime` | price-time priority on flat queues: sweep, join, match, cancel |
| `OrderBook` | the nested price levels as a class that edits them in place, proved to represent the queues |
| `Optimality`, `BookFacts`, `EngineRun`, `Rounding` | what matching guarantees, for one match and for whole runs |
| `Engine` | shards, bounded channels and workers, all symbols interleaved |
| `MarketData`, `ViewOrder` | the price-to-quantity view kept from events; in which orders it may handle them |
| `Records`, `Transactions`, `Services` | rows, transactions as functions, and the service object proved equal to them |
| `Answers` | what each service call answers, exactly when, and all that it writes |
| `LedgerRun`, `Provenance`, `Conservation`, `Idempotency`, `Locking` | every run of service calls; interleaved cancels and trades |
| `Throughout`, `Funds`, `Overfill` | exactly which calls end non-negative balances, fills within quantities, and agreement of status and fill |
| `MatchKeys`, `Exchange`, `ExchangeInv`, `ExchangeWork`, `ExchangeSettle`, `ExchangeRestart`, `CancelFinality` | tables, engine, channel and undelivered matches of one symbol as one state machine, with its invariant |
| `Settlement`, `Rehydration`, `Server` | confluence of settlement, the restart round trip, the wiring of the two |
| `Scenarios` | short runs from empty tables in which a property fails |
| `PartnerFeed` | the partner mirror under failing calls |

The main results:

- The nested matching loops of the book are the greedy price-time sweep (`OrderBooks.OrderBook.MatchBuy`,
  `PriceTime.SweepIsGreedy`), the sweep is optimal (`Optimality.GreedyIsOptimal`), and over every run the
  book stays ordered, uncrossed and free of duplicate ids, and no quantity is lost (`EngineRun.RunBook`,
  `EngineRun.RunPairs`, `EngineRun.RunConserves`).
- Whatever the order of placements, cancels, submissions, worker steps, deliveries, trades requested
  directly, other calls and process restarts, what is filled of every order beside direct trades and what is
  outstanding of it (unsettled, resting, queued or refused) make up its quantity
  (`ExchangeRestart.RunKeepsInv`). So an order is FILLED, or overfilled, exactly when direct trades have filled as
  much as is outstanding of it, or more (`ExchangeSettle.FilledExactly`); without direct trades on its orders
  none is ever overfilled (`ExchangeRestart.NeverOverfilled`).
- A cancel that reaches the channel behind its order's placement is final: after so many turns of the worker,
  whatever is interleaved, the order is out of the book, and it is never matched again, restarts included
  (`CancelFinality.CancelTakesEffect`, `CancelFinality.GoneForGood`).
- Matches may be delivered in any order and any number of times, and none settles twice. Every way of
  delivering them settles all that no cancel blocks if and only if each has its place in both of its
  orders (`Settlement.AlwaysSettlesIff`), which is always so without direct trades
  (`Settlement.RunAlwaysSettles`); then the outcome is always the same (`Settlement.DeliveryOrderIsIrrelevant`).
- In every interleaving of all symbols, every accepted command is handled, once and in order: as soon as a worker
  has had as many turns as commands wait, it has done the sequential run of all of them
  (`Engine.EveryCommandIsHandled`).
- Each call of the services commits, or answers one particular error, exactly when a condition on its command and
  the tables holds (`Answers.PlaceAnswers`, `Answers.CancelAnswers`, `Answers.TradeAnswers`, ...). Every OPEN or
  PARTIAL order can be cancelled, whatever happened before (`ExchangeRestart.OpenCanBeCancelled`).
- Every amount in the ledger has its row: over every run, the entries of each type and reference add up, user by
  user and asset by asset, to what the order, trade, deposit or withdrawal they refer to stands for
  (`Provenance.RunAccounts`). Trade rows name the orders and users they moved (`Provenance.RunNames`), fills are sums
  of trade rows (`Provenance.RunFillsByRows`), and no on-chain transaction is credited twice
  (`Provenance.RunCreditsHashOnce`).
- Every interleaving of row-locked cancels and trades is equivalent to its commits in commit order
  (`Locking.Serializable`), and the reserve identity of an order holds throughout
  (`Locking.CancelAgainstFill`).
- The ledger total of every asset is deposits less withdrawals less held reserves less the drift of
  placements, over every run of calls with amounts of any sign and scale (`Conservation.RunBalanced`).
- After any run and at any moment, a restart rebuilds the live book if and only if a condition on the
  tables, the book and the queues holds (`Rehydration.RehydrationRoundTrip`).

Findings about the code:

- A restart does not always rebuild the live book. It does if and only if no CANCELLED or FILLED order rests,
  what every open order has unsettled, on its way to the engine or refused by the channel is exactly what
  direct trades have filled of it, and equal prices rest in `created_at` order
  (`Rehydration.RehydrationRoundTrip`). Without direct trades the second part says that nothing of an open order is
  unsettled, on its way or refused (`Rehydration.MadeWithoutDirect`). Three runs show that it can fail: a cancel
  may reach the channel before its placement and leave a cancelled order resting
  (`Rehydration.CancelOvertakesPlacement`); a match refused because one side was cancelled leaves the other side
  open, unfilled and unknown to the engine until a restart puts its whole quantity back
  (`Scenarios.RestartRevivesLostFill`); and a direct trade fills an order under the book, which rests on until a
  restart drops it (`Scenarios.FilledOrderRests`).
- The trade counter restarts at zero with the process, but settlement keys never collide, because no two
  orders are ever matched twice, settled or not and across any number of restarts: a rehydrated order
  only ever rests (`Settlement.KeysNeverCollide`). No assumption that earlier matches have settled is needed.
- A trade draws on no reserve: it debits the buyer's quote and the seller's base beside what their orders
  reserved, and nothing releases the reserve of a filled order. A committed trade keeps all balances
  non-negative exactly when both users can pay it out of their balances; a trade of a user with himself
  moves nothing (`Funds.TradeFunds`, `Funds.SelfTradeMovesNothing`). Serial calls never overdraw anybody
  exactly when every confirmation and trade is covered (`Funds.RunKeepsFunds`). Two users who deposit just
  what one order each needs and have the orders filled both end below zero (`Scenarios.BothOverdrawn`).
- ExecuteTrade tests neither what is left of an order nor the sign of the quantity. POST /trades
  (cmd/server/main.go:232) reaches it directly, so orders can be overfilled (`Scenarios.BothOverfilled`):
  exactly by a trade for which an order has no room (`Overfill.RunOverfill`). Status and fill agree exactly
  as long as placements are of a positive stored quantity and trades leave positive fills
  (`Overfill.RunAgrees`). The engine is not told of a direct trade, which can fill an order that has an undelivered
  match; the match is then refused (`Scenarios.ManualTradeRefusesMatch`). A match is refused exactly when one of its
  orders is CANCELLED or FILLED (`ExchangeSettle.SettleExactly`), and keeps its place in an order exactly as long as
  direct trades have filled less than its quantity and all that is outstanding beside open matches
  (`Settlement.PlaceMeans`).
- The event bus starts a goroutine per handler and event, so the market-data view need not see events in
  publish order. The order at one price matters: when a resting order's event overtakes the trade before it,
  the view shows less than the book holds (`ViewOrder.OvertakenTrade`) until later deductions have found that much
  too little, as when the order is cancelled (`ViewOrder.CancelHeals`). Events at different prices may overtake
  each other freely (`ViewOrder.ReorderedMirrors`). After any permutation the view is right exactly when it has lost
  as much to clamped deductions, at each price and side, as in publish order
  (`ViewOrder.PermutedMirrorsIff`, and `ViewOrder.RecoversIff` for every continuation).
- A BUY with more than ten decimals can reserve another amount than its stored row stands for
  (`LedgerRun.RawPriceReservesMore`). A price is safe for every storable quantity exactly when it is storable
  itself, and the same of a quantity (`LedgerRun.PriceReservesExactly`, `LedgerRun.QuantityReservesExactly`).
- The trading flow in the repository's README.md (lines 120-127) puts the balance check inside the transaction,
  after the idempotency key, and promises 200 for a duplicate (line 175). The code checks the balance before the
  transaction begins (internal/order/service.go:169-181), so a retried placement is recognised as a duplicate
  exactly when the user could still afford it, and is otherwise refused for lack of funds or by an earlier
  check (`Idempotency.RetriedPlacement`, `Idempotency.RetriedWithdrawal`); a buy that reserved the whole balance
  is never recognised (`Scenarios.RetryLacksFunds`). Either way it changes nothing.

`dafny verify dfyconfig.toml` checks the project.

## Model

| member | source | states |
|---|---|---|
| Numeric.UnitsIsTheRounding | pkg/numeric/numeric.go:80-84 | a stored amount is the nearest multiple of 10^-10, ties away from zero, and nothing else is |
| Numeric.UnitsOdd | pkg/numeric/numeric.go:48-50 | rounding commutes with negation |
| Numeric.UnitsMonotone | pkg/numeric/numeric.go:80-84 | rounding never swaps two amounts |
| Numeric.AddSubExact | pkg/numeric/numeric.go:40-50 | Add, Sub and Neg are exact on amounts that already have scale 10 |
| Numeric.MulUnitsOfScaleTen | pkg/numeric/numeric.go:36-38 | multiplying scale-10 commands and multiplying their stored columns store the same amount |
| PriceTime.Slot | internal/engine/book.go:71-99 | an order joins behind every order at least as good and before the first worse one |
| PriceTime.SlotUnique | internal/engine/book.go:71-99 | there is only one such position |
| PriceTime.JoinSorted | internal/engine/book.go:71-99 | joining keeps the queue in price order |
| PriceTime.CrossingPrefix | internal/engine/book.go:112-115 | the longest prefix of the queue that the limit reaches |
| PriceTime.CrossingPrefixIsAll | internal/engine/book.go:112-115 | in a sorted queue that prefix is every order the limit reaches |
| PriceTime.SweepIsGreedy | internal/engine/book.go:108-178 | the fills are the first crossing orders, all but the last whole; the quantity is the smaller of demand and crossing liquidity; the queue loses exactly that |
| Optimality.GreedyIsOptimal | internal/engine/book.go:108-178 | no other way of taking the same quantity from the resting orders is cheaper for a buy or earns more for a sell, and every fill respects the limit |
| OrderBooks.FlatSorted | internal/engine/book.go:36-65 | well-formed levels represent a queue in price order of live orders |
| OrderBooks.FlatInjective | internal/engine/book.go:36-65 | and only one list of levels represents a given queue |
| OrderBooks.FillFromLevel | internal/engine/book.go:115-137 | the inner loop against one level is the part of the sweep that this level serves |
| OrderBooks.OrderBook.AddBid | internal/engine/book.go:71-84 | the bid queue after the call is the old one joined by the order, and the levels stay well formed |
| OrderBooks.OrderBook.AddAsk | internal/engine/book.go:86-99 | the same for asks |
| OrderBooks.OrderBook.MatchIncoming | internal/engine/book.go:101-106 | trades, remaining order and new book are those of the flat match |
| OrderBooks.OrderBook.MatchBuy | internal/engine/book.go:108-142 | the nested loops over asks terminate and are the sweep, after which the rest joins the bids |
| OrderBooks.OrderBook.MatchSell | internal/engine/book.go:144-178 | the same for a sell over bids |
| OrderBooks.OrderBook.CancelOrder | internal/engine/book.go:188-208 | removes the first order with the id, bids before asks, drops an emptied level, reports side, price and remaining |
| OrderBooks.IndexInLevel | internal/engine/book.go:210-218 | finds the first order of a level with the id, or shows that there is none |
| BookFacts.MatchOrdered | internal/engine/book.go:101-178 | a match keeps both sides in strict price-time order with positive orders of their own side |
| BookFacts.MatchUncrossed | internal/engine/book.go:101-178 | a match leaves every bid below every ask |
| BookFacts.MatchTrade | internal/engine/book.go:112-141 | the i-th trade is with the i-th resting order, at its price, with the right ids and users, within the limit |
| BookFacts.MatchConserves | internal/engine/book.go:115-141 | for every id, traded plus resting after equals resting before plus what came in, and no id is duplicated |
| BookFacts.MatchUsesUp | internal/engine/book.go:115-141 | each trade leaves at least one of its two orders out of the book |
| BookFacts.CancelOrdered | internal/engine/book.go:188-218 | a cancel keeps the book ordered and uncrossed and reports a positive quantity |
| BookFacts.CancelConserves | internal/engine/book.go:188-218 | a cancel removes exactly the reported quantity of its id and touches no other order; it fails only for an absent id |
| BookFacts.CancelTakesFirst | internal/engine/book.go:188-218 | a cancel takes the first bid with the id, or the first ask if no bid has it, and reports its side, price and remaining quantity |
| BookFacts.RestThenCancel | internal/engine/book.go:188-218 | placing an order that does not trade and cancelling it restores the identical book |
| EngineRun.RunBook | internal/engine/engine.go:144-214 | after every run of commands the book is ordered and uncrossed |
| EngineRun.RunConserves | internal/engine/engine.go:165-214 | after every run, what was placed of an id equals its trades plus what rests plus what was cancelled |
| EngineRun.RunNumbers | internal/engine/engine.go:165-183 | a run numbers its matches 1, 2, 3, ... |
| EngineRun.RunTells | internal/engine/engine.go:165-214 | every event of a run carries the symbol and a positive quantity, a rested order is one that was placed, and a cancellation answers a cancel that was submitted |
| EngineRun.RunPairs | internal/engine/engine.go:144-183 | with fresh ids, ids stay unique in the book and no pair of orders is matched twice |
| EngineRun.RunWithinLimits | internal/engine/book.go:112-141 | both orders of every trade were placed, on opposite sides, and both limits accept its price |
| Rounding.MulUnitsError | pkg/numeric/numeric.go:36-38 | a stored product is within half a unit of the exact one |
| Rounding.BoughtWithinQuantity | internal/engine/book.go:108-178 | in every run, the trades of a buy order sum to at most its quantity, each at most at its limit |
| Rounding.ChargedWithinReserve | internal/trade/service.go:127-127 | in every run, the rounded quote charges of the n trades of a buy order exceed the rounded worth of what they buy at its limit by at most (n+1)/2 units, and so its rounded reserve when the limit is not negative |
| Engine.ShardIsolation | internal/engine/engine.go:94-163 | under every interleaving over all symbols, a symbol's worker has done a sequential run of a prefix of its accepted commands, in acceptance order, and the rest wait within capacity |
| Engine.EveryCommandIsHandled | internal/engine/engine.go:144-154 | under every interleaving, once a symbol's worker has had as many turns as commands wait and no more was accepted, nothing waits and the worker has done the sequential run of all accepted commands |
| Engine.SubmitAnswers | internal/engine/engine.go:94-106 | unknown symbol exactly if it is not configured, else accepted exactly if fewer commands wait than the capacity, else channel full; only an accepted command is queued, behind all that wait |
| Engine.LoadAnswers | internal/engine/engine.go:72-89 | before the start an order of a known symbol joins its side of the book, otherwise nothing changes |
| Engine.EngineObject.constructor | internal/engine/engine.go:53-68 | one empty lane per symbol; a non-positive buffer size means 1024 |
| Engine.EngineObject.LoadOrder | internal/engine/engine.go:72-89 | before the start a known symbol's order joins its queue unmatched; otherwise nothing changes |
| Engine.EngineObject.Submit | internal/engine/engine.go:94-106 | the same of the shards in place, and no other lane changes |
| Engine.EngineObject.Work | internal/engine/engine.go:144-154 | one turn of a symbol's worker is the step that `Engine.EveryCommandIsHandled` counts, and changes that lane only |
| Engine.EngineObject.Start | internal/engine/engine.go:124-127 | from now on loading is ignored; nothing else changes |
| Engine.ShardObject.HandlePlaceCommand | internal/engine/engine.go:165-196 | matches, numbers and publishes the trades in order, then the rested order |
| Engine.ShardObject.HandleCancelCommand | internal/engine/engine.go:198-214 | publishes a cancellation exactly when the book held the order |
| MarketData.AddLevelQty | internal/marketdata/service.go:128-144 | adds the quantity at its price and nowhere else |
| MarketData.AddLevelPlaces | internal/marketdata/service.go:128-144 | a price already shown keeps its place among the levels, a new one comes last |
| MarketData.DeductLevelQty | internal/marketdata/service.go:146-160 | takes the quantity at its price, never below zero, and nowhere else |
| MarketData.DeductLevelPlaces | internal/marketdata/service.go:146-160 | a deduction removes the level at its price if it uses it up, and leaves all others in their order |
| MarketData.DeductIsNoOp | internal/marketdata/service.go:146-160 | a deduction is a no-op exactly when the side shows nothing at that price |
| MarketData.ShowsDetermines | internal/marketdata/service.go:97-108 | the view's levels are determined by the book, up to their order |
| MarketData.RunMirrors | internal/marketdata/service.go:48-95 | from an empty book, a view that handled a run's events in publish order shows the book's quantity at every price of both sides |
| MarketData.RecentIsNewestFirst | internal/marketdata/service.go:78-95 | after any trades the recent ones are the newest, at most 100, newest first |
| ViewOrder.ViewIsTally | internal/marketdata/service.go:48-95 | what the view shows at a price is the tally of the handled events at that price alone |
| ViewOrder.MirrorsIff | internal/eventbus/eventbus.go:27-45 | after events handled in any order the view agrees with the book of a run if and only if they tally at every price as the run's own events do |
| ViewOrder.ReorderedMirrors | internal/eventbus/eventbus.go:27-45 | every reordering of a run's events that keeps the order at each price leaves the view in agreement |
| ViewOrder.PermutedMirrorsIff | internal/marketdata/service.go:146-160 | after any permutation of a run's events the view agrees if and only if, at each price and side, as much was lost to clamped deductions as in publish order |
| ViewOrder.RecoversIff | internal/marketdata/service.go:146-160 | the same at the end of every continuation handled in publish order, so exactly when the view agrees again |
| ViewOrder.OvertakenTrade | internal/eventbus/eventbus.go:27-45 | an OrderRested handled before the TradeMatched that precedes it leaves a view that does not agree |
| ViewOrder.CancelHeals | internal/marketdata/service.go:48-61 | when that order is then cancelled, the view agrees again |
| MarketData.Service.OnOrderCancelled | internal/marketdata/service.go:48-61 | deducts the cancelled quantity on its side for its symbol only |
| MarketData.Service.OnOrderRested | internal/marketdata/service.go:63-76 | adds the resting quantity on its side for its symbol only |
| MarketData.Service.OnTradeMatched | internal/marketdata/service.go:78-95 | deducts on both sides and puts the trade first among the recent ones, of which it keeps at most 100 |
| Records.SplitIsJoin | internal/order/domain.go:45-51 | a symbol splits into base and quote exactly when it is their join with one dash and both are non-empty |
| Records.BalanceIsSum | internal/ledger/store.go:131-153 | a balance is the sum of the user's entries in the asset |
| Transactions.FailureChangesNothing | internal/order/service.go:181-236 | a call that returns an error leaves every table as it was |
| Answers.PartsOf | internal/order/domain.go:45-51 | the base is what stands before the dash, the quote what stands behind it |
| Answers.PlaceAnswers | internal/order/service.go:130-249 | a placement commits exactly if user and market are valid, symbol and side well formed, the account known, the amount covered and the key unused; and each error has its exact condition |
| Answers.PlaceWrites | internal/order/service.go:181-249 | a placement adds the key, the OPEN row with nothing filled, and a RESERVE of price times quantity in quote for a buy, of the quantity in base for a sell |
| Answers.CancelAnswers | internal/order/service.go:251-338 | a cancel commits exactly if the order exists, is OPEN or PARTIAL, its symbol splits, and its reserve account is known when something is to be released; and each error has its exact condition |
| Answers.CancelWritesRelease | internal/order/service.go:279-325 | a cancel releases to the order's user what is not filled of its reserve, if that is positive, and writes CANCELLED, nothing else |
| Answers.TradeAnswers | internal/trade/service.go:90-168 | a trade commits exactly if symbol and key pass, both orders exist on their sides and are OPEN or PARTIAL, and all four accounts are known; and each error has its exact condition |
| Answers.TradeWritesAll | internal/trade/service.go:123-211 | a trade writes its key, both fills and statuses, four entries, and the trade row |
| Answers.TradeRowWritten | internal/trade/service.go:170-180 | the trade row holds buy order and buyer, sell order and seller, price and quantity, each in its column |
| Answers.IntakeAnswers | internal/deposit/service.go:70-102 | an intake commits exactly if the address is known, for this asset, and neither its transaction hash nor its id is taken; otherwise not found, invalid or conflict |
| Answers.IntakeWrites | internal/deposit/service.go:84-95 | an intake adds a PENDING deposit of the address's user |
| Answers.ConfirmAnswers | internal/deposit/service.go:104-144 | a confirmation commits exactly if the deposit is PENDING and the account known |
| Answers.ConfirmWrites | internal/deposit/service.go:104-144 | it credits the deposit's amount to its user and sets CONFIRMED |
| Answers.RejectAnswers | internal/deposit/service.go:146-167 | a rejection commits exactly if the deposit is PENDING and writes the status alone |
| Answers.WithdrawAnswers | internal/withdrawal/service.go:103-175 | a withdrawal commits exactly if the amount is positive, the catalog agrees, the account is known, the balance covers it and the key is unused; and each error has its exact condition |
| Answers.WithdrawWrites | internal/withdrawal/service.go:134-175 | a withdrawal adds its key, its debit and its row |
| Services.Database.PlaceOrder | internal/order/service.go:130-249 | the placement transaction, check by check and write by write |
| Services.Database.CancelOrder | internal/order/service.go:251-344 | the cancel transaction |
| Services.Database.ExecuteTrade | internal/trade/service.go:90-211 | the trade transaction |
| Services.Database.Intake | internal/deposit/service.go:70-102 | the deposit intake |
| Services.Database.Confirm | internal/deposit/service.go:104-144 | the deposit confirmation |
| Services.Database.Reject | internal/deposit/service.go:146-167 | the deposit rejection |
| Services.Database.Withdraw | internal/withdrawal/service.go:103-175 | the withdrawal transaction |
| Services.Database.SumByUserAsset | internal/ledger/store.go:131-153 | the balance query folds the ledger |
| Services.ApplyOrderFill | internal/trade/service.go:213-226 | increments the fill on the current row and sets the status from the row that was read |
| LedgerRun.StoredEntries | internal/trade/service.go:153-160 | the four entries of a trade as stored, for every price and quantity |
| LedgerRun.TradeEntriesZeroSum | internal/trade/service.go:127-168 | for every price and quantity of any scale, the service's check passes and the stored entries sum to zero in each asset |
| LedgerRun.FillStep | internal/trade/service.go:213-226 | a fill of a positive stored quantity adds exactly that and moves the status along an edge of the state machine |
| LedgerRun.CallKeepsOrder | internal/trade/service.go:109-125 | no call with positive stored quantities can break the agreement of status and fill, move a terminal row or lower a fill |
| LedgerRun.RunKeepsOrders | internal/order/domain.go:53-59 | after every run with positive stored quantities OPEN, PARTIAL, FILLED and CANCELLED agree with the fill, and orders only moved forward |
| Overfill.FillMovesForward | internal/trade/service.go:213-226 | a fill of any quantity moves an order forward exactly when the fill does not shrink |
| Overfill.RunMovesForward | internal/trade/service.go:213-226 | over every run each call moves every order forward exactly when no committed trade shrinks a fill |
| Overfill.TradeOverfills | internal/trade/service.go:213-221 | a committed trade overfills an order exactly when the rounded new fill exceeds its quantity |
| Overfill.RoomInUnits | internal/order/store.go:131-143 | for a fill and a quantity that are not negative, the rounded new fill is the old fill plus the stored quantity |
| Overfill.RunOverfill | internal/trade/service.go:90-127 | over every run no order is ever overfilled exactly when each committed trade found room and each placement a quantity that is not negative |
| Overfill.RunAgrees | internal/trade/service.go:213-226 | over every run status and fill always agree exactly when each placement is of a positive stored quantity and each trade leaves positive fills |
| LedgerRun.ReservedUnits | internal/order/service.go:151-163 | a sell, and a buy of at most ten decimals, reserves exactly what its stored row is held for |
| LedgerRun.PriceReservesExactly | internal/order/service.go:151-163 | a price makes every buy of a storable quantity reserve exactly if and only if it has at most ten decimals |
| LedgerRun.QuantityReservesExactly | internal/order/service.go:151-163 | the same of a quantity and every storable price |
| LedgerRun.RawPriceReservesMore | internal/order/service.go:151-163 | a concrete price with more decimals reserves more than its row stands for |
| LedgerRun.UnreservedUnits | internal/order/service.go:279-297 | a cancel computes the difference of the stored reserves of quantity and fill, and releases it exactly when it is positive |
| LedgerRun.RunKeepsReserve | internal/order/service.go:279-325 | after every run an order has one RESERVE, at most one RELEASE only once cancelled, and they net to minus its held reserve and the drift of its placement |
| LedgerRun.ScaleTenRun | internal/order/service.go:151-163 | a run whose buys have at most ten decimals has no drift |
| Records.HeldAfterCancel | internal/order/service.go:279-297 | what a cancelled order still holds is the reserve of its filled part |
| Conservation.RunBalanced | internal/ledger/store.go:48-59 | per asset, over every run: ledger total = confirmed deposits - withdrawals - held reserves - drift of placements |
| Conservation.NoDriftAtScaleTen | internal/ledger/store.go:48-59 | the drift is zero when no buy has more than ten decimals |
| Conservation.RunKeepsCredit | internal/deposit/service.go:104-144 | a deposit is credited exactly once if confirmed and never otherwise |
| Provenance.RunAccounts | internal/ledger/store.go:48-59 | over every run, the entries of each type and reference add up, for each user and asset, to what the row referred to stands for, and the drift written beside it |
| Provenance.NothingBeside | internal/order/service.go:151-163 | nothing is written beside the rows in a run without drift |
| Provenance.NoTradeDrift | internal/trade/service.go:127-160 | a trade at scale 10 has no drift: its row's quantity, and price times quantity, are what it moves |
| Provenance.RunNames | internal/trade/service.go:170-180 | over every run each trade row names a BUY order of its buyer and a SELL order of its seller |
| Provenance.RunFillsByRows | internal/trade/service.go:170-187 | over every run with positive stored quantities, what is filled of an order is the sum of the trade rows that name it |
| Provenance.RunHashesDiffer | migrations/00010_create_deposits.sql:8-8 | over every run no two deposits share a transaction hash |
| Provenance.RunCreditsHashOnce | internal/deposit/service.go:84-144 | over every run a transaction hash is credited by one entry of its deposit's amount if that deposit is confirmed, and by none otherwise |
| Funds.DebitWithin | internal/order/service.go:169-179 | an amount of any scale that passes the balance check is stored as a debit within the balance |
| Funds.TradeMoves | internal/trade/service.go:153-160 | what a committed trade does to every user's balance in every asset |
| Funds.TradeFunds | internal/trade/service.go:127-168 | a committed trade keeps every balance non-negative if and only if buyer and seller are both covered beside their reserves |
| Funds.SelfTradeMovesNothing | internal/trade/service.go:153-160 | a trade of a user with himself changes no balance |
| Funds.RunKeepsFunds | internal/withdrawal/service.go:121-132 | over every run of serial calls no balance is ever negative exactly when each confirmed deposit and each trade is covered |
| Scenarios.BothOverdrawn | internal/trade/service.go:153-160 | a run from empty tables after which buyer and seller are overdrawn by what their filled orders had reserved |
| Scenarios.BothOverfilled | internal/trade/service.go:213-221 | the same run with a larger trade, which overfills both orders |
| Scenarios.ManualTradeRefusesMatch | internal/trade/service.go:123-125 | a direct trade before a match is delivered makes it refused though no order is cancelled |
| Idempotency.CommitUsesKey | internal/idempotency/store.go:34-53 | a call commits only with an unused key, which is then used |
| Idempotency.RetryChangesNothing | internal/idempotency/store.go:34-53 | a call with a used key fails and changes no row |
| Idempotency.RetriedPlacement | internal/order/service.go:130-192 | a placement with a used key is answered as a duplicate exactly when it passes every earlier check, the balance included, and for lack of funds exactly when only that check fails |
| Idempotency.RetriedWithdrawal | internal/withdrawal/service.go:103-142 | the same for a withdrawal |
| Scenarios.RetryLacksFunds | internal/order/service.go:165-192 | a buy that reserved its whole balance and is retried is refused for lack of funds |
| Idempotency.CommittedOnce | internal/idempotency/store.go:34-53 | once a call has committed, every later call of the run with its key changes nothing |
| Idempotency.ReplayIsCommittedRun | internal/idempotency/store.go:34-53 | a run with retries ends in the tables of its committed calls alone, no key among them twice |
| Locking.StepIsAtomic | internal/order/service.go:265-338 | a committing step, working from the rows it read under lock, does what the whole call would do now |
| Locking.StepAnswers | internal/order/service.go:265-338 | a transaction that ends, by commit or error, answers and writes what the whole call would at that moment |
| Locking.StepProgresses | internal/order/store.go:79-93 | a step waits or moves its transaction forward, and one that meets no foreign lock always moves |
| Locking.Serializable | internal/order/store.go:79-93 | every interleaving of cancels, trades and other calls leaves the tables of the committed calls in commit order |
| Locking.CancelAgainstFill | internal/order/service.go:251-338 | under every interleaving at most one cancel commits, and RESERVE and RELEASE net to minus the reserve of the part filled at the cancel and the drift of the placement, which is zero at scale 10 |
| Locking.TerminalIsFinal | internal/trade/service.go:123-125 | once cancelled or filled, a row is never changed again by any interleaving, so no fill lands after a cancel |
| Locking.NoDeadlock | internal/trade/service.go:109-121 | transactions that lock buy rows before sell rows never wait in a circle |
| Locking.CrossedTradesWait | internal/trade/service.go:109-121 | two trades that name the same orders the other way round lock one row each and wait for each other |
| MatchKeys.MatchKeyInjective | internal/engine/settlement.go:85-85 | two settlement keys agree only when they name the same pair of orders and the same number |
| MatchKeys.KeyText | internal/engine/settlement.go:85-85 | a key spells out the buy order, the sell order and the match number in decimal, in this order |
| ExchangeInv.CallKeepsRows | internal/order/store.go:117-143 | no call deletes a row, changes its identity or moves it once terminal |
| ExchangeWork.WorkKeepsInv | internal/engine/engine.go:144-214 | a worker step moves quantity from queued to resting and due without loss, and never pairs two orders again |
| ExchangeSettle.FilledExactly | internal/trade/service.go:213-226 | an order that was not cancelled is FILLED exactly when direct trades have filled at least what is outstanding of it, and overfilled exactly when they have filled more |
| ExchangeSettle.UnsettledIsNotFilled | internal/trade/service.go:123-125 | an order with an unsettled match is not FILLED in the tables unless direct trades have filled at least that match's quantity of it |
| ExchangeSettle.SettleExactly | internal/engine/settlement.go:48-102 | a settled match is a duplicate and changes nothing; an unsettled one is refused exactly when one of its orders is CANCELLED or FILLED; otherwise it settles |
| ExchangeSettle.TradeKeepsInv | internal/trade/service.go:90-211 | a trade requested directly, of any orders, price and quantity, keeps the account of every order |
| ExchangeRestart.RehydratedHolds | cmd/server/main.go:324-365 | the rebuilt book is ordered and holds exactly the OPEN and PARTIAL rows of the symbol, each once, with quantity less filled |
| ExchangeRestart.NeverOverfilled | internal/trade/service.go:213-226 | over every run whose direct trades leave the symbol's orders alone, no order of the symbol is filled beyond its quantity |
| ExchangeRestart.RunNumbersMatches | internal/engine/engine.go:165-183 | over every run the matches since the last restart are numbered 1, 2, 3, ... |
| ExchangeRestart.OpenCanBeCancelled | internal/order/service.go:251-338 | in every reachable state exactly the OPEN and PARTIAL orders of the symbol can be cancelled |
| CancelFinality.CancelLeaves | internal/order/service.go:334-336 | a committed cancel whose submission is accepted waits behind what the channel holds, and no placement of its order behind it |
| CancelFinality.CancelTakesEffect | internal/engine/engine.go:198-214 | however other actions are interleaved, once the worker has had a turn for each command ahead and for the cancel, or the process has restarted, the order is out of the book |
| CancelFinality.GoneForGood | cmd/server/main.go:324-365 | from then on, over every run with restarts, it never rests and is never matched again |
| ExchangeRestart.RunKeepsInv | internal/engine/engine.go:144-214 | the invariant of the whole exchange holds after every sequence of actions, direct trades and restarts included |
| Settlement.SettledExactlyOnce | internal/engine/settlement.go:63-102 | whatever the order and repetition of deliveries, a match never commits twice, and settles only if it was delivered and is not blocked by a cancel; exactly then, if every open match has its place |
| Settlement.AlwaysSettlesIff | internal/trade/service.go:123-125 | every way of delivering the open matches settles all of them if and only if each has its place in both of its orders beside their other open matches |
| Settlement.PlaceMeans | internal/trade/service.go:213-226 | a match has its place in an order exactly when direct trades have filled less than its quantity and what is outstanding beside open matches |
| Settlement.RunAlwaysSettles | internal/engine/settlement.go:48-102 | after any run whose direct trades leave the symbol's orders alone, cancels or not, every way of delivering settles all open matches |
| Settlement.FillIsQuantityMinusRemaining | internal/trade/service.go:213-226 | once all matches settled, the fill of an order that was not cancelled is its quantity less what rests, waits or was refused, plus what direct trades filled |
| Settlement.DeliveryOrderIsIrrelevant | internal/eventbus/eventbus.go:27-45 | when every open match has its place, any two complete ways of delivering them leave the same orders, keys and balances |
| Settlement.EveryMatchSettles | internal/engine/settlement.go:48-102 | after any run without cancels in which every open match has its place, delivering every match in any order settles each exactly once and every fill is quantity less remaining plus what direct trades filled |
| Settlement.KeysNeverCollide | internal/engine/settlement.go:85-85 | in every run, direct trades and restarts included, no two matches share a settlement key |
| Rehydration.StrictUnique | cmd/server/main.go:326-329 | a queue in price and age order is determined by its members |
| Rehydration.RehydratedByAge | cmd/server/main.go:326-329 | in the rebuilt book equal prices rest in created_at order |
| Rehydration.RehydrationRoundTrip | cmd/server/main.go:324-365 | after any run and at any moment, a restart rebuilds the live book if and only if no closed order rests, what every open order has unsettled, on its way or refused is what direct trades filled of it, and ties rest by age |
| Rehydration.MadeWithoutDirect | cmd/server/main.go:324-365 | without direct trades the middle condition says that nothing of an open order is unsettled, on its way or refused |
| Scenarios.FilledOrderRests | internal/trade/service.go:90-211 | a run in which a direct trade fills a resting order; it rests on, and a restart drops it |
| Scenarios.RestartRevivesLostFill | internal/engine/settlement.go:94-101 | a run in which a match is refused because the seller cancelled, so the buy is gone from the book, open in the tables, and whole again after a restart |
| Rehydration.CancelOvertakesPlacement | internal/order/service.go:334-336 | a cancel that reaches the channel before its placement leaves a CANCELLED order resting |
| Server.RehydrateEngine | cmd/server/main.go:324-365 | the loading loop gives every symbol of the engine its rebuilt book |
| Server.SubmitPlace | cmd/server/main.go:53-67 | the adapter submits the row with remaining equal to quantity |
| Server.SubmitCancel | cmd/server/main.go:69-74 | the adapter submits the cancel of the order on its symbol |
| Server.OnTradeMatched | internal/engine/settlement.go:48-58 | a match with a partner side changes nothing, any other is executed with its match key |
| Server.PartnerMatchIsDropped | internal/engine/settlement.go:48-58 | a match with a side that has no user changes nothing |
| Server.UserMatchIsExecuted | internal/engine/settlement.go:63-102 | a match of two users is executed with its orders, price, quantity and key |
| PartnerFeed.NoDriftIsTenPercent | internal/partnerfeed/bot.go:167-173 | for a positive quantity, no material drift means within ten percent either way |
| PartnerFeed.WantKeys | internal/partnerfeed/bot.go:113-120 | the wanted keys are exactly the keys of the valid levels |
| PartnerFeed.AtMostDepth | internal/partnerfeed/bot.go:175-180 | at most Depth levels are wanted on a side |
| PartnerFeed.TopIsPrefix | internal/partnerfeed/bot.go:175-180 | the levels taken are the first ones of the snapshot, Depth of them or all |
| PartnerFeed.TopKeys | internal/partnerfeed/bot.go:113-120 | a key is wanted exactly if it is that of a valid level among the first Depth ones |
| PartnerFeed.WantedQuantity | internal/partnerfeed/bot.go:113-120 | the quantity wanted at a key is that of the last valid level with this key, times the jitter |
| PartnerFeed.DriftElsewhere | internal/partnerfeed/bot.go:167-173 | for a previous quantity that is not positive, which quantities count as drifted |
| PartnerFeed.CancelMirrors | internal/partnerfeed/bot.go:123-131 | cancelling and forgetting an order keeps live = tracked plus refused cancels |
| PartnerFeed.PlaceMirrors | internal/partnerfeed/bot.go:134-154 | placing and tracking an order keeps it too |
| PartnerFeed.Bot.Sync | internal/partnerfeed/bot.go:108-155 | after a sync everything tracked is wanted and within the drift, undrifted orders are untouched, the others have exactly the wanted quantity, and with no failed call every wanted level is tracked |
| PartnerFeed.Bot.Tick | internal/partnerfeed/bot.go:99-106 | only keys of valid levels among the first Depth of the snapshot stay tracked, and with no failed call exactly those; all other symbols are untouched, and without a snapshot nothing happens |
| PartnerFeed.Bot.Start | internal/partnerfeed/bot.go:82-97 | after every sequence of snapshots and failures the mirror's invariant holds, and what is tracked of a symbol follows its last snapshot |
| PartnerFeed.MirrorIsExact | internal/partnerfeed/state.go:24-52 | while no call has failed, the live partner orders are exactly the tracked ones, each as placed and tracked once |

## Left out

- HTTP handlers, routing, JWT, password hashing, validation and configuration: plumbing over libraries.
- SQL text, pgx, pools and timeouts: tables are maps and sequences, a failed transaction changes nothing, FOR UPDATE is a row lock, and NUMERIC(30,10) overflow and NaN do not occur.
- float64 in the engine, the market-data view and the mirror: engine quantities are integer ticks and conversions are exact (the text handed to the engine is rounded to the stored scale first), the mirror's are reals.
- Decimal parsing and formatting: pgtype.Numeric and math/big are not part of this model.
- PriceLevel and Order references: levels and orders are values inside the book's fields, so aliasing of an order between the book and its submitter is not modelled; the inner loop shared in shape by matchBuy and matchSell is one method.
- Event bus goroutines: a delivery to settlement is a step of its own, in any order and any number of times, and `ViewOrder` covers any order of handling by the market-data view; the handler table of Subscribe and Publish and handlers of one view running at the same instant (its mutex excludes that) are not modelled.
- Outbox rows and their publisher: inserted in each transaction, read by a poll loop, without effect on any table modelled here.
- Sandbox settlement: it inserts a fresh MARKET order with no RESERVE for every event, so redelivery is not idempotent and the ledger identity would need an account of its own.
- Partner orders in the state machine of `Exchange`: production never runs the partner ingester, so every order there is a user's; `Server.OnTradeMatched` models the partner test itself.
- Binance feed, klines, WebSocket hub and recent-trade payload formatting: network and display.
- Wallet generation, asset catalog, users, accounts and the older service, repository and handler packages: accounts and wallets are lookup tables here, the catalog's answer is a parameter.
- Timestamps, UUID generation and the text of level keys: identifiers are fresh parameters of 36 characters, created_at is the position in a list, and the mirror's key functions are arbitrary.
- Deadlock detection of the database: trades that name orders on the wrong sides can wait for each other (`Locking.CrossedTradesWait`), which `Locking.NoDeadlock` excludes; settlement of engine matches never does, and the database would abort one of them.
- Concurrent balance checks: placements and withdrawals check the balance before their transaction begins, so `Funds.RunKeepsFunds` is about calls served one after the other.
- Locking.CancelAgainstFill: the balance checks of placements and withdrawals run atomically with their commit, because only the row-locked calls are interleaved step by step.
- LedgerRun.FillStep: for positive stored quantities; `Overfill.FillMovesForward` and `Overfill.RunAgrees` say exactly what other quantities do.
- LedgerRun.CallKeepsOrder: for positive stored quantities, likewise.
- LedgerRun.RunKeepsOrders: for positive stored quantities; without them it is false, and `Overfill.RunAgrees` and `Overfill.RunMovesForward` give the exact conditions.
- Idempotency.RetriedWithdrawal: the asset catalog answers with errors of its own, not with the two that the withdrawal itself reports.
- Engine.EngineObject.LoadOrder: requires a positive remaining quantity, which its only caller ensures (cmd/server/main.go:347).
- Rounding.ChargedWithinReserve: about the matches of an engine run and what their settlement debits each; the sum over the TRADE rows of the ledger is not stated.
- ExchangeRestart.RunKeepsInv: placements of the symbol have a positive stored quantity and a user with accounts in both assets; a trade requested directly may name any orders, price and quantity, but its idempotency key is not a settlement key of the symbol, with which it would pose as a match.
- MarketData.RunMirrors: for events handled in publish order, which the event bus does not guarantee (`ViewOrder.MirrorsIff` and `ViewOrder.PermutedMirrorsIff` have the exact conditions for any order); and from an empty book, because loaded orders publish nothing and the view never learns of them.
- Uniqueness of trade and withdrawal ids: a duplicate primary key is an error only for orders and deposits; for the others the identifier is a parameter that the services generate afresh, and what carries a repeated one is summed in `Provenance.RunAccounts`.
- Engine goroutines: a worker's turns are steps taken one by one in any order; shutdown by context is not modelled.
- Provenance.RunFillsByRows: for positive stored quantities, with which alone every fill adds what its row says.
- CancelFinality.CancelTakesEffect: for a cancel that the channel accepts behind its order's placement; `Rehydration.CancelOvertakesPlacement` shows what happens before it, and a cancel refused by the channel leaves the order resting.
