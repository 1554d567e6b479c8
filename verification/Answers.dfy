/**
 What every service call answers, and what it writes when it commits.  The conditions are spelled
 out here; nothing in this file is stated through the transaction that it describes.
 */
module Answers {
  import opened Domain
  import opened Numeric
  import opened Records
  import opened Transactions
  import L = LedgerRun

  /** The two parts of a symbol, in this order. */
  lemma PartsOf(symbol: string, base: string, quote: string)
    requires symbol == base + "-" + quote && base != "" && quote != "" && DashFree(base) && DashFree(quote)
    ensures SplitSymbol(symbol).Some? && BaseOf(symbol) == base && QuoteOf(symbol) == quote
  {
    SplitIsJoin(symbol, base, quote);
    hide SplitSymbol;
  }

  predicate IsListed(markets: set<string>, symbol: string) {
    |markets| > 0 ==> symbol in markets
  }

  // ---- PlaceOrder ------------------------------------------------------------------------

  /** The asset a placement locks: quote for a buy, base for a sell. */
  function AssetOf(symbol: string, side: Side): string {
    match side
    case Buy => QuoteOf(symbol)
    case Sell => BaseOf(symbol)
  }

  /** The amount it locks: price times quantity for a buy, the quantity for a sell. */
  function AmountOf(side: Side, price: real, quantity: real): real {
    match side
    case Buy => Mul(price, quantity)
    case Sell => quantity
  }

  lemma PlaceAnswers(db: Db, markets: set<string>, cmd: PlaceOrderCommand, id: Uuid)
    ensures var r := PlaceOrder(db, markets, cmd, id).result;
            var valid := cmd.userId != NIL_UUID && IsListed(markets, cmd.symbol);
            var formed := SplitSymbol(cmd.symbol).Some? && cmd.side.Some?;
            && (r == Err(ErrValidation) <==> !valid)
            && (valid && !formed ==> r == Err(ErrOther))
            && (valid && formed ==>
                  var asset := AssetOf(cmd.symbol, cmd.side.value);
                  var amount := AmountOf(cmd.side.value, cmd.price, cmd.quantity);
                  var known := (cmd.userId, asset) in db.accounts;
                  var covered := amount <= Dec(Balance(db.ledger, cmd.userId, asset));
                  var used := (cmd.idempotencyKey, ScopeOrder) in db.keys;
                  && (r == Err(ErrNotFound) <==> !known)
                  && (r == Err(ErrInsufficientFunds) <==> known && !covered)
                  && (r == Err(ErrDuplicateIdempotencyKey) <==> known && covered && used)
                  && (r == Ok(id) <==> known && covered && !used && id !in db.orders)
                  && (r == Err(ErrOther) <==> known && covered && !used && id in db.orders))
  {
    hide Balance, Mul, SplitSymbol, Dec, BaseOf, QuoteOf;
  }

  lemma PlaceWrites(db: Db, markets: set<string>, cmd: PlaceOrderCommand, id: Uuid)
    requires PlaceOrder(db, markets, cmd, id).result.Ok?
    ensures cmd.side.Some?
    ensures var side := cmd.side.value;
            var row := OrderRow(cmd.userId, cmd.symbol, side, Units(cmd.price), Units(cmd.quantity), 0, StatusOpen);
            var debit := -Units(AmountOf(side, cmd.price, cmd.quantity));
            PlaceOrder(db, markets, cmd, id).db ==
              db.(keys := db.keys + {(cmd.idempotencyKey, ScopeOrder)},
                  orders := db.orders[id := row],
                  created := db.created + [id],
                  ledger := db.ledger + [Entry(cmd.userId, AssetOf(cmd.symbol, side), debit, EntryReserve, id)])
  {
    L.PlaceEffect(db, markets, cmd, id);
    UnitsOfNeg(AmountOf(cmd.side.value, cmd.price, cmd.quantity));
    hide PlaceOrder, Units, Neg, Mul, BaseOf, QuoteOf;
  }

  // ---- CancelOrder -----------------------------------------------------------------------

  /** What of the reserve is not filled, in stored units. */
  function UnfilledReserve(row: OrderRow): int {
    match row.side
    case Buy => MulUnits(row.price, row.quantity) - MulUnits(row.price, row.filled)
    case Sell => row.quantity - row.filled
  }

  lemma CancelAnswers(db: Db, id: Uuid)
    ensures var r := CancelOrder(db, id).result;
            && (id !in db.orders ==> r == Err(ErrNotFound))
            && (id in db.orders ==>
                  var row := db.orders[id];
                  var live := row.status == StatusOpen || row.status == StatusPartial;
                  var formed := SplitSymbol(row.symbol).Some?;
                  var known := (row.userId, AssetOf(row.symbol, row.side)) in db.accounts;
                  && (r == Err(ErrInvalidStateTransition) <==> !live)
                  && (r == Err(ErrOther) <==> live && !formed)
                  && (r == Err(ErrNotFound) <==> live && formed && UnfilledReserve(row) > 0 && !known)
                  && (r == Ok(id) <==> live && formed && (UnfilledReserve(row) > 0 ==> known)))
  {
    if id in db.orders {
      L.UnreservedUnits(db.orders[id]);
    }
    hide Unreserved, Units, Dec, MulUnits, SplitSymbol, BaseOf, QuoteOf;
  }

  lemma CancelWritesRelease(db: Db, id: Uuid)
    requires CancelOrder(db, id).result.Ok?
    ensures id in db.orders
    ensures var row := db.orders[id];
            var release := Entry(row.userId, AssetOf(row.symbol, row.side), UnfilledReserve(row), EntryRelease, id);
            CancelOrder(db, id).db ==
              db.(ledger := db.ledger + (if UnfilledReserve(row) > 0 then [release] else []),
                  orders := db.orders[id := row.(status := StatusCancelled)])
  {
    L.UnreservedUnits(db.orders[id]);
    hide Unreserved, Units, Dec, MulUnits, BaseOf, QuoteOf;
  }

  // ---- ExecuteTrade ----------------------------------------------------------------------

  predicate IsLive(status: Status) {
    status == StatusOpen || status == StatusPartial
  }

  lemma TradeAnswers(db: Db, cmd: ExecuteTradeCommand, tradeId: Uuid)
    ensures var r := ExecuteTrade(db, cmd, tradeId).result;
            var formed := SplitSymbol(cmd.symbol).Some?;
            var used := (cmd.idempotencyKey, ScopeTrade) in db.keys;
            var exist := cmd.buyOrderId in db.orders && cmd.sellOrderId in db.orders;
            && (!formed ==> r == Err(ErrOther))
            && (r == Err(ErrDuplicateIdempotencyKey) <==> formed && used)
            && (formed && !used && !exist ==> r == Err(ErrNotFound))
            && (formed && !used && exist ==>
                  var buy, sell := db.orders[cmd.buyOrderId], db.orders[cmd.sellOrderId];
                  var sided := buy.side == Buy && sell.side == Sell;
                  var live := IsLive(buy.status) && IsLive(sell.status);
                  var known := forall user: Uuid, asset: string ::
                    (user == buy.userId || user == sell.userId) ==>
                      (asset == BaseOf(cmd.symbol) || asset == QuoteOf(cmd.symbol)) ==>
                        (user, asset) in db.accounts;
                  && (r == Err(ErrOther) <==> !sided)
                  && (r == Err(ErrInvalidStateTransition) <==> sided && !live)
                  && (r == Err(ErrNotFound) <==> sided && live && !known)
                  && (r == Ok(tradeId) <==> sided && live && known))
  {
    if cmd.buyOrderId in db.orders && cmd.sellOrderId in db.orders {
      L.TradeEntriesZeroSum(db.orders[cmd.buyOrderId].userId, db.orders[cmd.sellOrderId].userId,
                            BaseOf(cmd.symbol), QuoteOf(cmd.symbol), cmd.price, cmd.quantity, tradeId, "");
    }
    hide DraftSum, TradeDrafts, TradeWrites, Units, SplitSymbol, BaseOf, QuoteOf;
  }

  /** The status of a live order whose fill has become this. */
  function NextStatus(row: OrderRow, filled: int): Status {
    if filled >= row.quantity then StatusFilled else StatusPartial
  }

  lemma TradeWritesAll(db: Db, cmd: ExecuteTradeCommand, tradeId: Uuid)
    requires ExecuteTrade(db, cmd, tradeId).result.Ok?
    ensures cmd.buyOrderId in db.orders && cmd.sellOrderId in db.orders && cmd.buyOrderId != cmd.sellOrderId
    ensures var buy, sell := db.orders[cmd.buyOrderId], db.orders[cmd.sellOrderId];
            var base, quote := BaseOf(cmd.symbol), QuoteOf(cmd.symbol);
            var quantity, amount := Units(cmd.quantity), Units(Times(cmd.price, cmd.quantity));
            var bought, sold := Units(Dec(buy.filled) + cmd.quantity), Units(Dec(sell.filled) + cmd.quantity);
            ExecuteTrade(db, cmd, tradeId).db ==
              db.(keys := db.keys + {(cmd.idempotencyKey, ScopeTrade)},
                  orders := db.orders[cmd.buyOrderId := buy.(filled := bought, status := NextStatus(buy, bought))]
                                     [cmd.sellOrderId := sell.(filled := sold, status := NextStatus(sell, sold))],
                  ledger := db.ledger
                            + [Entry(buy.userId, base, quantity, EntryTrade, tradeId),
                               Entry(buy.userId, quote, -amount, EntryTrade, tradeId),
                               Entry(sell.userId, base, -quantity, EntryTrade, tradeId),
                               Entry(sell.userId, quote, amount, EntryTrade, tradeId)],
                  trades := db.trades
                            + [TradeRow(tradeId, cmd.symbol, cmd.buyOrderId, cmd.sellOrderId,
                                        buy.userId, sell.userId, Units(cmd.price), quantity)])
  {
    L.TradeEffect(db, cmd, tradeId);
    var buy, sell := db.orders[cmd.buyOrderId], db.orders[cmd.sellOrderId];
    L.FillRow(buy, cmd.quantity);
    L.FillRow(sell, cmd.quantity);
    L.StoredEntries(buy.userId, sell.userId, BaseOf(cmd.symbol), QuoteOf(cmd.symbol), cmd.price, cmd.quantity, tradeId);
    TradeRowWritten(db, cmd, tradeId);
    hide ExecuteTrade, Fill, Stored, TradeDrafts, Units, Times, Dec, BaseOf, QuoteOf;
  }

  lemma TradeRowWritten(db: Db, cmd: ExecuteTradeCommand, tradeId: Uuid)
    requires ExecuteTrade(db, cmd, tradeId).result.Ok?
    ensures cmd.buyOrderId in db.orders && cmd.sellOrderId in db.orders
    ensures ExecuteTrade(db, cmd, tradeId).db.trades
         == db.trades + [TradeRow(tradeId, cmd.symbol, cmd.buyOrderId, cmd.sellOrderId,
                                  db.orders[cmd.buyOrderId].userId, db.orders[cmd.sellOrderId].userId,
                                  Units(cmd.price), Units(cmd.quantity))]
  {
    hide Fill, TradeDrafts, DraftSum, Units, Stored, BaseOf, QuoteOf;
  }

  // ---- Deposits --------------------------------------------------------------------------

  lemma IntakeAnswers(db: Db, cmd: IntakeCommand, id: Uuid)
    ensures var r := Intake(db, cmd, id).result;
            && (r == Err(ErrNotFound) <==> cmd.address !in db.wallets)
            && (cmd.address in db.wallets ==>
                  var fits := db.wallets[cmd.address].asset == cmd.asset;
                  var seen := exists x :: x in db.deposits && db.deposits[x].txHash == cmd.txHash;
                  && (r == Err(ErrValidation) <==> !fits)
                  && (r == Err(ErrConflict) <==> fits && (seen || id in db.deposits))
                  && (r == Ok(id) <==> fits && !seen && id !in db.deposits))
  {
  }

  lemma IntakeWrites(db: Db, cmd: IntakeCommand, id: Uuid)
    requires Intake(db, cmd, id).result.Ok?
    ensures cmd.address in db.wallets
    ensures Intake(db, cmd, id).db ==
      db.(deposits := db.deposits[id := DepositRow(db.wallets[cmd.address].userId, cmd.asset, Units(cmd.amount),
                                                   cmd.txHash, DepositPending)],
          intaken := db.intaken + [id])
  {
    hide Units;
  }

  lemma ConfirmAnswers(db: Db, id: Uuid)
    ensures var r := Confirm(db, id).result;
            && (id !in db.deposits ==> r == Err(ErrNotFound))
            && (id in db.deposits ==>
                  var pending := db.deposits[id].status == DepositPending;
                  var known := (db.deposits[id].userId, db.deposits[id].asset) in db.accounts;
                  && (r == Err(ErrInvalidStateTransition) <==> !pending)
                  && (r == Err(ErrNotFound) <==> pending && !known)
                  && (r == Ok(id) <==> pending && known))
  {
  }

  lemma ConfirmWrites(db: Db, id: Uuid)
    requires Confirm(db, id).result.Ok?
    ensures id in db.deposits
    ensures var d := db.deposits[id];
            Confirm(db, id).db ==
              db.(ledger := db.ledger + [Entry(d.userId, d.asset, d.amount, EntryDeposit, id)],
                  deposits := db.deposits[id := d.(status := DepositConfirmed)])
  {
  }

  /** A rejection writes nothing but the status. */
  lemma RejectAnswers(db: Db, id: Uuid)
    ensures var r := Reject(db, id);
            && (id !in db.deposits <==> r.result == Err(ErrNotFound))
            && (id in db.deposits ==>
                  && (r.result == Err(ErrInvalidStateTransition) <==> db.deposits[id].status != DepositPending)
                  && (r.result == Ok(id) <==> db.deposits[id].status == DepositPending)
                  && (r.result.Ok? ==>
                        r.db == db.(deposits := db.deposits[id := db.deposits[id].(status := DepositRejected)])))
  {
  }

  // ---- Withdraw --------------------------------------------------------------------------

  /** Whatever errors of its own the asset catalog may answer. */
  lemma WithdrawAnswers(db: Db, cmd: WithdrawCommand, id: Uuid)
    ensures var r := Withdraw(db, cmd, id).result;
            var positive := cmd.amount > 0.0;
            && (!positive ==> r == Err(ErrBadRequest))
            && (positive && cmd.catalog.Some? ==> r == Err(cmd.catalog.value))
            && (positive && cmd.catalog.None? ==>
                  var known := (cmd.userId, cmd.asset) in db.accounts;
                  var covered := cmd.amount <= Dec(Balance(db.ledger, cmd.userId, cmd.asset));
                  var used := (cmd.idempotencyKey, ScopeWithdraw) in db.keys;
                  && (r == Err(ErrNotFound) <==> !known)
                  && (r == Err(ErrInsufficientFunds) <==> known && !covered)
                  && (r == Err(ErrDuplicateIdempotencyKey) <==> known && covered && used)
                  && (r == Ok(id) <==> known && covered && !used))
  {
    hide Balance, Dec;
  }

  lemma WithdrawWrites(db: Db, cmd: WithdrawCommand, id: Uuid)
    requires Withdraw(db, cmd, id).result.Ok?
    ensures Withdraw(db, cmd, id).db ==
      db.(keys := db.keys + {(cmd.idempotencyKey, ScopeWithdraw)},
          ledger := db.ledger + [Entry(cmd.userId, cmd.asset, -Units(cmd.amount), EntryWithdraw, id)],
          withdrawals := db.withdrawals + [WithdrawalRow(id, cmd.userId, cmd.asset, Units(cmd.amount))])
  {
    UnitsOfNeg(cmd.amount);
    hide Balance, Dec, Units, Neg;
  }
}
