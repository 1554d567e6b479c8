/**
 The transactions of the order, trade, deposit and withdrawal services, each as one function
 from the tables to the tables.  A transaction that fails at any point rolls back, so it
 returns the tables it was given.
 */
module Transactions {
  import opened Domain
  import opened Numeric
  import opened Records

  datatype Outcome = Outcome(db: Db, result: Result<Uuid>)

  function Fail(db: Db, e: Error): Outcome {
    Outcome(db, Err(e))
  }

  const NIL_UUID: Uuid := "00000000-0000-0000-0000-000000000000"

  // ---- PlaceOrder ------------------------------------------------------------------------

  /** A side that is neither BUY nor SELL is None. */
  datatype PlaceOrderCommand = PlaceOrderCommand(
    userId: Uuid, symbol: string, side: Option<Side>, price: real, quantity: real, idempotencyKey: string)

  /** The reserve a new order needs, computed from the command's own decimals. */
  function ReserveAmount(side: Side, price: real, quantity: real): real {
    if side == Buy then Mul(price, quantity) else quantity
  }

  function NewRow(cmd: PlaceOrderCommand, side: Side): OrderRow {
    OrderRow(cmd.userId, cmd.symbol, side, Units(cmd.price), Units(cmd.quantity), 0, StatusOpen)
  }

  /** `markets` is the allow-list of symbols, empty for "any"; `id` is the fresh order id. */
  function PlaceOrder(db: Db, markets: set<string>, cmd: PlaceOrderCommand, id: Uuid): Outcome {
    if cmd.userId == NIL_UUID then Fail(db, ErrValidation)
    else if markets != {} && cmd.symbol !in markets then Fail(db, ErrValidation)
    else if SplitSymbol(cmd.symbol).None? || cmd.side.None? then Fail(db, ErrOther)
    else
      var side := cmd.side.value;
      var amount := ReserveAmount(side, cmd.price, cmd.quantity);
      var asset := ReserveAsset(NewRow(cmd, side));
      if (cmd.userId, asset) !in db.accounts then Fail(db, ErrNotFound)
      else if Cmp(amount, Dec(Balance(db.ledger, cmd.userId, asset))) > 0 then Fail(db, ErrInsufficientFunds)
      else if (cmd.idempotencyKey, ScopeOrder) in db.keys then Fail(db, ErrDuplicateIdempotencyKey)
      else if id in db.orders then Fail(db, ErrOther)
      else
        var reserve := Entry(cmd.userId, asset, Units(Neg(amount)), EntryReserve, id);
        Outcome(db.(keys := db.keys + {(cmd.idempotencyKey, ScopeOrder)},
                    orders := db.orders[id := NewRow(cmd, side)],
                    created := db.created + [id],
                    ledger := db.ledger + [reserve]),
                Ok(id))
  }

  // ---- CancelOrder -----------------------------------------------------------------------

  /** What a cancel gives back: the whole reserve less the reserve of the filled part. */
  function Unreserved(row: OrderRow): real {
    if row.side == Buy
    then Sub(Mul(Dec(row.price), Dec(row.quantity)), Mul(Dec(row.price), Dec(row.filled)))
    else Sub(Dec(row.quantity), Dec(row.filled))
  }

  /** The writes of a cancel that holds the row lock and has read `row`. */
  function CancelWrites(db: Db, id: Uuid, row: OrderRow): Outcome
    requires id in db.orders
  {
    if SplitSymbol(row.symbol).None? then Fail(db, ErrOther)
    else
      var amount := Unreserved(row);
      var asset := ReserveAsset(row);
      var release := Cmp(amount, 0.0) > 0;
      if release && (row.userId, asset) !in db.accounts then Fail(db, ErrNotFound)
      else
        var entries := if release then [Entry(row.userId, asset, Units(amount), EntryRelease, id)] else [];
        Outcome(db.(ledger := db.ledger + entries,
                    orders := db.orders[id := db.orders[id].(status := StatusCancelled)]),
                Ok(id))
  }

  function CancelOrder(db: Db, id: Uuid): Outcome {
    if id !in db.orders then Fail(db, ErrNotFound)
    else if !IsCancellable(db.orders[id].status) then Fail(db, ErrInvalidStateTransition)
    else CancelWrites(db, id, db.orders[id])
  }

  // ---- ExecuteTrade ----------------------------------------------------------------------

  datatype ExecuteTradeCommand = ExecuteTradeCommand(
    symbol: string, buyOrderId: Uuid, sellOrderId: Uuid, price: real, quantity: real, idempotencyKey: string)

  /** An entry before it is stored, with its exact amount. */
  datatype Draft = Draft(userId: Uuid, asset: string, amount: real)

  /** Buyer +base -quote, seller -base +quote. */
  function TradeDrafts(buyer: Uuid, seller: Uuid, base: string, quote: string, price: real,
      quantity: real): seq<Draft> {
    var quoteAmount := Mul(price, quantity);
    [Draft(buyer, base, quantity), Draft(buyer, quote, Neg(quoteAmount)),
     Draft(seller, base, Neg(quantity)), Draft(seller, quote, quoteAmount)]
  }

  /** The running sum the service checks against zero, rounded at every addition. */
  function DraftSum(drafts: seq<Draft>): real {
    if drafts == [] then 0.0 else Add(DraftSum(drafts[..|drafts| - 1]), drafts[|drafts| - 1].amount)
  }

  function Stored(drafts: seq<Draft>, tradeId: Uuid): seq<Entry> {
    seq(|drafts|, i requires 0 <= i < |drafts| =>
      Entry(drafts[i].userId, drafts[i].asset, Units(drafts[i].amount), EntryTrade, tradeId))
  }

  /** IncrementFilled on the current row, then the status computed from the row that was read. */
  function Fill(current: OrderRow, read: OrderRow, quantity: real): OrderRow {
    var row := current.(filled := Units(Dec(current.filled) + quantity));
    if Cmp(Add(Dec(read.filled), quantity), Dec(read.quantity)) >= 0 then row.(status := StatusFilled)
    else if read.status == StatusOpen then row.(status := StatusPartial)
    else row
  }

  /** The reads and checks of a trade that holds both row locks, on the rows it has read. */
  function TradeCheck(db: Db, cmd: ExecuteTradeCommand, buy: OrderRow, sell: OrderRow): Option<Error> {
    if SplitSymbol(cmd.symbol).None? || buy.side != Buy || sell.side != Sell then Some(ErrOther)
    else if IsTerminal(buy.status) || IsTerminal(sell.status) then Some(ErrInvalidStateTransition)
    else
      var base, quote := BaseOf(cmd.symbol), QuoteOf(cmd.symbol);
      if (buy.userId, base) !in db.accounts || (buy.userId, quote) !in db.accounts
         || (sell.userId, base) !in db.accounts || (sell.userId, quote) !in db.accounts
      then Some(ErrNotFound)
      else if Cmp(DraftSum(TradeDrafts(buy.userId, sell.userId, base, quote, cmd.price, cmd.quantity)), 0.0) != 0
      then Some(ErrOther)
      else None
  }

  /** The writes of a trade, on the current tables and the two rows it has read. */
  function TradeWrites(db: Db, cmd: ExecuteTradeCommand, buy: OrderRow, sell: OrderRow, tradeId: Uuid): Db
    requires cmd.buyOrderId in db.orders && cmd.sellOrderId in db.orders
  {
    var drafts := TradeDrafts(buy.userId, sell.userId, BaseOf(cmd.symbol), QuoteOf(cmd.symbol), cmd.price,
        cmd.quantity);
    var afterBuy := db.orders[cmd.buyOrderId := Fill(db.orders[cmd.buyOrderId], buy, cmd.quantity)];
    var afterSell := afterBuy[cmd.sellOrderId := Fill(afterBuy[cmd.sellOrderId], sell, cmd.quantity)];
    db.(keys := db.keys + {(cmd.idempotencyKey, ScopeTrade)},
        trades := db.trades + [TradeRow(tradeId, cmd.symbol, cmd.buyOrderId, cmd.sellOrderId,
                                        buy.userId, sell.userId, Units(cmd.price), Units(cmd.quantity))],
        ledger := db.ledger + Stored(drafts, tradeId),
        orders := afterSell)
  }

  function ExecuteTrade(db: Db, cmd: ExecuteTradeCommand, tradeId: Uuid): Outcome {
    if SplitSymbol(cmd.symbol).None? then Fail(db, ErrOther)
    else if (cmd.idempotencyKey, ScopeTrade) in db.keys then Fail(db, ErrDuplicateIdempotencyKey)
    else if cmd.buyOrderId !in db.orders || cmd.sellOrderId !in db.orders then Fail(db, ErrNotFound)
    else
      var buy, sell := db.orders[cmd.buyOrderId], db.orders[cmd.sellOrderId];
      match TradeCheck(db, cmd, buy, sell)
      case Some(e) => Fail(db, e)
      case None => Outcome(TradeWrites(db, cmd, buy, sell, tradeId), Ok(tradeId))
  }

  // ---- Deposits --------------------------------------------------------------------------

  datatype IntakeCommand = IntakeCommand(address: string, asset: string, amount: real, txHash: string)

  predicate TxHashTaken(db: Db, txHash: string) {
    exists x :: x in db.deposits && db.deposits[x].txHash == txHash
  }

  function Intake(db: Db, cmd: IntakeCommand, id: Uuid): Outcome {
    if cmd.address !in db.wallets then Fail(db, ErrNotFound)
    else if db.wallets[cmd.address].asset != cmd.asset then Fail(db, ErrValidation)
    else if TxHashTaken(db, cmd.txHash) || id in db.deposits then Fail(db, ErrConflict)
    else
      var row := DepositRow(db.wallets[cmd.address].userId, cmd.asset, Units(cmd.amount), cmd.txHash, DepositPending);
      Outcome(db.(deposits := db.deposits[id := row], intaken := db.intaken + [id]), Ok(id))
  }

  function Confirm(db: Db, id: Uuid): Outcome {
    if id !in db.deposits then Fail(db, ErrNotFound)
    else if db.deposits[id].status != DepositPending then Fail(db, ErrInvalidStateTransition)
    else
      var d := db.deposits[id];
      if (d.userId, d.asset) !in db.accounts then Fail(db, ErrNotFound)
      else
        Outcome(db.(ledger := db.ledger + [Entry(d.userId, d.asset, d.amount, EntryDeposit, id)],
                    deposits := db.deposits[id := d.(status := DepositConfirmed)]),
                Ok(id))
  }

  function Reject(db: Db, id: Uuid): Outcome {
    if id !in db.deposits then Fail(db, ErrNotFound)
    else if db.deposits[id].status != DepositPending then Fail(db, ErrInvalidStateTransition)
    else Outcome(db.(deposits := db.deposits[id := db.deposits[id].(status := DepositRejected)]), Ok(id))
  }

  // ---- Withdraw --------------------------------------------------------------------------

  /** `catalog` is what the asset catalog says about network and address. */
  datatype WithdrawCommand = WithdrawCommand(
    userId: Uuid, asset: string, amount: real, idempotencyKey: string, catalog: Option<Error>)

  function Withdraw(db: Db, cmd: WithdrawCommand, id: Uuid): Outcome {
    if Cmp(cmd.amount, 0.0) <= 0 then Fail(db, ErrBadRequest)
    else if cmd.catalog.Some? then Fail(db, cmd.catalog.value)
    else if (cmd.userId, cmd.asset) !in db.accounts then Fail(db, ErrNotFound)
    else if Cmp(cmd.amount, Dec(Balance(db.ledger, cmd.userId, cmd.asset))) > 0 then Fail(db, ErrInsufficientFunds)
    else if (cmd.idempotencyKey, ScopeWithdraw) in db.keys then Fail(db, ErrDuplicateIdempotencyKey)
    else
      Outcome(db.(keys := db.keys + {(cmd.idempotencyKey, ScopeWithdraw)},
                  ledger := db.ledger + [Entry(cmd.userId, cmd.asset, Units(Neg(cmd.amount)), EntryWithdraw, id)],
                  withdrawals := db.withdrawals + [WithdrawalRow(id, cmd.userId, cmd.asset, Units(cmd.amount))]),
              Ok(id))
  }

  // ---- Any of them -----------------------------------------------------------------------

  /** One service call, with the fresh id it draws. */
  datatype Call =
    | CallPlace(markets: set<string>, place: PlaceOrderCommand, id: Uuid)
    | CallCancel(id: Uuid)
    | CallTrade(trade: ExecuteTradeCommand, id: Uuid)
    | CallIntake(intake: IntakeCommand, id: Uuid)
    | CallConfirm(id: Uuid)
    | CallReject(id: Uuid)
    | CallWithdraw(withdraw: WithdrawCommand, id: Uuid)

  function Perform(db: Db, c: Call): Outcome {
    match c
    case CallPlace(markets, cmd, id) => PlaceOrder(db, markets, cmd, id)
    case CallCancel(id) => CancelOrder(db, id)
    case CallTrade(cmd, id) => ExecuteTrade(db, cmd, id)
    case CallIntake(cmd, id) => Intake(db, cmd, id)
    case CallConfirm(id) => Confirm(db, id)
    case CallReject(id) => Reject(db, id)
    case CallWithdraw(cmd, id) => Withdraw(db, cmd, id)
  }

  function PerformAll(db: Db, calls: seq<Call>): Db {
    if calls == [] then db
    else Perform(PerformAll(db, calls[..|calls| - 1]), calls[|calls| - 1]).db
  }

  /** A failed call leaves every table as it was. */
  lemma FailureChangesNothing(db: Db, c: Call)
    ensures Perform(db, c).result.Err? ==> Perform(db, c).db == db
  {
  }
}
