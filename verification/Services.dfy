/**
 The service objects of internal/order, internal/trade, internal/deposit and
 internal/withdrawal.  A method opens a transaction on a working copy of the tables, edits it
 statement by statement, and installs it at commit; an early return leaves the tables alone.
 Each method is proved to be the transaction of the same name in Transactions.
 */
module Services {
  import opened Domain
  import opened Numeric
  import opened Records
  import T = Transactions

  class Database {
    var db: Db

    constructor (db: Db)
      ensures this.db == db
    {
      this.db := db;
    }

    method PlaceOrder(markets: set<string>, cmd: T.PlaceOrderCommand, id: Uuid) returns (r: Result<Uuid>)
      modifies this
      ensures T.Outcome(db, r) == T.PlaceOrder(old(db), markets, cmd, id)
    {
      if cmd.userId == T.NIL_UUID {
        return Err(ErrValidation);
      }
      if markets != {} && cmd.symbol !in markets {
        return Err(ErrValidation);
      }
      var parts := SplitSymbol(cmd.symbol);
      if parts.None? || cmd.side.None? {
        return Err(ErrOther);
      }
      var (base, quote) := parts.value;
      var reserveAsset, reserveAmount;
      if cmd.side.value == Buy {
        reserveAsset, reserveAmount := quote, Mul(cmd.price, cmd.quantity);
      } else {
        reserveAsset, reserveAmount := base, cmd.quantity;
      }
      if (cmd.userId, reserveAsset) !in db.accounts {
        return Err(ErrNotFound);
      }
      var balance := SumByUserAsset(cmd.userId, reserveAsset);
      if Cmp(reserveAmount, Dec(balance)) > 0 {
        return Err(ErrInsufficientFunds);
      }
      var tx := db;
      if (cmd.idempotencyKey, ScopeOrder) in tx.keys {
        return Err(ErrDuplicateIdempotencyKey);
      }
      tx := tx.(keys := tx.keys + {(cmd.idempotencyKey, ScopeOrder)});
      if id in tx.orders {
        return Err(ErrOther);
      }
      var row := OrderRow(cmd.userId, cmd.symbol, cmd.side.value, Units(cmd.price), Units(cmd.quantity), 0, StatusOpen);
      tx := tx.(orders := tx.orders[id := row], created := tx.created + [id]);
      tx := tx.(ledger := tx.ledger + [Entry(cmd.userId, reserveAsset, Units(Neg(reserveAmount)), EntryReserve, id)]);
      db := tx;
      r := Ok(id);
    }

    method CancelOrder(id: Uuid) returns (r: Result<Uuid>)
      modifies this
      ensures T.Outcome(db, r) == T.CancelOrder(old(db), id)
    {
      if id !in db.orders {
        return Err(ErrNotFound);
      }
      if !IsCancellable(db.orders[id].status) {
        return Err(ErrInvalidStateTransition);
      }
      var tx := db;
      var o := tx.orders[id];
      if !IsCancellable(o.status) {
        return Err(ErrInvalidStateTransition);
      }
      var parts := SplitSymbol(o.symbol);
      if parts.None? {
        return Err(ErrOther);
      }
      var (base, quote) := parts.value;
      var reserveAsset, totalReserve, filledReserve;
      if o.side == Buy {
        reserveAsset, totalReserve := quote, Mul(Dec(o.price), Dec(o.quantity));
        filledReserve := Mul(Dec(o.price), Dec(o.filled));
      } else {
        reserveAsset, totalReserve := base, Dec(o.quantity);
        filledReserve := Dec(o.filled);
      }
      var unreserved := Sub(totalReserve, filledReserve);
      if Cmp(unreserved, 0.0) > 0 {
        if (o.userId, reserveAsset) !in tx.accounts {
          return Err(ErrNotFound);
        }
        tx := tx.(ledger := tx.ledger + [Entry(o.userId, reserveAsset, Units(unreserved), EntryRelease, id)]);
      }
      tx := tx.(orders := tx.orders[id := tx.orders[id].(status := StatusCancelled)]);
      db := tx;
      r := Ok(id);
    }

    method ExecuteTrade(cmd: T.ExecuteTradeCommand, tradeId: Uuid) returns (r: Result<Uuid>)
      modifies this
      ensures T.Outcome(db, r) == T.ExecuteTrade(old(db), cmd, tradeId)
    {
      var parts := SplitSymbol(cmd.symbol);
      if parts.None? {
        return Err(ErrOther);
      }
      var (base, quote) := parts.value;
      var tx := db;
      if (cmd.idempotencyKey, ScopeTrade) in tx.keys {
        return Err(ErrDuplicateIdempotencyKey);
      }
      tx := tx.(keys := tx.keys + {(cmd.idempotencyKey, ScopeTrade)});
      if cmd.buyOrderId !in tx.orders {
        return Err(ErrNotFound);
      }
      var buyOrder := tx.orders[cmd.buyOrderId];
      if cmd.sellOrderId !in tx.orders {
        return Err(ErrNotFound);
      }
      var sellOrder := tx.orders[cmd.sellOrderId];
      if buyOrder.side != Buy || sellOrder.side != Sell {
        return Err(ErrOther);
      }
      if IsTerminal(buyOrder.status) || IsTerminal(sellOrder.status) {
        return Err(ErrInvalidStateTransition);
      }
      if (buyOrder.userId, base) !in tx.accounts || (buyOrder.userId, quote) !in tx.accounts
         || (sellOrder.userId, base) !in tx.accounts || (sellOrder.userId, quote) !in tx.accounts {
        return Err(ErrNotFound);
      }
      var drafts := T.TradeDrafts(buyOrder.userId, sellOrder.userId, base, quote, cmd.price, cmd.quantity);
      var sum := SumDrafts(drafts);
      if Cmp(sum, 0.0) != 0 {
        return Err(ErrOther);
      }
      tx := tx.(trades := tx.trades + [TradeRow(tradeId, cmd.symbol, cmd.buyOrderId, cmd.sellOrderId,
                                                buyOrder.userId, sellOrder.userId, Units(cmd.price),
                                                    Units(cmd.quantity))]);
      var ledger := InsertEntries(tx.ledger, drafts, tradeId);
      tx := tx.(ledger := ledger);
      tx := ApplyOrderFill(tx, cmd.buyOrderId, buyOrder, cmd.quantity);
      tx := ApplyOrderFill(tx, cmd.sellOrderId, sellOrder, cmd.quantity);
      db := tx;
      r := Ok(tradeId);
    }

    method Intake(cmd: T.IntakeCommand, id: Uuid) returns (r: Result<Uuid>)
      modifies this
      ensures T.Outcome(db, r) == T.Intake(old(db), cmd, id)
    {
      if cmd.address !in db.wallets {
        return Err(ErrNotFound);
      }
      var w := db.wallets[cmd.address];
      if w.asset != cmd.asset {
        return Err(ErrValidation);
      }
      var tx := db;
      if T.TxHashTaken(tx, cmd.txHash) || id in tx.deposits {
        return Err(ErrConflict);
      }
      var row := DepositRow(w.userId, cmd.asset, Units(cmd.amount), cmd.txHash, DepositPending);
      tx := tx.(deposits := tx.deposits[id := row], intaken := tx.intaken + [id]);
      db := tx;
      r := Ok(id);
    }

    method Confirm(id: Uuid) returns (r: Result<Uuid>)
      modifies this
      ensures T.Outcome(db, r) == T.Confirm(old(db), id)
    {
      var tx := db;
      if id !in tx.deposits {
        return Err(ErrNotFound);
      }
      var d := tx.deposits[id];
      if d.status != DepositPending {
        return Err(ErrInvalidStateTransition);
      }
      if (d.userId, d.asset) !in tx.accounts {
        return Err(ErrNotFound);
      }
      tx := tx.(ledger := tx.ledger + [Entry(d.userId, d.asset, d.amount, EntryDeposit, id)]);
      tx := tx.(deposits := tx.deposits[id := tx.deposits[id].(status := DepositConfirmed)]);
      db := tx;
      r := Ok(id);
    }

    method Reject(id: Uuid) returns (r: Result<Uuid>)
      modifies this
      ensures T.Outcome(db, r) == T.Reject(old(db), id)
    {
      var tx := db;
      if id !in tx.deposits {
        return Err(ErrNotFound);
      }
      if tx.deposits[id].status != DepositPending {
        return Err(ErrInvalidStateTransition);
      }
      tx := tx.(deposits := tx.deposits[id := tx.deposits[id].(status := DepositRejected)]);
      db := tx;
      r := Ok(id);
    }

    method Withdraw(cmd: T.WithdrawCommand, id: Uuid) returns (r: Result<Uuid>)
      modifies this
      ensures T.Outcome(db, r) == T.Withdraw(old(db), cmd, id)
    {
      if Cmp(cmd.amount, 0.0) <= 0 {
        return Err(ErrBadRequest);
      }
      if cmd.catalog.Some? {
        return Err(cmd.catalog.value);
      }
      if (cmd.userId, cmd.asset) !in db.accounts {
        return Err(ErrNotFound);
      }
      var balance := SumByUserAsset(cmd.userId, cmd.asset);
      if Cmp(cmd.amount, Dec(balance)) > 0 {
        return Err(ErrInsufficientFunds);
      }
      var tx := db;
      if (cmd.idempotencyKey, ScopeWithdraw) in tx.keys {
        return Err(ErrDuplicateIdempotencyKey);
      }
      tx := tx.(keys := tx.keys + {(cmd.idempotencyKey, ScopeWithdraw)});
      tx := tx.(ledger := tx.ledger + [Entry(cmd.userId, cmd.asset, Units(Neg(cmd.amount)), EntryWithdraw, id)]);
      tx := tx.(withdrawals := tx.withdrawals + [WithdrawalRow(id, cmd.userId, cmd.asset, Units(cmd.amount))]);
      db := tx;
      r := Ok(id);
    }

    /** The balance query: a fold over the ledger. */
    method SumByUserAsset(userId: Uuid, asset: string) returns (sum: int)
      ensures sum == Balance(db.ledger, userId, asset)
    {
      sum := 0;
      var i := 0;
      while i < |db.ledger|
        invariant 0 <= i <= |db.ledger|
        invariant sum == Balance(db.ledger[..i], userId, asset)
      {
        var e := db.ledger[i];
        assert db.ledger[..i + 1][..i] == db.ledger[..i];
        if e.userId == userId && e.asset == asset {
          sum := sum + e.amount;
        }
        i := i + 1;
      }
      assert db.ledger[..i] == db.ledger;
    }
  }

  /** The zero-sum check's loop. */
  method SumDrafts(drafts: seq<T.Draft>) returns (sum: real)
    ensures sum == T.DraftSum(drafts)
  {
    sum := 0.0;
    var i := 0;
    while i < |drafts|
      invariant 0 <= i <= |drafts|
      invariant sum == T.DraftSum(drafts[..i])
    {
      assert drafts[..i + 1][..i] == drafts[..i];
      sum := Add(sum, drafts[i].amount);
      i := i + 1;
    }
    assert drafts[..i] == drafts;
  }

  /** The ledger insertion loop. */
  method InsertEntries(ledger: seq<Entry>, drafts: seq<T.Draft>, tradeId: Uuid) returns (r: seq<Entry>)
    ensures r == ledger + T.Stored(drafts, tradeId)
  {
    r := ledger;
    var i := 0;
    while i < |drafts|
      invariant 0 <= i <= |drafts|
      invariant r == ledger + T.Stored(drafts, tradeId)[..i]
    {
      r := r + [Entry(drafts[i].userId, drafts[i].asset, Units(drafts[i].amount), EntryTrade, tradeId)];
      i := i + 1;
    }
  }

  /** IncrementFilled, then UpdateStatus when the status changes. */
  method ApplyOrderFill(tx: Db, id: Uuid, read: OrderRow, quantity: real) returns (r: Db)
    requires id in tx.orders
    ensures r == tx.(orders := tx.orders[id := T.Fill(tx.orders[id], read, quantity)])
  {
    r := tx.(orders := tx.orders[id := tx.orders[id].(filled := Units(Dec(tx.orders[id].filled) + quantity))]);
    var newFilled := Add(Dec(read.filled), quantity);
    if Cmp(newFilled, Dec(read.quantity)) >= 0 {
      r := r.(orders := r.orders[id := r.orders[id].(status := StatusFilled)]);
      return;
    }
    if read.status == StatusOpen {
      r := r.(orders := r.orders[id := r.orders[id].(status := StatusPartial)]);
    }
  }
}
