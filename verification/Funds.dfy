/** Where balances stay non-negative: exactly which confirmations and trades take one below zero. */
module Funds {
  import opened Domain
  import opened Numeric
  import opened Records
  import opened Transactions
  import opened Throughout
  import L = LedgerRun

  /** No balance is negative. */
  ghost predicate Funded(db: Db) {
    forall userId: Uuid, asset: string :: Balance(db.ledger, userId, asset) >= 0
  }

  lemma BalanceNext(ledger: seq<Entry>, e: Entry, userId: Uuid, asset: string)
    ensures Balance(ledger + [e], userId, asset)
         == Balance(ledger, userId, asset) + (if e.userId == userId && e.asset == asset then e.amount else 0)
  {
    assert (ledger + [e])[..|ledger|] == ledger;
  }

  /** A new entry keeps every balance non-negative exactly when it keeps its own so. */
  lemma EntryFunds(db: Db, db': Db, e: Entry)
    requires Funded(db) && db'.ledger == db.ledger + [e]
    ensures Funded(db') <==> Balance(db.ledger, e.userId, e.asset) + e.amount >= 0
  {
    hide Balance;
    forall userId: Uuid, asset: string
      ensures Balance(db'.ledger, userId, asset)
           == Balance(db.ledger, userId, asset) + (if e.userId == userId && e.asset == asset then e.amount else 0)
    {
      BalanceNext(db.ledger, e, userId, asset);
    }
    BalanceNext(db.ledger, e, e.userId, e.asset);
  }

  /** An exact amount within the balance is stored within the balance, whatever its scale. */
  lemma DebitWithin(amount: real, balance: int)
    requires Cmp(amount, Dec(balance)) <= 0
    ensures balance + Units(Neg(amount)) >= 0
  {
    hide Units;
    UnitsMonotone(amount, Dec(balance));
    UnitsOfDec(balance);
    UnitsOdd(amount);
    UnitsOfDec(Units(-amount));
  }

  lemma PlaceKeepsFunds(db: Db, markets: set<string>, cmd: PlaceOrderCommand, id: Uuid)
    requires Funded(db)
    ensures Funded(PlaceOrder(db, markets, cmd, id).db)
  {
    hide Units, Neg, ReserveAmount, Balance, Dec, ReserveAsset, Funded;
    if PlaceOrder(db, markets, cmd, id).result.Ok? {
      var side := cmd.side.value;
      var amount, asset := ReserveAmount(side, cmd.price, cmd.quantity), ReserveAsset(NewRow(cmd, side));
      DebitWithin(amount, Balance(db.ledger, cmd.userId, asset));
      EntryFunds(db, PlaceOrder(db, markets, cmd, id).db,
          Entry(cmd.userId, asset, Units(Neg(amount)), EntryReserve, id));
    }
  }

  lemma CancelKeepsFunds(db: Db, id: Uuid)
    requires Funded(db)
    ensures Funded(CancelOrder(db, id).db)
  {
    hide Units, Balance, Unreserved, ReserveAsset;
    if CancelOrder(db, id).result.Ok? {
      var row := db.orders[id];
      if Cmp(Unreserved(row), 0.0) > 0 {
        EntryFunds(db, CancelOrder(db, id).db,
            Entry(row.userId, ReserveAsset(row), Units(Unreserved(row)), EntryRelease, id));
      } else {
        assert db.ledger + [] == db.ledger;
      }
    }
  }

  lemma WithdrawKeepsFunds(db: Db, cmd: WithdrawCommand, id: Uuid)
    requires Funded(db)
    ensures Funded(Withdraw(db, cmd, id).db)
  {
    hide Units, Neg, Balance, Dec, Funded;
    if Withdraw(db, cmd, id).result.Ok? {
      DebitWithin(cmd.amount, Balance(db.ledger, cmd.userId, cmd.asset));
      EntryFunds(db, Withdraw(db, cmd, id).db, Entry(cmd.userId, cmd.asset, Units(Neg(cmd.amount)), EntryWithdraw, id));
    }
  }

  // ---- Deposits --------------------------------------------------------------------------

  /** The deposit leaves its user's balance non-negative; only a negative one might not. */
  predicate DepositCovered(db: Db, id: Uuid) {
    id in db.deposits ==>
      Balance(db.ledger, db.deposits[id].userId, db.deposits[id].asset) + db.deposits[id].amount >= 0
  }

  lemma ConfirmFunds(db: Db, id: Uuid)
    requires Funded(db) && Confirm(db, id).result.Ok?
    ensures Funded(Confirm(db, id).db) <==> DepositCovered(db, id)
  {
    hide Balance;
    var d := db.deposits[id];
    EntryFunds(db, Confirm(db, id).db, Entry(d.userId, d.asset, d.amount, EntryDeposit, id));
  }

  // ---- Trades ----------------------------------------------------------------------------

  /** Both users can pay the trade out of their balances, beside whatever their orders reserved.
      A trade of a user with himself moves nothing. */
  predicate TradeCovered(db: Db, cmd: ExecuteTradeCommand) {
    cmd.buyOrderId in db.orders && cmd.sellOrderId in db.orders ==>
      var buyer, seller := db.orders[cmd.buyOrderId].userId, db.orders[cmd.sellOrderId].userId;
      var base, quote := BaseOf(cmd.symbol), QuoteOf(cmd.symbol);
      var quantity, amount := Units(cmd.quantity), Units(Times(cmd.price, cmd.quantity));
      if buyer == seller then true
      else if base == quote then
        && Balance(db.ledger, buyer, base) + quantity >= amount
        && Balance(db.ledger, seller, base) + amount >= quantity
      else
        && Balance(db.ledger, buyer, quote) >= amount && Balance(db.ledger, buyer, base) + quantity >= 0
        && Balance(db.ledger, seller, base) >= quantity && Balance(db.ledger, seller, quote) + amount >= 0
  }

  /** What a committed trade does to every balance. */
  lemma TradeMoves(db: Db, cmd: ExecuteTradeCommand, tradeId: Uuid, userId: Uuid, asset: string)
    requires ExecuteTrade(db, cmd, tradeId).result.Ok?
    ensures cmd.buyOrderId in db.orders && cmd.sellOrderId in db.orders
    ensures Balance(ExecuteTrade(db, cmd, tradeId).db.ledger, userId, asset)
         == Balance(db.ledger, userId, asset)
          + L.TradeEffectOn(db.orders[cmd.buyOrderId].userId, db.orders[cmd.sellOrderId].userId,
                            BaseOf(cmd.symbol), QuoteOf(cmd.symbol),
                            Units(cmd.quantity), Units(Times(cmd.price, cmd.quantity)), userId, asset)
  {
    hide ExecuteTrade, Balance, Fill, Stored, TradeDrafts, Units, Times, BaseOf, QuoteOf, AmountFor, L.TradeEffectOn;
    L.TradeEffect(db, cmd, tradeId);
    var buyer, seller := db.orders[cmd.buyOrderId].userId, db.orders[cmd.sellOrderId].userId;
    var base, quote := BaseOf(cmd.symbol), QuoteOf(cmd.symbol);
    var entries := Stored(TradeDrafts(buyer, seller, base, quote, cmd.price, cmd.quantity), tradeId);
    L.StoredEffect(buyer, seller, base, quote, cmd.price, cmd.quantity, tradeId, userId, asset);
    SumAppend(db.ledger, entries, AmountFor(userId, asset));
    BalanceIsSum(db.ledger, userId, asset);
    BalanceIsSum(db.ledger + entries, userId, asset);
  }

  /** A trade draws on no reserve: it debits the buyer's quote and the seller's base once more.
      So a committed trade keeps all balances non-negative exactly when both are covered. */
  lemma TradeFunds(db: Db, cmd: ExecuteTradeCommand, tradeId: Uuid)
    requires Funded(db) && ExecuteTrade(db, cmd, tradeId).result.Ok?
    ensures Funded(ExecuteTrade(db, cmd, tradeId).db) <==> TradeCovered(db, cmd)
  {
    hide ExecuteTrade, Balance, Units, Times, BaseOf, QuoteOf;
    forall userId, asset
      ensures cmd.buyOrderId in db.orders && cmd.sellOrderId in db.orders
      ensures Balance(ExecuteTrade(db, cmd, tradeId).db.ledger, userId, asset)
           == Balance(db.ledger, userId, asset)
            + L.TradeEffectOn(db.orders[cmd.buyOrderId].userId, db.orders[cmd.sellOrderId].userId,
                              BaseOf(cmd.symbol), QuoteOf(cmd.symbol),
                              Units(cmd.quantity), Units(Times(cmd.price, cmd.quantity)), userId, asset)
    {
      TradeMoves(db, cmd, tradeId, userId, asset);
    }
    TradeMoves(db, cmd, tradeId, NIL_UUID, "");
  }

  /** A trade of a user with himself changes no balance at all. */
  lemma SelfTradeMovesNothing(db: Db, cmd: ExecuteTradeCommand, tradeId: Uuid, userId: Uuid, asset: string)
    requires ExecuteTrade(db, cmd, tradeId).result.Ok?
    requires cmd.buyOrderId in db.orders && cmd.sellOrderId in db.orders
    requires db.orders[cmd.buyOrderId].userId == db.orders[cmd.sellOrderId].userId
    ensures Balance(ExecuteTrade(db, cmd, tradeId).db.ledger, userId, asset) == Balance(db.ledger, userId, asset)
  {
    TradeMoves(db, cmd, tradeId, userId, asset);
    hide ExecuteTrade, Balance, Units, Times, BaseOf, QuoteOf;
  }

  // ---- Runs ------------------------------------------------------------------------------

  /** The one check per call that keeps balances non-negative: a call that commits is covered. */
  predicate Covered(db: Db, c: Call) {
    Perform(db, c).result.Ok? ==>
      match c
      case CallConfirm(id) => DepositCovered(db, id)
      case CallTrade(cmd, _) => TradeCovered(db, cmd)
      case _ => true
  }

  lemma CallFunds(db: Db, c: Call)
    requires Funded(db)
    ensures Funded(Perform(db, c).db) <==> Covered(db, c)
  {
    hide Units, Balance, PlaceOrder, CancelOrder, Confirm, Withdraw, ExecuteTrade, Funded, TradeCovered, DepositCovered;
    if Perform(db, c).result.Err? {
      FailureChangesNothing(db, c);
    } else {
      match c
      case CallPlace(markets, cmd, id) => PlaceKeepsFunds(db, markets, cmd, id);
      case CallCancel(id) => CancelKeepsFunds(db, id);
      case CallConfirm(id) => ConfirmFunds(db, id);
      case CallWithdraw(cmd, id) => WithdrawKeepsFunds(db, cmd, id);
      case CallTrade(cmd, id) => TradeFunds(db, cmd, id);
      case _ => SameLedger(db, c);
    }
  }

  lemma SameLedger(db: Db, c: Call)
    requires c.CallIntake? || c.CallReject?
    ensures Funded(Perform(db, c).db) <==> Funded(db)
  {
    hide Balance, Units;
  }

  ghost function IsFunded(): Db -> bool {
    (db: Db) => Funded(db)
  }

  ghost function IsCovered(): (Db, Call) -> bool {
    (db: Db, c: Call) => Covered(db, c)
  }

  /** Served one after the other, any calls keep every balance non-negative throughout exactly
      when each confirmation and each trade among them is covered. */
  lemma RunKeepsFunds(db: Db, calls: seq<Call>)
    requires Funded(db)
    ensures (forall k :: 0 <= k <= |calls| ==> Funded(PerformAll(db, calls[..k])))
        <==> (forall k :: 0 <= k < |calls| ==> Covered(PerformAll(db, calls[..k]), calls[k]))
  {
    hide Funded, Covered, PerformAll, Perform;
    var good, allowed := IsFunded(), IsCovered();
    forall d: Db, c: Call | good(d)
      ensures good(Perform(d, c).db) <==> allowed(d, c)
    {
      CallFunds(d, c);
    }
    AlwaysIff(db, calls, good, allowed);
  }
}
