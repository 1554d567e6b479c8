/**
 Where every ledger amount comes from.  After every run from empty tables the entries of each type
 and reference, user by user and asset by asset, are what the row they refer to stands for; trade
 rows name the orders and users they moved; and no on-chain transaction is credited twice.
 */
module Provenance {
  import opened Domain
  import opened Numeric
  import opened Records
  import opened Transactions
  import opened Answers
  import L = LedgerRun
  import C = Conservation

  /** Weighs an entry of this type and reference, for this user in this asset, by its amount. */
  ghost function WriteOf(t: EntryType, ref: Uuid, userId: Uuid, asset: string): Entry -> int {
    (e: Entry) =>
      if e.entryType == t && e.refId == ref && e.userId == userId && e.asset == asset then e.amount else 0
  }

  ghost function WithdrawnBy(id: Uuid, userId: Uuid, asset: string): WithdrawalRow -> int {
    (w: WithdrawalRow) => if w.id == id && w.userId == userId && w.asset == asset then w.amount else 0
  }

  /** What a trade row moves for a user in an asset. */
  ghost function MovedBy(id: Uuid, userId: Uuid, asset: string): TradeRow -> int {
    (r: TradeRow) =>
      if r.id == id
      then L.TradeEffectOn(r.buyUserId, r.sellUserId, BaseOf(r.symbol), QuoteOf(r.symbol),
                           r.quantity, MulUnits(r.price, r.quantity), userId, asset)
      else 0
  }

  /** What the rows say the entries of this type and reference must add up to. */
  ghost function Owed(db: Db, t: EntryType, ref: Uuid, userId: Uuid, asset: string): int {
    match t
    case EntryDeposit =>
      if ref in db.deposits && db.deposits[ref].status == DepositConfirmed
         && db.deposits[ref].userId == userId && db.deposits[ref].asset == asset
      then db.deposits[ref].amount else 0
    case EntryWithdraw => -Sum(db.withdrawals, WithdrawnBy(ref, userId, asset))
    case EntryTrade => Sum(db.trades, MovedBy(ref, userId, asset))
    case EntryReserve =>
      if ref in db.orders && OwedOn(db.orders[ref], userId, asset) then -WholeReserve(db.orders[ref]) else 0
    case EntryRelease =>
      if ref in db.orders && OwedOn(db.orders[ref], userId, asset) && db.orders[ref].status == StatusCancelled
         && UnfilledReserve(db.orders[ref]) > 0
      then UnfilledReserve(db.orders[ref]) else 0
  }

  ghost predicate OwedOn(row: OrderRow, userId: Uuid, asset: string) {
    row.userId == userId && AssetOf(row.symbol, row.side) == asset
  }

  /** The reserve that the stored row stands for. */
  function WholeReserve(row: OrderRow): int {
    match row.side
    case Buy => MulUnits(row.price, row.quantity)
    case Sell => row.quantity
  }

  // ---- More than ten decimals ------------------------------------------------------------

  /** What a call writes beside its stored row: only a placement or a trade of more than ten
      decimals does, because the row stores rounded factors of the amount. */
  ghost function Beside(db: Db, c: Call, t: EntryType, ref: Uuid, userId: Uuid, asset: string): int {
    if Perform(db, c).result.Err? then 0
    else match c
      case CallPlace(_, cmd, id) =>
        if t == EntryReserve && ref == id && cmd.side.Some? && cmd.userId == userId
           && AssetOf(cmd.symbol, cmd.side.value) == asset
        then -L.Drift(cmd, cmd.side.value) else 0
      case CallTrade(cmd, id) =>
        if t == EntryTrade && ref == id && cmd.buyOrderId in db.orders && cmd.sellOrderId in db.orders
        then L.TradeEffectOn(db.orders[cmd.buyOrderId].userId, db.orders[cmd.sellOrderId].userId,
                             BaseOf(cmd.symbol), QuoteOf(cmd.symbol), 0, TradeDrift(cmd), userId, asset)
        else 0
      case _ => 0
  }

  /** How much more the exact amount of a trade is than the product of its stored columns. */
  function TradeDrift(cmd: ExecuteTradeCommand): int {
    Units(Times(cmd.price, cmd.quantity)) - MulUnits(Units(cmd.price), Units(cmd.quantity))
  }

  lemma NoTradeDrift(cmd: ExecuteTradeCommand)
    requires ScaleTen(cmd.price) && ScaleTen(cmd.quantity)
    ensures TradeDrift(cmd) == 0
  {
    MulUnitsOfScaleTen(cmd.price, cmd.quantity);
    UnitsOfDec(Units(Times(cmd.price, cmd.quantity)));
    hide Units, Times, Dec, ScaleTen;
  }

  ghost function RunBeside(db: Db, calls: seq<Call>, t: EntryType, ref: Uuid, userId: Uuid, asset: string): int {
    if calls == [] then 0
    else
      var k := |calls| - 1;
      RunBeside(db, calls[..k], t, ref, userId, asset)
      + Beside(PerformAll(db, calls[..k]), calls[k], t, ref, userId, asset)
  }

  /** Prices and quantities of at most ten decimals, in placements that are buys and in trades. */
  ghost predicate AtScale(c: Call) {
    && L.ScaleTenCall(c)
    && (c.CallTrade? ==> ScaleTen(c.trade.price) && ScaleTen(c.trade.quantity))
  }

  lemma {:induction false} NothingBeside(db: Db, calls: seq<Call>, t: EntryType, ref: Uuid, userId: Uuid, asset: string)
    requires forall i :: 0 <= i < |calls| ==> AtScale(calls[i])
    ensures RunBeside(db, calls, t, ref, userId, asset) == 0
  {
    hide Perform, L.Drift, ScaleTen, TradeDrift, BaseOf, QuoteOf;
    if calls != [] {
      var k := |calls| - 1;
      NothingBeside(db, calls[..k], t, ref, userId, asset);
      assert AtScale(calls[k]);
      if calls[k].CallPlace? && calls[k].place.side.Some? {
        L.ReservedUnits(calls[k].place, calls[k].place.side.value);
      } else if calls[k].CallTrade? {
        NoTradeDrift(calls[k].trade);
      }
    }
  }

  // ---- Call by call ----------------------------------------------------------------------

  ghost predicate Accounted(db: Db, t: EntryType, ref: Uuid, userId: Uuid, asset: string, beside: int) {
    Sum(db.ledger, WriteOf(t, ref, userId, asset)) == Owed(db, t, ref, userId, asset) + beside
  }

  lemma OneWrite(ledger: seq<Entry>, e: Entry, t: EntryType, ref: Uuid, userId: Uuid, asset: string)
    ensures Sum(ledger + [e], WriteOf(t, ref, userId, asset))
         == Sum(ledger, WriteOf(t, ref, userId, asset)) + WriteOf(t, ref, userId, asset)(e)
  {
    SumAppend(ledger, [e], WriteOf(t, ref, userId, asset));
    SumOne(e, WriteOf(t, ref, userId, asset));
  }

  lemma PlaceAccounts(db: Db, markets: set<string>, cmd: PlaceOrderCommand, id: Uuid,
                      t: EntryType, ref: Uuid, userId: Uuid, asset: string, beside: int)
    requires PlaceOrder(db, markets, cmd, id).result.Ok? && Accounted(db, t, ref, userId, asset, beside)
    ensures Accounted(PlaceOrder(db, markets, cmd, id).db, t, ref, userId, asset,
                      beside + Beside(db, CallPlace(markets, cmd, id), t, ref, userId, asset))
  {
    hide PlaceOrder, Units, Mul, MulUnits, BaseOf, QuoteOf, Sum;
    PlaceWrites(db, markets, cmd, id);
    L.PlaceEffect(db, markets, cmd, id);
    var side := cmd.side.value;
    var debit := -Units(AmountOf(side, cmd.price, cmd.quantity));
    OneWrite(db.ledger, Entry(cmd.userId, AssetOf(cmd.symbol, side), debit, EntryReserve, id), t, ref, userId, asset);
    DriftIs(cmd, side);
    hide AmountOf, L.Drift;
  }

  lemma DriftIs(cmd: PlaceOrderCommand, side: Side)
    ensures -Units(AmountOf(side, cmd.price, cmd.quantity))
         == -WholeReserve(OrderRow(cmd.userId, cmd.symbol, side, Units(cmd.price), Units(cmd.quantity), 0, StatusOpen))
            - L.Drift(cmd, side)
  {
    UnitsOfNeg(AmountOf(side, cmd.price, cmd.quantity));
    hide Units, Mul, MulUnits, Neg;
  }

  lemma CancelAccounts(db: Db, id: Uuid, t: EntryType, ref: Uuid, userId: Uuid, asset: string, beside: int)
    requires CancelOrder(db, id).result.Ok? && Accounted(db, t, ref, userId, asset, beside)
    ensures Accounted(CancelOrder(db, id).db, t, ref, userId, asset, beside)
  {
    hide CancelOrder, MulUnits, BaseOf, QuoteOf, Sum, UnfilledReserve;
    CancelWritesRelease(db, id);
    CancelAnswers(db, id);
    var row := db.orders[id];
    SameReserve(row);
    if UnfilledReserve(row) > 0 {
      OneWrite(db.ledger, Entry(row.userId, AssetOf(row.symbol, row.side), UnfilledReserve(row), EntryRelease, id),
               t, ref, userId, asset);
    } else {
      assert db.ledger + [] == db.ledger;
    }
    hide SplitSymbol, AssetOf;
  }

  lemma SameReserve(row: OrderRow)
    ensures var after := row.(status := StatusCancelled);
            UnfilledReserve(after) == UnfilledReserve(row) && WholeReserve(after) == WholeReserve(row)
  {
  }

  lemma TradeAccounts(db: Db, cmd: ExecuteTradeCommand, id: Uuid,
                      t: EntryType, ref: Uuid, userId: Uuid, asset: string, beside: int)
    requires ExecuteTrade(db, cmd, id).result.Ok? && Accounted(db, t, ref, userId, asset, beside)
    ensures Accounted(ExecuteTrade(db, cmd, id).db, t, ref, userId, asset,
                      beside + Beside(db, CallTrade(cmd, id), t, ref, userId, asset))
  {
    hide ExecuteTrade, Units, Times, Dec, MulUnits, BaseOf, QuoteOf, Sum, L.TradeEffectOn, NextStatus, UnfilledReserve;
    TradeWritesAll(db, cmd, id);
    var buy, sell := db.orders[cmd.buyOrderId], db.orders[cmd.sellOrderId];
    var db' := ExecuteTrade(db, cmd, id).db;
    var entries := db'.ledger[|db.ledger|..];
    assert db'.ledger == db.ledger + entries;
    SumAppend(db.ledger, entries, WriteOf(t, ref, userId, asset));
    if t == EntryTrade {
      TradeEntriesMove(db, cmd, id, entries, ref, userId, asset);
      SumAppend(db.trades, [db'.trades[|db.trades|]], MovedBy(ref, userId, asset));
      SumOne(db'.trades[|db.trades|], MovedBy(ref, userId, asset));
      assert db'.trades == db.trades + [db'.trades[|db.trades|]];
    } else {
      OtherType(entries, t, ref, userId, asset);
      if t == EntryReserve || t == EntryRelease {
        TradeKeepsOwed(db, cmd, id, t, ref, userId, asset);
      }
    }
    hide WriteOf, MovedBy;
  }

  lemma OtherType(entries: seq<Entry>, t: EntryType, ref: Uuid, userId: Uuid, asset: string)
    requires forall i :: 0 <= i < |entries| ==> entries[i].entryType != t
    ensures Sum(entries, WriteOf(t, ref, userId, asset)) == 0
  {
    if entries != [] {
      OtherType(entries[..|entries| - 1], t, ref, userId, asset);
    }
  }

  /** The entries of a trade and its row move the same, but for the drift. */
  lemma TradeEntriesMove(db: Db, cmd: ExecuteTradeCommand, id: Uuid, entries: seq<Entry>,
                         ref: Uuid, userId: Uuid, asset: string)
    requires cmd.buyOrderId in db.orders && cmd.sellOrderId in db.orders
    requires var buy, sell := db.orders[cmd.buyOrderId], db.orders[cmd.sellOrderId];
             var base, quote := BaseOf(cmd.symbol), QuoteOf(cmd.symbol);
             var quantity, amount := Units(cmd.quantity), Units(Times(cmd.price, cmd.quantity));
             entries == [Entry(buy.userId, base, quantity, EntryTrade, id),
                         Entry(buy.userId, quote, -amount, EntryTrade, id),
                         Entry(sell.userId, base, -quantity, EntryTrade, id),
                         Entry(sell.userId, quote, amount, EntryTrade, id)]
    ensures var buy, sell := db.orders[cmd.buyOrderId], db.orders[cmd.sellOrderId];
            var row := TradeRow(id, cmd.symbol, cmd.buyOrderId, cmd.sellOrderId, buy.userId, sell.userId,
                                Units(cmd.price), Units(cmd.quantity));
            Sum(entries, WriteOf(EntryTrade, ref, userId, asset))
            == MovedBy(ref, userId, asset)(row)
               + (if ref == id
                  then L.TradeEffectOn(buy.userId, sell.userId, BaseOf(cmd.symbol), QuoteOf(cmd.symbol), 0,
                                       TradeDrift(cmd), userId, asset)
                  else 0)
  {
    hide Units, Times, MulUnits, BaseOf, QuoteOf;
    L.FourAmounts(entries, WriteOf(EntryTrade, ref, userId, asset));
  }

  lemma TradeKeepsOwed(db: Db, cmd: ExecuteTradeCommand, id: Uuid, t: EntryType, ref: Uuid, userId: Uuid, asset: string)
    requires ExecuteTrade(db, cmd, id).result.Ok? && (t == EntryReserve || t == EntryRelease)
    ensures Owed(ExecuteTrade(db, cmd, id).db, t, ref, userId, asset) == Owed(db, t, ref, userId, asset)
  {
    hide ExecuteTrade, Units, Times, Dec, MulUnits, BaseOf, QuoteOf, Sum;
    TradeWritesAll(db, cmd, id);
    TradeAnswers(db, cmd, id);
    hide SplitSymbol;
  }

  lemma OtherAccounts(db: Db, c: Call, t: EntryType, ref: Uuid, userId: Uuid, asset: string, beside: int)
    requires c.CallIntake? || c.CallConfirm? || c.CallReject? || c.CallWithdraw?
    requires Perform(db, c).result.Ok? && Accounted(db, t, ref, userId, asset, beside)
    ensures Accounted(Perform(db, c).db, t, ref, userId, asset, beside)
  {
    hide Intake, Confirm, Reject, Withdraw, Units, MulUnits, BaseOf, QuoteOf, Sum;
    match c
    case CallIntake(cmd, id) =>
      IntakeAnswers(db, cmd, id);
      IntakeWrites(db, cmd, id);
    case CallConfirm(id) =>
      ConfirmAnswers(db, id);
      ConfirmWrites(db, id);
      var d := db.deposits[id];
      OneWrite(db.ledger, Entry(d.userId, d.asset, d.amount, EntryDeposit, id), t, ref, userId, asset);
    case CallReject(id) => RejectAnswers(db, id);
    case CallWithdraw(cmd, id) =>
      WithdrawWrites(db, cmd, id);
      OneWrite(db.ledger, Entry(cmd.userId, cmd.asset, -Units(cmd.amount), EntryWithdraw, id), t, ref, userId, asset);
      var w := WithdrawalRow(id, cmd.userId, cmd.asset, Units(cmd.amount));
      SumAppend(db.withdrawals, [w], WithdrawnBy(ref, userId, asset));
      SumOne(w, WithdrawnBy(ref, userId, asset));
  }

  lemma CallAccounts(db: Db, c: Call, t: EntryType, ref: Uuid, userId: Uuid, asset: string, beside: int)
    requires Accounted(db, t, ref, userId, asset, beside)
    ensures Accounted(Perform(db, c).db, t, ref, userId, asset, beside + Beside(db, c, t, ref, userId, asset))
  {
    if Perform(db, c).result.Err? {
      FailureChangesNothing(db, c);
    } else {
      hide PlaceOrder, CancelOrder, ExecuteTrade, Intake, Confirm, Reject, Withdraw, Accounted;
      match c
      case CallPlace(markets, cmd, id) => PlaceAccounts(db, markets, cmd, id, t, ref, userId, asset, beside);
      case CallCancel(id) => CancelAccounts(db, id, t, ref, userId, asset, beside);
      case CallTrade(cmd, id) => TradeAccounts(db, cmd, id, t, ref, userId, asset, beside);
      case _ => OtherAccounts(db, c, t, ref, userId, asset, beside);
    }
  }

  /** The provenance of the ledger: over every run from empty tables, the entries of every type and
      reference add up, for every user and asset, to what their row stands for, and to what was
      written beside it for more than ten decimals. */
  lemma {:induction false} RunAccounts(db: Db, calls: seq<Call>, t: EntryType, ref: Uuid, userId: Uuid, asset: string)
    requires L.Blank(db)
    ensures Accounted(PerformAll(db, calls), t, ref, userId, asset, RunBeside(db, calls, t, ref, userId, asset))
  {
    hide Perform, Beside;
    if calls != [] {
      var k := |calls| - 1;
      RunAccounts(db, calls[..k], t, ref, userId, asset);
      hide Accounted;
      CallAccounts(PerformAll(db, calls[..k]), calls[k], t, ref, userId, asset,
                   RunBeside(db, calls[..k], t, ref, userId, asset));
    }
  }

  // ---- Trade rows ------------------------------------------------------------------------

  /** The row names a BUY order of its buyer and a SELL order of its seller. */
  ghost predicate NamesOrders(db: Db, r: TradeRow) {
    && r.buyOrderId in db.orders && r.sellOrderId in db.orders
    && db.orders[r.buyOrderId].side == Buy && db.orders[r.buyOrderId].userId == r.buyUserId
    && db.orders[r.sellOrderId].side == Sell && db.orders[r.sellOrderId].userId == r.sellUserId
  }

  ghost predicate RowsName(db: Db) {
    forall i :: 0 <= i < |db.trades| ==> NamesOrders(db, db.trades[i])
  }

  /** Rows keep their side and user. */
  ghost predicate SameOwners(db: Db, db': Db) {
    forall id :: id in db.orders ==>
      id in db'.orders && db'.orders[id].side == db.orders[id].side && db'.orders[id].userId == db.orders[id].userId
  }

  lemma RowsStay(db: Db, db': Db)
    requires RowsName(db) && SameOwners(db, db') && db'.trades == db.trades
    ensures RowsName(db')
  {
    forall i | 0 <= i < |db.trades|
      ensures NamesOrders(db', db.trades[i])
    {
      assert NamesOrders(db, db.trades[i]);
    }
  }

  lemma CallNames(db: Db, c: Call)
    requires RowsName(db)
    ensures RowsName(Perform(db, c).db)
  {
    if Perform(db, c).result.Err? {
      FailureChangesNothing(db, c);
    } else {
      var db' := Perform(db, c).db;
      match c
      case CallTrade(cmd, id) =>
        TradeNames(db, cmd, id);
      case _ =>
        OthersKeepTrades(db, c);
        hide Perform;
        RowsStay(db, db');
    }
  }

  lemma OthersKeepTrades(db: Db, c: Call)
    requires !c.CallTrade? && Perform(db, c).result.Ok?
    ensures SameOwners(db, Perform(db, c).db) && Perform(db, c).db.trades == db.trades
  {
    hide Units, Balance, ReserveAmount, Unreserved, ReserveAsset, SplitSymbol, Neg, Dec;
  }

  lemma TradeNames(db: Db, cmd: ExecuteTradeCommand, id: Uuid)
    requires RowsName(db) && ExecuteTrade(db, cmd, id).result.Ok?
    ensures RowsName(ExecuteTrade(db, cmd, id).db)
  {
    hide ExecuteTrade, Units, Times, Dec, BaseOf, QuoteOf, NextStatus;
    TradeWritesAll(db, cmd, id);
    TradeAnswers(db, cmd, id);
    var db' := ExecuteTrade(db, cmd, id).db;
    hide SplitSymbol;
    assert SameOwners(db, db');
    RowsStay(db, db'.(trades := db.trades));
  }

  /** Over every run, every trade row names a BUY order of its buyer and a SELL order of its seller. */
  lemma {:induction false} RunNames(db: Db, calls: seq<Call>)
    requires L.Blank(db)
    ensures RowsName(PerformAll(db, calls))
  {
    hide Perform, NamesOrders;
    if calls != [] {
      var k := |calls| - 1;
      RunNames(db, calls[..k]);
      CallNames(PerformAll(db, calls[..k]), calls[k]);
    }
  }

  /** Weighs a trade row by its quantity if it names this order. */
  ghost function QuantityOn(id: Uuid): TradeRow -> int {
    (r: TradeRow) => if r.buyOrderId == id || r.sellOrderId == id then r.quantity else 0
  }

  ghost predicate FilledByRows(db: Db, id: Uuid) {
    if id in db.orders then db.orders[id].filled == Sum(db.trades, QuantityOn(id)) >= 0
    else Sum(db.trades, QuantityOn(id)) == 0
  }

  lemma CallFillsByRows(db: Db, c: Call, id: Uuid)
    requires L.PositiveCall(c) && FilledByRows(db, id)
    ensures FilledByRows(Perform(db, c).db, id)
  {
    if Perform(db, c).result.Err? {
      FailureChangesNothing(db, c);
    } else if c.CallTrade? {
      TradeFillsByRows(db, c.trade, c.id, id);
    } else {
      OthersKeepFills(db, c, id);
      hide Perform;
    }
  }

  lemma OthersKeepFills(db: Db, c: Call, id: Uuid)
    requires !c.CallTrade? && Perform(db, c).result.Ok?
    ensures var db' := Perform(db, c).db;
            && db'.trades == db.trades
            && (id in db.orders ==> id in db'.orders && db'.orders[id].filled == db.orders[id].filled)
            && (id !in db.orders && id in db'.orders ==> db'.orders[id].filled == 0)
  {
    hide Units, Balance, ReserveAmount, Unreserved, ReserveAsset, SplitSymbol, Neg, Dec;
  }

  lemma TradeFillsByRows(db: Db, cmd: ExecuteTradeCommand, tradeId: Uuid, id: Uuid)
    requires Units(cmd.quantity) > 0 && FilledByRows(db, id) && ExecuteTrade(db, cmd, tradeId).result.Ok?
    ensures FilledByRows(ExecuteTrade(db, cmd, tradeId).db, id)
  {
    hide ExecuteTrade, Units, Times, Dec, BaseOf, QuoteOf, NextStatus, Sum;
    TradeWritesAll(db, cmd, tradeId);
    var db' := ExecuteTrade(db, cmd, tradeId).db;
    var row := db'.trades[|db.trades|];
    assert db'.trades == db.trades + [row];
    SumAppend(db.trades, [row], QuantityOn(id));
    SumOne(row, QuantityOn(id));
    if id == cmd.buyOrderId || id == cmd.sellOrderId {
      PositiveIsNotNegative(cmd.quantity);
      UnitsShift(db.orders[id].filled, cmd.quantity);
    }
  }

  lemma PositiveIsNotNegative(r: real)
    requires Units(r) > 0
    ensures r >= 0.0
  {
  }

  /** Over every run with positive stored quantities, what is filled of an order is the sum of the
      trade rows that name it. */
  lemma {:induction false} RunFillsByRows(db: Db, calls: seq<Call>, id: Uuid)
    requires L.Blank(db) && forall i :: 0 <= i < |calls| ==> L.PositiveCall(calls[i])
    ensures FilledByRows(PerformAll(db, calls), id)
  {
    hide Perform;
    if calls != [] {
      var k := |calls| - 1;
      RunFillsByRows(db, calls[..k], id);
      hide FilledByRows;
      CallFillsByRows(PerformAll(db, calls[..k]), calls[k], id);
    }
  }

  // ---- One transaction, one deposit ------------------------------------------------------

  ghost predicate HashesDiffer(db: Db) {
    forall a, b :: a in db.deposits && b in db.deposits && db.deposits[a].txHash == db.deposits[b].txHash ==> a == b
  }

  lemma CallKeepsHashes(db: Db, c: Call)
    requires HashesDiffer(db)
    ensures HashesDiffer(Perform(db, c).db)
  {
    if Perform(db, c).result.Err? {
      FailureChangesNothing(db, c);
    } else {
      match c
      case CallIntake(cmd, id) =>
        hide Intake, Units;
        IntakeAnswers(db, cmd, id);
        IntakeWrites(db, cmd, id);
      case CallConfirm(id) =>
        hide Confirm;
        ConfirmWrites(db, id);
      case CallReject(id) =>
        hide Reject;
        RejectAnswers(db, id);
      case _ =>
        C.DepositsChangeOnlyInDeposits(db, c);
        hide Perform;
    }
  }

  lemma {:induction false} RunHashesDiffer(db: Db, calls: seq<Call>)
    requires L.Blank(db)
    ensures HashesDiffer(PerformAll(db, calls))
  {
    hide Perform;
    if calls != [] {
      var k := |calls| - 1;
      RunHashesDiffer(db, calls[..k]);
      CallKeepsHashes(PerformAll(db, calls[..k]), calls[k]);
    }
  }

  /** The entry credits a deposit of this on-chain transaction. */
  ghost predicate CreditsHash(db: Db, hash: string, e: Entry) {
    e.entryType == EntryDeposit && e.refId in db.deposits && db.deposits[e.refId].txHash == hash
  }

  ghost function CreditsOf(db: Db, hash: string): Entry -> int {
    (e: Entry) => if CreditsHash(db, hash, e) then 1 else 0
  }

  ghost function CreditedOf(db: Db, hash: string): Entry -> int {
    (e: Entry) => if CreditsHash(db, hash, e) then e.amount else 0
  }

  /** After every run at most one entry credits an on-chain transaction, and with the amount of its
      one deposit: exactly if that deposit is confirmed. */
  lemma RunCreditsHashOnce(db: Db, calls: seq<Call>, hash: string)
    requires L.Blank(db)
    ensures var after := PerformAll(db, calls);
            && Sum(after.ledger, CreditsOf(after, hash)) <= 1
            && forall id :: id in after.deposits && after.deposits[id].txHash == hash ==>
                 var confirmed := after.deposits[id].status == DepositConfirmed;
                 && Sum(after.ledger, CreditsOf(after, hash)) == (if confirmed then 1 else 0)
                 && Sum(after.ledger, CreditedOf(after, hash)) == (if confirmed then after.deposits[id].amount else 0)
  {
    hide PerformAll;
    var after := PerformAll(db, calls);
    RunHashesDiffer(db, calls);
    if id :| id in after.deposits && after.deposits[id].txHash == hash {
      C.RunKeepsCredit(db, calls, id);
      HashIsId(after, after.ledger, hash, id);
    } else {
      NoHash(after, after.ledger, hash);
    }
  }

  lemma {:induction false} HashIsId(db: Db, ledger: seq<Entry>, hash: string, id: Uuid)
    requires HashesDiffer(db) && id in db.deposits && db.deposits[id].txHash == hash
    ensures Sum(ledger, CreditsOf(db, hash)) == Sum(ledger, L.CountOf(id, EntryDeposit))
    ensures Sum(ledger, CreditedOf(db, hash)) == Sum(ledger, C.CreditOf(id))
  {
    if ledger != [] {
      HashIsId(db, ledger[..|ledger| - 1], hash, id);
      var e := ledger[|ledger| - 1];
      assert CreditsHash(db, hash, e) <==> e.entryType == EntryDeposit && e.refId == id;
    }
  }

  lemma {:induction false} NoHash(db: Db, ledger: seq<Entry>, hash: string)
    requires forall id :: id in db.deposits ==> db.deposits[id].txHash != hash
    ensures Sum(ledger, CreditsOf(db, hash)) == 0
  {
    if ledger != [] {
      NoHash(db, ledger[..|ledger| - 1], hash);
    }
  }
}
