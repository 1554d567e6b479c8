/**
 Conservation of every asset, over every sequence of service calls: what the ledger holds in
 total is what was credited by confirmed deposits, less what was withdrawn, less the reserves
 still held for orders, less what placements of more than ten decimals reserved beside their
 rows.  Trades only move it between users.
 */
module Conservation {
  import opened Domain
  import opened Numeric
  import opened Records
  import opened Transactions
  import opened LedgerRun

  // ---- Sums over a table -----------------------------------------------------------------

  /** The list names every key of the table exactly once. */
  ghost predicate Listed<V>(ids: seq<Uuid>, m: map<Uuid, V>) {
    && (forall id :: id in m <==> id in ids)
    && (forall i, j :: 0 <= i < j < |ids| ==> ids[i] != ids[j])
  }

  ghost function At<V>(m: map<Uuid, V>, f: V -> int): Uuid -> int {
    (id: Uuid) => if id in m then f(m[id]) else 0
  }

  ghost function TableSum<V>(ids: seq<Uuid>, m: map<Uuid, V>, f: V -> int): int {
    Sum(ids, At(m, f))
  }

  lemma {:induction false} TableSame<V>(ids: seq<Uuid>, m: map<Uuid, V>, m': map<Uuid, V>, f: V -> int)
    requires forall id :: id in ids ==> id in m && id in m' && f(m[id]) == f(m'[id])
    ensures TableSum(ids, m, f) == TableSum(ids, m', f)
  {
    if ids != [] {
      TableSame(ids[..|ids| - 1], m, m', f);
    }
  }

  lemma TableInsert<V>(ids: seq<Uuid>, m: map<Uuid, V>, id: Uuid, v: V, f: V -> int)
    requires Listed(ids, m) && id !in m
    ensures Listed(ids + [id], m[id := v])
    ensures TableSum(ids + [id], m[id := v], f) == TableSum(ids, m, f) + f(v)
  {
    SumAppend(ids, [id], At(m[id := v], f));
    SumOne(id, At(m[id := v], f));
    TableSame(ids, m, m[id := v], f);
  }

  lemma TableUpdate<V>(ids: seq<Uuid>, m: map<Uuid, V>, id: Uuid, v: V, f: V -> int)
    requires Listed(ids, m) && id in m
    ensures Listed(ids, m[id := v])
    ensures TableSum(ids, m[id := v], f) == TableSum(ids, m, f) - f(m[id]) + f(v)
  {
    var k :| 0 <= k < |ids| && ids[k] == id;
    var a, b := At(m, f), At(m[id := v], f);
    SumAround(ids, k, a);
    SumAround(ids, k, b);
    TableSame(ids[..k], m, m[id := v], f);
    TableSame(ids[k + 1..], m, m[id := v], f);
  }

  // ---- The identity ----------------------------------------------------------------------

  ghost function CreditedIn(asset: string): DepositRow -> int {
    (d: DepositRow) => if d.asset == asset && d.status == DepositConfirmed then d.amount else 0
  }

  ghost function HeldIn(asset: string): OrderRow -> int {
    (row: OrderRow) => if ReserveAsset(row) == asset then Held(row) else 0
  }

  ghost function WithdrawnIn(asset: string): WithdrawalRow -> int {
    (w: WithdrawalRow) => if w.asset == asset then w.amount else 0
  }

  ghost predicate TablesOk(db: Db) {
    Listed(db.created, db.orders) && Listed(db.intaken, db.deposits)
  }

  /** The drift that a call adds to an asset: none unless it is a placement that commits. */
  function DriftIn(db: Db, c: Call, asset: string): int {
    if c.CallPlace? && c.place.side.Some? && Perform(db, c).result.Ok?
       && ReserveAsset(NewRow(c.place, c.place.side.value)) == asset
    then Drift(c.place, c.place.side.value) else 0
  }

  function RunDriftIn(db: Db, calls: seq<Call>, asset: string): int {
    if calls == [] then 0
    else
      var k := |calls| - 1;
      RunDriftIn(db, calls[..k], asset) + DriftIn(PerformAll(db, calls[..k]), calls[k], asset)
  }

  ghost predicate Balanced(db: Db, asset: string, drift: int) {
    Sum(db.ledger, AmountIn(asset))
    == TableSum(db.intaken, db.deposits, CreditedIn(asset))
       - Sum(db.withdrawals, WithdrawnIn(asset))
       - TableSum(db.created, db.orders, HeldIn(asset))
       - drift
  }

  lemma PlaceBalanced(db: Db, markets: set<string>, cmd: PlaceOrderCommand, id: Uuid, asset: string, drift: int)
    requires TablesOk(db) && Balanced(db, asset, drift)
    requires PlaceOrder(db, markets, cmd, id).result.Ok?
    ensures var r := PlaceOrder(db, markets, cmd, id);
            TablesOk(r.db) && Balanced(r.db, asset, drift + DriftIn(db, CallPlace(markets, cmd, id), asset))
  {
    hide Units, ReserveUnits, ReserveAmount, TableSum, ReserveAsset, Neg, PlaceOrder;
    PlaceEffect(db, markets, cmd, id);
    var side := cmd.side.value;
    var row := NewRow(cmd, side);
    var e := Entry(cmd.userId, ReserveAsset(row), Units(Neg(ReserveAmount(side, cmd.price, cmd.quantity))),
        EntryReserve, id);
    TableInsert(db.created, db.orders, id, row, HeldIn(asset));
    SumAppend(db.ledger, [e], AmountIn(asset));
    SumOne(e, AmountIn(asset));
  }

  lemma CancelBalanced(db: Db, id: Uuid, asset: string, drift: int)
    requires TablesOk(db) && Balanced(db, asset, drift) && CancelOrder(db, id).result.Ok?
    ensures TablesOk(CancelOrder(db, id).db) && Balanced(CancelOrder(db, id).db, asset, drift)
  {
    var row := db.orders[id];
    var row' := row.(status := StatusCancelled);
    CancelEffect(db, id);
    CancelledHeld(row);
    ReleaseIn(row, id, asset);
    SameAsset(row, row');
    hide CancelOrder, TablesOk, Balanced, Held, ReserveAsset, ReleaseEntries, Released;
    ReleaseBalanced(db, id, row', ReleaseEntries(row, id), asset, drift);
  }

  /** Entries of as much as an order's row is held for less keep the balance. */
  lemma ReleaseBalanced(db: Db, id: Uuid, row: OrderRow, entries: seq<Entry>, asset: string, drift: int)
    requires TablesOk(db) && Balanced(db, asset, drift) && id in db.orders
    requires Sum(entries, AmountIn(asset)) == HeldIn(asset)(db.orders[id]) - HeldIn(asset)(row)
    ensures var db' := db.(ledger := db.ledger + entries, orders := db.orders[id := row]);
            TablesOk(db') && Balanced(db', asset, drift)
  {
    hide HeldIn, AmountIn, TableSum;
    TableUpdate(db.created, db.orders, id, row, HeldIn(asset));
    SumAppend(db.ledger, entries, AmountIn(asset));
  }

  lemma ReleaseIn(row: OrderRow, id: Uuid, asset: string)
    ensures Sum(ReleaseEntries(row, id), AmountIn(asset)) == if ReserveAsset(row) == asset then Released(row) else 0
  {
    hide ReserveUnits, ReserveAsset;
    if ReleaseEntries(row, id) != [] {
      SumOne(ReleaseEntries(row, id)[0], AmountIn(asset));
    }
  }

  lemma SameAsset(a: OrderRow, b: OrderRow)
    requires a.side == b.side && a.symbol == b.symbol
    ensures ReserveAsset(a) == ReserveAsset(b)
  {
  }

  lemma TradeBalanced(db: Db, cmd: ExecuteTradeCommand, tradeId: Uuid, asset: string, drift: int)
    requires TablesOk(db) && Balanced(db, asset, drift) && ExecuteTrade(db, cmd, tradeId).result.Ok?
    ensures TablesOk(ExecuteTrade(db, cmd, tradeId).db) && Balanced(ExecuteTrade(db, cmd, tradeId).db, asset, drift)
  {
    hide ExecuteTrade, Fill, TradeDrafts, Stored, TableSum, HeldIn, DraftSum;
    TradeEffect(db, cmd, tradeId);
    var b, s := cmd.buyOrderId, cmd.sellOrderId;
    var buy, sell := db.orders[b], db.orders[s];
    var buy', sell' := Fill(buy, buy, cmd.quantity), Fill(sell, sell, cmd.quantity);
    var drafts := TradeDrafts(buy.userId, sell.userId, BaseOf(cmd.symbol), QuoteOf(cmd.symbol), cmd.price,
        cmd.quantity);
    TradeEntriesZeroSum(buy.userId, sell.userId, BaseOf(cmd.symbol), QuoteOf(cmd.symbol), cmd.price, cmd.quantity,
        tradeId, asset);
    SumAppend(db.ledger, Stored(drafts, tradeId), AmountIn(asset));
    FillHeld(buy, cmd.quantity, asset);
    FillHeld(sell, cmd.quantity, asset);
    TableUpdate(db.created, db.orders, b, buy', HeldIn(asset));
    TableUpdate(db.created, db.orders[b := buy'], s, sell', HeldIn(asset));
  }

  lemma FillHeld(row: OrderRow, quantity: real, asset: string)
    requires !IsTerminal(row.status)
    ensures HeldIn(asset)(Fill(row, row, quantity)) == HeldIn(asset)(row)
  {
    FillRow(row, quantity);
    hide Fill, MulUnits, Units;
  }

  lemma DepositBalanced(db: Db, c: Call, asset: string, drift: int)
    requires TablesOk(db) && Balanced(db, asset, drift) && Perform(db, c).result.Ok?
    requires c.CallIntake? || c.CallConfirm? || c.CallReject?
    ensures TablesOk(Perform(db, c).db) && Balanced(Perform(db, c).db, asset, drift)
  {
    hide TableSum, Units;
    var db' := Perform(db, c).db;
    if c.CallIntake? {
      TableInsert(db.intaken, db.deposits, c.id, db'.deposits[c.id], CreditedIn(asset));
    } else {
      TableUpdate(db.intaken, db.deposits, c.id, db'.deposits[c.id], CreditedIn(asset));
      if c.CallConfirm? {
        var d := db.deposits[c.id];
        var e := Entry(d.userId, d.asset, d.amount, EntryDeposit, c.id);
        SumAppend(db.ledger, [e], AmountIn(asset));
        SumOne(e, AmountIn(asset));
      }
    }
  }

  lemma WithdrawBalanced(db: Db, cmd: WithdrawCommand, id: Uuid, asset: string, drift: int)
    requires TablesOk(db) && Balanced(db, asset, drift) && Withdraw(db, cmd, id).result.Ok?
    ensures TablesOk(Withdraw(db, cmd, id).db) && Balanced(Withdraw(db, cmd, id).db, asset, drift)
  {
    hide TableSum, Units, Balance, Dec;
    var e := Entry(cmd.userId, cmd.asset, Units(Neg(cmd.amount)), EntryWithdraw, id);
    var w := WithdrawalRow(id, cmd.userId, cmd.asset, Units(cmd.amount));
    SumAppend(db.ledger, [e], AmountIn(asset));
    SumOne(e, AmountIn(asset));
    SumAppend(db.withdrawals, [w], WithdrawnIn(asset));
    SumOne(w, WithdrawnIn(asset));
    UnitsOdd(cmd.amount);
    UnitsOfDec(Units(-cmd.amount));
  }

  lemma CallBalanced(db: Db, c: Call, asset: string, drift: int)
    requires TablesOk(db) && Balanced(db, asset, drift)
    ensures TablesOk(Perform(db, c).db) && Balanced(Perform(db, c).db, asset, drift + DriftIn(db, c, asset))
  {
    hide PlaceOrder, CancelOrder, ExecuteTrade, Intake, Confirm, Reject, Withdraw, TablesOk, Balanced;
    if Perform(db, c).result.Err? {
      FailureChangesNothing(db, c);
    } else {
      match c
      case CallPlace(markets, cmd, id) => PlaceBalanced(db, markets, cmd, id, asset, drift);
      case CallCancel(id) => CancelBalanced(db, id, asset, drift);
      case CallTrade(cmd, id) => TradeBalanced(db, cmd, id, asset, drift);
      case CallWithdraw(cmd, id) => WithdrawBalanced(db, cmd, id, asset, drift);
      case _ => DepositBalanced(db, c, asset, drift);
    }
  }

  /** Every run from empty tables conserves every asset, whatever the signs and scales of prices,
      quantities and amounts, and whatever trades it contains, manual ones included. */
  lemma {:induction false} RunBalanced(db: Db, calls: seq<Call>, asset: string)
    requires Blank(db)
    ensures TablesOk(PerformAll(db, calls)) && Balanced(PerformAll(db, calls), asset, RunDriftIn(db, calls, asset))
  {
    hide Perform, DriftIn;
    if calls != [] {
      var k := |calls| - 1;
      RunBalanced(db, calls[..k], asset);
      hide TablesOk, Balanced;
      CallBalanced(PerformAll(db, calls[..k]), calls[k], asset, RunDriftIn(db, calls[..k], asset));
    }
  }

  /** When no buy has more than ten decimals there is no drift in any asset. */
  lemma {:induction false} NoDriftAtScaleTen(db: Db, calls: seq<Call>, asset: string)
    requires forall i :: 0 <= i < |calls| ==> ScaleTenCall(calls[i])
    ensures RunDriftIn(db, calls, asset) == 0
  {
    hide Perform, Drift, ScaleTen;
    if calls != [] {
      var k := |calls| - 1;
      NoDriftAtScaleTen(db, calls[..k], asset);
      assert ScaleTenCall(calls[k]);
      if calls[k].CallPlace? && calls[k].place.side.Some? {
        ReservedUnits(calls[k].place, calls[k].place.side.value);
      }
    }
  }

  // ---- Each confirmed deposit is credited exactly once -----------------------------------

  ghost function CreditOf(id: Uuid): Entry -> int {
    (e: Entry) => if e.refId == id && e.entryType == EntryDeposit then e.amount else 0
  }

  ghost predicate CreditOk(db: Db, id: Uuid) {
    var confirmed := id in db.deposits && db.deposits[id].status == DepositConfirmed;
    && Sum(db.ledger, CountOf(id, EntryDeposit)) == (if confirmed then 1 else 0)
    && Sum(db.ledger, CreditOf(id)) == (if confirmed then db.deposits[id].amount else 0)
  }

  lemma ConfirmKeepsCredit(db: Db, confirmed: Uuid, id: Uuid)
    requires CreditOk(db, id) && Confirm(db, confirmed).result.Ok?
    ensures CreditOk(Confirm(db, confirmed).db, id)
  {
    var d := db.deposits[confirmed];
    var e := Entry(d.userId, d.asset, d.amount, EntryDeposit, confirmed);
    SumAppend(db.ledger, [e], CountOf(id, EntryDeposit));
    SumAppend(db.ledger, [e], CreditOf(id));
    SumOne(e, CountOf(id, EntryDeposit));
    SumOne(e, CreditOf(id));
  }

  lemma CallKeepsCredit(db: Db, c: Call, id: Uuid)
    requires CreditOk(db, id)
    ensures CreditOk(Perform(db, c).db, id)
  {
    hide ExecuteTrade, PlaceOrder, Withdraw, CancelOrder, Appended, Units;
    if Perform(db, c).result.Err? {
      FailureChangesNothing(db, c);
    } else if c.CallConfirm? {
      ConfirmKeepsCredit(db, c.id, id);
    } else {
      var e := Appended(db, c);
      NoDepositEntries(db, c);
      NoCredit(e, id);
      SumAppend(db.ledger, e, CountOf(id, EntryDeposit));
      SumAppend(db.ledger, e, CreditOf(id));
      if !c.CallIntake? && !c.CallReject? {
        DepositsChangeOnlyInDeposits(db, c);
      }
    }
  }

  lemma DepositsChangeOnlyInDeposits(db: Db, c: Call)
    requires !c.CallIntake? && !c.CallConfirm? && !c.CallReject?
    ensures Perform(db, c).db.deposits == db.deposits
  {
    hide ReserveAmount, Units, Unreserved, TradeCheck, TradeDrafts, Balance, Fill, SplitSymbol;
  }

  lemma NoDepositEntries(db: Db, c: Call)
    requires !c.CallConfirm?
    ensures forall i :: 0 <= i < |Appended(db, c)| ==> Appended(db, c)[i].entryType != EntryDeposit
  {
    hide ReserveAmount, Units, TradeDrafts, Balance, Fill, SplitSymbol, ExecuteTrade;
    if c.CallTrade? {
      if ExecuteTrade(db, c.trade, c.id).result.Ok? {
        TradeEffect(db, c.trade, c.id);
      } else {
        FailureChangesNothing(db, c);
      }
    }
  }

  lemma {:induction false} NoCredit(entries: seq<Entry>, id: Uuid)
    requires forall i :: 0 <= i < |entries| ==> entries[i].entryType != EntryDeposit
    ensures Sum(entries, CountOf(id, EntryDeposit)) == 0 && Sum(entries, CreditOf(id)) == 0
  {
    if entries != [] {
      NoCredit(entries[..|entries| - 1], id);
    }
  }

  /** In every run a deposit is credited once if it is confirmed and never otherwise. */
  lemma {:induction false} RunKeepsCredit(db: Db, calls: seq<Call>, id: Uuid)
    requires Blank(db)
    ensures CreditOk(PerformAll(db, calls), id)
  {
    if calls != [] {
      var k := |calls| - 1;
      RunKeepsCredit(db, calls[..k], id);
      CallKeepsCredit(PerformAll(db, calls[..k]), calls[k], id);
    }
  }
}
