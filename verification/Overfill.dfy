/** ExecuteTrade tests neither the sign of a quantity nor what is left of an order.  These are the
    exact conditions on a run under which no order is overfilled, and status and fill agree. */
module Overfill {
  import opened Domain
  import opened Numeric
  import opened Records
  import opened Transactions
  import opened Throughout
  import L = LedgerRun

  // ---- No order filled beyond its quantity -----------------------------------------------

  ghost predicate NoneOverfilled(db: Db) {
    forall id :: id in db.orders ==> db.orders[id].filled <= db.orders[id].quantity
  }

  /** The order has room for the quantity. */
  predicate HasRoom(db: Db, id: Uuid, quantity: real) {
    id in db.orders ==> Units(Dec(db.orders[id].filled) + quantity) <= db.orders[id].quantity
  }

  /** For an amount and a fill that are not negative, having room means what it says. */
  lemma RoomInUnits(filled: int, quantity: real)
    requires filled >= 0 && quantity >= 0.0
    ensures Units(Dec(filled) + quantity) == filled + Units(quantity)
  {
    UnitsShift(filled, quantity);
  }

  /** The one check per call that keeps fills within quantities. */
  predicate Fits(db: Db, c: Call) {
    Perform(db, c).result.Ok? ==>
      match c
      case CallPlace(_, cmd, _) => Units(cmd.quantity) >= 0
      case CallTrade(cmd, _) => HasRoom(db, cmd.buyOrderId, cmd.quantity) && HasRoom(db, cmd.sellOrderId, cmd.quantity)
      case _ => true
  }

  /** A committed trade overfills an order exactly when the order has no room for it. */
  lemma TradeOverfills(db: Db, cmd: ExecuteTradeCommand, tradeId: Uuid, id: Uuid)
    requires ExecuteTrade(db, cmd, tradeId).result.Ok? && id in db.orders
    ensures var db' := ExecuteTrade(db, cmd, tradeId).db;
            && id in db'.orders
            && (id == cmd.buyOrderId || id == cmd.sellOrderId ==>
                  (db'.orders[id].filled > db'.orders[id].quantity <==> !HasRoom(db, id, cmd.quantity)))
            && (id != cmd.buyOrderId && id != cmd.sellOrderId ==> db'.orders[id] == db.orders[id])
            && (id in db'.orders <==> id in db.orders)
  {
    hide ExecuteTrade, Units, Dec, Stored, TradeDrafts, Fill;
    L.TradeEffect(db, cmd, tradeId);
    L.FillRow(db.orders[cmd.buyOrderId], cmd.quantity);
    L.FillRow(db.orders[cmd.sellOrderId], cmd.quantity);
  }

  lemma TradeFits(db: Db, cmd: ExecuteTradeCommand, tradeId: Uuid)
    requires NoneOverfilled(db) && ExecuteTrade(db, cmd, tradeId).result.Ok?
    ensures NoneOverfilled(ExecuteTrade(db, cmd, tradeId).db) <==> Fits(db, CallTrade(cmd, tradeId))
  {
    hide ExecuteTrade, Units, Dec, Stored, TradeDrafts, Fill;
    L.TradeEffect(db, cmd, tradeId);
    var db' := ExecuteTrade(db, cmd, tradeId).db;
    forall id | id in db'.orders
      ensures id in db.orders
      ensures db'.orders[id].filled <= db'.orders[id].quantity <==>
        ((id == cmd.buyOrderId || id == cmd.sellOrderId) ==> HasRoom(db, id, cmd.quantity))
    {
      TradeOverfills(db, cmd, tradeId, id);
    }
  }

  lemma OrdersAfter(db: Db, c: Call)
    requires !c.CallPlace? && !c.CallTrade? && Perform(db, c).result.Ok?
    ensures c.CallCancel? ==> c.id in db.orders && IsCancellable(db.orders[c.id].status)
    ensures Perform(db, c).db.orders
         == if c.CallCancel? then db.orders[c.id := db.orders[c.id].(status := StatusCancelled)] else db.orders
  {
    hide Units, Unreserved, Balance, SplitSymbol, ReserveAsset;
  }

  lemma CallFits(db: Db, c: Call)
    requires NoneOverfilled(db)
    ensures NoneOverfilled(Perform(db, c).db) <==> Fits(db, c)
  {
    hide ExecuteTrade, Units, ReserveAmount, Unreserved, Balance, SplitSymbol, ReserveAsset, HasRoom, Dec, Neg;
    if Perform(db, c).result.Err? {
      FailureChangesNothing(db, c);
    } else if c.CallTrade? {
      TradeFits(db, c.trade, c.id);
    } else if c.CallPlace? {
      L.PlaceEffect(db, c.markets, c.place, c.id);
      hide PlaceOrder;
      assert Perform(db, c).db.orders == db.orders[c.id := NewRow(c.place, c.place.side.value)];
      assert c.id in Perform(db, c).db.orders;
    } else {
      OrdersAfter(db, c);
      hide Perform;
    }
  }

  ghost function IsNoneOverfilled(): Db -> bool {
    (db: Db) => NoneOverfilled(db)
  }

  ghost function IsFit(): (Db, Call) -> bool {
    (db: Db, c: Call) => Fits(db, c)
  }

  /** No order is overfilled at any moment of a run exactly when every committed trade found
      room in both of its orders and every committed placement a quantity that is not negative. */
  lemma RunOverfill(db: Db, calls: seq<Call>)
    requires NoneOverfilled(db)
    ensures (forall k :: 0 <= k <= |calls| ==> NoneOverfilled(PerformAll(db, calls[..k])))
        <==> (forall k :: 0 <= k < |calls| ==> Fits(PerformAll(db, calls[..k]), calls[k]))
  {
    hide NoneOverfilled, Fits, PerformAll, Perform;
    var good, allowed := IsNoneOverfilled(), IsFit();
    forall d: Db, c: Call | good(d)
      ensures good(Perform(d, c).db) <==> allowed(d, c)
    {
      CallFits(d, c);
    }
    AlwaysIff(db, calls, good, allowed);
  }

  // ---- Status and fill agree -------------------------------------------------------------

  /** The fill that a trade would leave is positive. */
  predicate Fills(db: Db, id: Uuid, quantity: real) {
    id in db.orders ==> Units(Dec(db.orders[id].filled) + quantity) > 0
  }

  /** The one check per call that keeps status and fill in agreement. */
  predicate Counts(db: Db, c: Call) {
    Perform(db, c).result.Ok? ==>
      match c
      case CallPlace(_, cmd, _) => Units(cmd.quantity) > 0
      case CallTrade(cmd, _) => Fills(db, cmd.buyOrderId, cmd.quantity) && Fills(db, cmd.sellOrderId, cmd.quantity)
      case _ => true
  }

  lemma FillAgrees(row: OrderRow, quantity: real)
    requires L.StatusOk(row) && !IsTerminal(row.status)
    ensures L.StatusOk(Fill(row, row, quantity)) <==> Units(Dec(row.filled) + quantity) > 0
  {
    L.FillRow(row, quantity);
    hide Fill, Units, Dec;
  }

  /** A fill moves the order forward along its states exactly when it does not take back. */
  lemma FillMovesForward(row: OrderRow, quantity: real)
    requires !IsTerminal(row.status)
    ensures L.OrderStep(row, Fill(row, row, quantity)) <==> Units(Dec(row.filled) + quantity) >= row.filled
  {
    L.FillRow(row, quantity);
    hide Fill, Units, Dec;
  }

  /** No fill shrinks and no order leaves its states backwards. */
  ghost predicate MovesForward(db: Db, db': Db) {
    forall id :: id in db.orders ==> id in db'.orders && L.OrderStep(db.orders[id], db'.orders[id])
  }

  /** A committed trade leaves the fills of both its orders at least as they were. */
  predicate KeepsFills(db: Db, c: Call) {
    c.CallTrade? && Perform(db, c).result.Ok? ==>
      && (c.trade.buyOrderId in db.orders ==>
            Units(Dec(db.orders[c.trade.buyOrderId].filled) + c.trade.quantity) >= db.orders[c.trade.buyOrderId].filled)
      && (c.trade.sellOrderId in db.orders ==>
            Units(Dec(db.orders[c.trade.sellOrderId].filled) + c.trade.quantity)
            >= db.orders[c.trade.sellOrderId].filled)
  }

  lemma TradeMovesForward(db: Db, cmd: ExecuteTradeCommand, tradeId: Uuid)
    requires ExecuteTrade(db, cmd, tradeId).result.Ok?
    ensures MovesForward(db, ExecuteTrade(db, cmd, tradeId).db) <==> KeepsFills(db, CallTrade(cmd, tradeId))
  {
    hide ExecuteTrade, Units, Dec, Stored, TradeDrafts, Fill, L.OrderStep;
    L.TradeEffect(db, cmd, tradeId);
    var b, s := cmd.buyOrderId, cmd.sellOrderId;
    FillMovesForward(db.orders[b], cmd.quantity);
    FillMovesForward(db.orders[s], cmd.quantity);
    var db' := ExecuteTrade(db, cmd, tradeId).db;
    assert db'.orders[b] == Fill(db.orders[b], db.orders[b], cmd.quantity);
    assert db'.orders[s] == Fill(db.orders[s], db.orders[s], cmd.quantity);
    forall row
      ensures L.OrderStep(row, row)
    {
      StepsToItself(row);
    }
  }

  lemma StepsToItself(row: OrderRow)
    ensures L.OrderStep(row, row)
  {
  }

  lemma CallMovesForward(db: Db, c: Call)
    ensures MovesForward(db, Perform(db, c).db) <==> KeepsFills(db, c)
  {
    hide ExecuteTrade, Units, ReserveAmount, Unreserved, Balance, SplitSymbol, ReserveAsset, Dec, Neg;
    if Perform(db, c).result.Err? {
      FailureChangesNothing(db, c);
    } else if c.CallTrade? {
      TradeMovesForward(db, c.trade, c.id);
    } else if c.CallPlace? {
      L.PlaceEffect(db, c.markets, c.place, c.id);
    } else {
      OrdersAfter(db, c);
      hide Perform;
    }
  }

  /** Call k of the run moves every order forward. */
  ghost predicate ForwardAt(db: Db, calls: seq<Call>, k: nat)
    requires k < |calls|
  {
    MovesForward(PerformAll(db, calls[..k]), PerformAll(db, calls[..k + 1]))
  }

  predicate KeepsFillsAt(db: Db, calls: seq<Call>, k: nat)
    requires k < |calls|
  {
    KeepsFills(PerformAll(db, calls[..k]), calls[k])
  }

  lemma ForwardAtIff(db: Db, calls: seq<Call>, k: nat)
    requires k < |calls|
    ensures ForwardAt(db, calls, k) <==> KeepsFillsAt(db, calls, k)
  {
    assert calls[..k + 1][..k] == calls[..k];
    hide MovesForward, KeepsFills, Perform;
    CallMovesForward(PerformAll(db, calls[..k]), calls[k]);
  }

  /** Over every run, each call moves every order forward exactly when no committed trade of it
      shrinks a fill. */
  lemma RunMovesForward(db: Db, calls: seq<Call>)
    ensures (forall k: nat :: k < |calls| ==> ForwardAt(db, calls, k))
        <==> (forall k: nat :: k < |calls| ==> KeepsFillsAt(db, calls, k))
  {
    hide ForwardAt, KeepsFillsAt;
    forall k: nat | k < |calls|
      ensures ForwardAt(db, calls, k) <==> KeepsFillsAt(db, calls, k)
    {
      ForwardAtIff(db, calls, k);
    }
  }

  lemma TradeAgrees(db: Db, cmd: ExecuteTradeCommand, tradeId: Uuid)
    requires L.AllStatusOk(db) && ExecuteTrade(db, cmd, tradeId).result.Ok?
    ensures L.AllStatusOk(ExecuteTrade(db, cmd, tradeId).db) <==> Counts(db, CallTrade(cmd, tradeId))
  {
    hide ExecuteTrade, Units, Dec, Stored, TradeDrafts, Fill, L.StatusOk;
    L.TradeEffect(db, cmd, tradeId);
    var b, s := cmd.buyOrderId, cmd.sellOrderId;
    FillAgrees(db.orders[b], cmd.quantity);
    FillAgrees(db.orders[s], cmd.quantity);
    var db' := ExecuteTrade(db, cmd, tradeId).db;
    assert db'.orders[b] == Fill(db.orders[b], db.orders[b], cmd.quantity);
    assert db'.orders[s] == Fill(db.orders[s], db.orders[s], cmd.quantity);
  }

  lemma CallCounts(db: Db, c: Call)
    requires L.AllStatusOk(db)
    ensures L.AllStatusOk(Perform(db, c).db) <==> Counts(db, c)
  {
    hide ExecuteTrade, Units, ReserveAmount, Unreserved, Balance, SplitSymbol, ReserveAsset, Fills, Dec, Neg;
    if Perform(db, c).result.Err? {
      FailureChangesNothing(db, c);
    } else if c.CallTrade? {
      TradeAgrees(db, c.trade, c.id);
    } else if c.CallPlace? {
      L.PlaceEffect(db, c.markets, c.place, c.id);
      hide PlaceOrder;
      assert Perform(db, c).db.orders == db.orders[c.id := NewRow(c.place, c.place.side.value)];
      assert c.id in Perform(db, c).db.orders;
    } else {
      OrdersAfter(db, c);
      hide Perform;
    }
  }

  ghost function Agrees(): Db -> bool {
    (db: Db) => L.AllStatusOk(db)
  }

  ghost function IsCounted(): (Db, Call) -> bool {
    (db: Db, c: Call) => Counts(db, c)
  }

  /** Status and fill of every order agree at every moment of a run exactly when every committed
      placement has a positive stored quantity and every committed trade leaves positive fills. */
  lemma RunAgrees(db: Db, calls: seq<Call>)
    requires L.AllStatusOk(db)
    ensures (forall k :: 0 <= k <= |calls| ==> L.AllStatusOk(PerformAll(db, calls[..k])))
        <==> (forall k :: 0 <= k < |calls| ==> Counts(PerformAll(db, calls[..k]), calls[k]))
  {
    hide L.AllStatusOk, Counts, PerformAll, Perform;
    var good, allowed := Agrees(), IsCounted();
    forall d: Db, c: Call | good(d)
      ensures good(Perform(d, c).db) <==> allowed(d, c)
    {
      CallCounts(d, c);
    }
    AlwaysIff(db, calls, good, allowed);
  }
}
