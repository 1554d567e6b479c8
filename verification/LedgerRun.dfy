/** What holds of the tables after every sequence of service calls. */
module LedgerRun {
  import opened Domain
  import opened Numeric
  import opened Records
  import opened Transactions

  ghost predicate Blank(db: Db) {
    && db.orders == map[] && db.created == [] && db.ledger == [] && db.keys == {} && db.trades == []
    && db.deposits == map[] && db.intaken == [] && db.withdrawals == []
  }

  // ---- A trade's entries cancel out ------------------------------------------------------

  /** For every price and quantity, whatever their scale: the service's own check passes, and
      the entries as they are stored sum to zero in each asset separately. */
  lemma TradeEntriesZeroSum(buyer: Uuid, seller: Uuid, base: string, quote: string, price: real, quantity: real,
                            id: Uuid, asset: string)
    ensures var drafts := TradeDrafts(buyer, seller, base, quote, price, quantity);
            && Cmp(DraftSum(drafts), 0.0) == 0
            && Sum(Stored(drafts, id), AmountIn(asset)) == 0
  {
    var drafts := TradeDrafts(buyer, seller, base, quote, price, quantity);
    FourDrafts(drafts, Units(quantity), Units(Times(price, quantity)));
    FourAmounts(Stored(drafts, id), AmountIn(asset));
    UnitsOdd(quantity);
    UnitsOfDec(Units(Times(price, quantity)));
    UnitsOdd(Mul(price, quantity));
    UnitsOfDec(Units(-quantity));
    UnitsOfDec(Units(-Mul(price, quantity)));
    hide Units, Times, Dec, DraftSum;
  }

  /** The running sum over amounts b (of any scale), -q, -b, q, in this order. */
  lemma FourDrafts(drafts: seq<Draft>, b: int, q: int)
    requires |drafts| == 4 && Units(drafts[0].amount) == b
    requires drafts[1].amount == Neg(Dec(q)) && drafts[2].amount == Neg(drafts[0].amount) && drafts[3].amount == Dec(q)
    ensures DraftSum(drafts) == Dec(0)
    ensures Dec(0) == 0.0
  {
    UnitsOdd(drafts[0].amount);
    AddSubExact(q, q);
    AddSubExact(b, -q);
    AddSubExact(b - q, -b);
    AddSubExact(-q, q);
    assert drafts[..1] == [drafts[0]] && drafts[..2][..1] == drafts[..1] && drafts[..3][..2] == drafts[..2];
    assert 0.0 + drafts[0].amount == drafts[0].amount && drafts[..1][..0] == [];
    hide Units, Dec;
    assert DraftSum(drafts[..1]) == Dec(b);
    assert DraftSum(drafts[..2]) == Dec(b - q);
    assert DraftSum(drafts[..3]) == Dec(-q);
  }

  lemma FourAmounts(e: seq<Entry>, f: Entry -> int)
    requires |e| == 4
    ensures Sum(e, f) == f(e[0]) + f(e[1]) + f(e[2]) + f(e[3])
  {
    SumCons(e, f);
    SumCons(e[1..], f);
    SumCons(e[1..][1..], f);
    SumCons(e[1..][1..][1..], f);
  }

  /** The four entries of a trade as they are stored, for every price and quantity. */
  lemma StoredEntries(buyer: Uuid, seller: Uuid, base: string, quote: string, price: real, quantity: real, id: Uuid)
    ensures var e := Stored(TradeDrafts(buyer, seller, base, quote, price, quantity), id);
            var amount := Units(Times(price, quantity));
            && |e| == 4
            && e[0] == Entry(buyer, base, Units(quantity), EntryTrade, id)
            && e[1] == Entry(buyer, quote, -amount, EntryTrade, id)
            && e[2] == Entry(seller, base, -Units(quantity), EntryTrade, id)
            && e[3] == Entry(seller, quote, amount, EntryTrade, id)
  {
    UnitsOfNeg(quantity);
    UnitsOfNeg(Mul(price, quantity));
    UnitsOfDec(Units(Times(price, quantity)));
    hide Units, Times, Dec, Neg, ScaleTen;
  }

  /** What settling a trade writes for this user in this asset. */
  function TradeEffectOn(buyer: Uuid, seller: Uuid, base: string, quote: string, quantity: int, amount: int,
                         userId: Uuid, asset: string): int {
    (if asset == base then (if userId == buyer then quantity else 0) - (if userId == seller then quantity else 0)
        else 0)
    + (if asset == quote then (if userId == seller then amount else 0) - (if userId == buyer then amount else 0) else 0)
  }

  lemma StoredEffect(buyer: Uuid, seller: Uuid, base: string, quote: string, price: real, quantity: real, id: Uuid,
                     userId: Uuid, asset: string)
    ensures Sum(Stored(TradeDrafts(buyer, seller, base, quote, price, quantity), id), AmountFor(userId, asset))
         == TradeEffectOn(buyer, seller, base, quote, Units(quantity), Units(Times(price, quantity)), userId, asset)
  {
    hide Stored, TradeDrafts, Times, Units;
    StoredEntries(buyer, seller, base, quote, price, quantity, id);
    FourAmounts(Stored(TradeDrafts(buyer, seller, base, quote, price, quantity), id), AmountFor(userId, asset));
  }

  // ---- What a call may do to one order ---------------------------------------------------

  /** Calls whose quantities are positive as stored. */
  ghost predicate PositiveCall(c: Call) {
    && (c.CallPlace? ==> Units(c.place.quantity) > 0)
    && (c.CallTrade? ==> Units(c.trade.quantity) > 0)
  }

  /** Status and fill agree. */
  ghost predicate StatusOk(row: OrderRow) {
    && row.filled >= 0 && row.quantity > 0
    && match row.status
       case StatusOpen => row.filled == 0
       case StatusPartial => 0 < row.filled < row.quantity
       case StatusFilled => row.filled >= row.quantity
       case StatusCancelled => row.filled < row.quantity
  }

  /** An order is FILLED exactly when it has been filled, whatever the trades on it were. */
  ghost predicate RoomOk(row: OrderRow) {
    row.quantity > 0 && (row.status == StatusFilled <==> row.filled >= row.quantity)
  }

  ghost predicate AllStatusOk(db: Db) {
    forall id :: id in db.orders ==> StatusOk(db.orders[id])
  }

  /** One step of an order's life: identity is fixed, terminal rows do not move, the fill only
      grows, and every status change is an edge of the state machine. */
  ghost predicate OrderStep(a: OrderRow, b: OrderRow) {
    && b == a.(filled := b.filled, status := b.status)
    && (IsTerminal(a.status) ==> b == a)
    && a.filled <= b.filled
    && (b.status == StatusOpen ==> a.status == StatusOpen)
  }

  lemma FillRow(row: OrderRow, quantity: real)
    ensures var r := Fill(row, row, quantity);
            && r.filled == Units(Dec(row.filled) + quantity)
            && (r.status == StatusFilled <==> r.filled >= row.quantity || row.status == StatusFilled)
            && (r.status != StatusFilled ==> r.status == if row.status == StatusOpen then StatusPartial else row.status)
            && r == row.(filled := r.filled, status := r.status)
  {
    var f := Units(Dec(row.filled) + quantity);
    assert Add(Dec(row.filled), quantity) == Dec(f);
    assert Dec(f) >= Dec(row.quantity) <==> f >= row.quantity;
  }

  lemma FillStep(row: OrderRow, quantity: real)
    requires Units(quantity) > 0 && StatusOk(row) && !IsTerminal(row.status)
    ensures var r := Fill(row, row, quantity);
            OrderStep(row, r) && StatusOk(r) && r.filled == row.filled + Units(quantity) && r.status != StatusCancelled
  {
    FillRow(row, quantity);
    UnitsShift(row.filled, quantity);
  }

  /** Every call, with positive stored quantities, keeps status and fill in agreement and moves
      each order by at most one step; a cancel leaves the fill as it is. */
  lemma CallKeepsOrder(db: Db, c: Call, id: Uuid)
    requires PositiveCall(c) && (id in db.orders ==> StatusOk(db.orders[id]))
    requires c.CallTrade? && c.trade.buyOrderId in db.orders ==> StatusOk(db.orders[c.trade.buyOrderId])
    requires c.CallTrade? && c.trade.sellOrderId in db.orders ==> StatusOk(db.orders[c.trade.sellOrderId])
    ensures var db' := Perform(db, c).db;
            && (id in db'.orders ==> StatusOk(db'.orders[id]))
            && (id in db.orders ==> id in db'.orders && OrderStep(db.orders[id], db'.orders[id]))
            && (id in db.orders && db'.orders[id].status == StatusCancelled ==>
                 db'.orders[id].filled == db.orders[id].filled)
  {
    hide ExecuteTrade, Unreserved, ReserveAmount, Units, Fill;
    match c
    case CallTrade(cmd, tradeId) =>
      if ExecuteTrade(db, cmd, tradeId).result.Ok? {
        TradeEffect(db, cmd, tradeId);
        FillStep(db.orders[cmd.buyOrderId], cmd.quantity);
        FillStep(db.orders[cmd.sellOrderId], cmd.quantity);
      } else {
        FailureChangesNothing(db, c);
      }
    case _ =>
  }

  /** What a committed trade has found and done. */
  lemma TradeEffect(db: Db, cmd: ExecuteTradeCommand, tradeId: Uuid)
    requires ExecuteTrade(db, cmd, tradeId).result.Ok?
    ensures cmd.buyOrderId in db.orders && cmd.sellOrderId in db.orders && cmd.buyOrderId != cmd.sellOrderId
    ensures (cmd.idempotencyKey, ScopeTrade) !in db.keys
    ensures var b, s := cmd.buyOrderId, cmd.sellOrderId;
            var buy, sell := db.orders[b], db.orders[s];
            var db' := ExecuteTrade(db, cmd, tradeId).db;
            && !IsTerminal(buy.status) && !IsTerminal(sell.status)
            && db' == db.(orders := db.orders[b := Fill(buy, buy, cmd.quantity)][s := Fill(sell, sell, cmd.quantity)],
                          keys := db.keys + {(cmd.idempotencyKey, ScopeTrade)},
                          ledger := db.ledger + Stored(TradeDrafts(buy.userId, sell.userId, BaseOf(cmd.symbol),
                                                                   QuoteOf(cmd.symbol), cmd.price, cmd.quantity),
                                                                       tradeId),
                          trades := db'.trades)
  {
    hide Fill, TradeDrafts, DraftSum, Units, Stored, BaseOf, QuoteOf;
  }

  /** Status and fill agree after every run, and every order has only moved forward. */
  lemma {:induction false} RunKeepsOrders(db: Db, calls: seq<Call>)
    requires AllStatusOk(db) && forall i :: 0 <= i < |calls| ==> PositiveCall(calls[i])
    ensures AllStatusOk(PerformAll(db, calls))
    ensures forall id :: id in db.orders ==>
      id in PerformAll(db, calls).orders && OrderStep(db.orders[id], PerformAll(db, calls).orders[id])
  {
    if calls != [] {
      var k := |calls| - 1;
      RunKeepsOrders(db, calls[..k]);
      forall id
        ensures var before, after := PerformAll(db, calls[..k]), PerformAll(db, calls);
                && (id in after.orders ==> StatusOk(after.orders[id]))
                && (id in before.orders ==> id in after.orders && OrderStep(before.orders[id], after.orders[id]))
      {
        CallKeepsOrder(PerformAll(db, calls[..k]), calls[k], id);
      }
    }
  }

  // ---- The reserve of one order ----------------------------------------------------------

  ghost function ReserveOf(id: Uuid): Entry -> int {
    (e: Entry) => if e.refId == id && (e.entryType == EntryReserve || e.entryType == EntryRelease) then e.amount else 0
  }

  ghost function CountOf(id: Uuid, t: EntryType): Entry -> int {
    (e: Entry) => if e.refId == id && e.entryType == t then 1 else 0
  }

  /** How much more a placement reserves than its stored row stands for. */
  function Drift(cmd: PlaceOrderCommand, side: Side): int {
    -Units(Neg(ReserveAmount(side, cmd.price, cmd.quantity))) - ReserveUnits(NewRow(cmd, side), Units(cmd.quantity))
  }

  /** The drift that a call adds to this order: none unless it is the placement of the order. */
  function CallDrift(db: Db, c: Call, id: Uuid): int {
    if c.CallPlace? && c.id == id && c.place.side.Some? && Perform(db, c).result.Ok?
    then Drift(c.place, c.place.side.value) else 0
  }

  function RunDrift(db: Db, calls: seq<Call>, id: Uuid): int {
    if calls == [] then 0
    else
      var k := |calls| - 1;
      RunDrift(db, calls[..k], id) + CallDrift(PerformAll(db, calls[..k]), calls[k], id)
  }

  /** Exactly one RESERVE, at most one RELEASE and only once cancelled, and together they leave
      the held reserve and the drift of the placement on the ledger. */
  ghost predicate ReserveOk(db: Db, id: Uuid, drift: int) {
    if id in db.orders then
      && Sum(db.ledger, ReserveOf(id)) == -Held(db.orders[id]) - drift
      && Sum(db.ledger, CountOf(id, EntryReserve)) == 1
      && Sum(db.ledger, CountOf(id, EntryRelease)) <= (if db.orders[id].status == StatusCancelled then 1 else 0)
    else
      && Sum(db.ledger, ReserveOf(id)) == 0 && drift == 0
      && Sum(db.ledger, CountOf(id, EntryReserve)) == 0
      && Sum(db.ledger, CountOf(id, EntryRelease)) == 0
  }

  /** In stored units a release is the difference of the two reserves. */
  lemma UnreservedUnits(row: OrderRow)
    ensures var u := ReserveUnits(row, row.quantity) - ReserveUnits(row, row.filled);
            Unreserved(row) == Dec(u) && Units(Unreserved(row)) == u && (Cmp(Unreserved(row), 0.0) > 0 <==> u > 0)
  {
    hide Mul, Sub, Units, MulUnits;
    var a, b := ReserveUnits(row, row.quantity), ReserveUnits(row, row.filled);
    AddSubExact(a, b);
    UnitsOfDec(a - b);
    if row.side == Buy {
      MulOfDec(row.price, row.quantity);
      MulOfDec(row.price, row.filled);
    }
  }

  // ---- When a placement reserves exactly what its row stands for --------------------------

  /** A sell reserves exactly, and so does a buy at scale 10. */
  lemma ReservedUnits(cmd: PlaceOrderCommand, side: Side)
    requires side == Buy ==> ScaleTen(cmd.price) && ScaleTen(cmd.quantity)
    ensures Drift(cmd, side) == 0
  {
    hide Units, Dec, MulUnits, ScaleTen, Mul;
    var amount := ReserveAmount(side, cmd.price, cmd.quantity);
    UnitsOfNeg(amount);
    if side == Buy {
      MulUnitsOfScaleTen(cmd.price, cmd.quantity);
    }
  }

  lemma DriftOfBuy(cmd: PlaceOrderCommand)
    ensures Drift(cmd, Buy) == Units(Times(cmd.price, cmd.quantity)) - MulUnits(Units(cmd.price), Units(cmd.quantity))
  {
    hide Units, Dec, MulUnits, Times, ScaleTen;
    UnitsOfNeg(Mul(cmd.price, cmd.quantity));
    UnitsOfDec(Units(Times(cmd.price, cmd.quantity)));
  }

  /** A price is safe for every storable quantity exactly when it is storable itself. */
  lemma PriceReservesExactly(cmd: PlaceOrderCommand)
    ensures ScaleTen(cmd.price) <==>
      forall quantity: real :: ScaleTen(quantity) ==> Drift(cmd.(quantity := quantity), Buy) == 0
  {
    hide ScaleTen, Drift, Units;
    if ScaleTen(cmd.price) {
      forall quantity: real | ScaleTen(quantity)
        ensures Drift(cmd.(quantity := quantity), Buy) == 0
      {
        ReservedUnits(cmd.(quantity := quantity), Buy);
      }
    } else {
      var n := Amplifier(cmd.price);
      DriftOfBuy(cmd.(quantity := n as real));
      assert Drift(cmd.(quantity := n as real), Buy) != 0;
    }
  }

  /** A quantity is safe for every storable price exactly when it is storable itself. */
  lemma QuantityReservesExactly(cmd: PlaceOrderCommand)
    ensures ScaleTen(cmd.quantity) <==>
      forall price: real :: ScaleTen(price) ==> Drift(cmd.(price := price), Buy) == 0
  {
    hide ScaleTen, Drift, Units;
    if ScaleTen(cmd.quantity) {
      forall price: real | ScaleTen(price)
        ensures Drift(cmd.(price := price), Buy) == 0
      {
        ReservedUnits(cmd.(price := price), Buy);
      }
    } else {
      var n := Amplifier(cmd.quantity);
      DriftOfBuy(cmd.(price := n as real));
      TimesCommutes(cmd.quantity, n as real);
      TimesCommutes(Dec(Units(cmd.quantity)), Dec(Units(n as real)));
      assert Drift(cmd.(price := n as real), Buy) != 0;
    }
  }

  /** A buy whose price has more than ten decimals can reserve more than its row is held for:
      the placement multiplies the raw price, a cancel multiplies the stored one. */
  lemma RawPriceReservesMore(cmd: PlaceOrderCommand)
    requires cmd.price == 0.00000000004 && cmd.quantity == 10.0
    ensures Drift(cmd, Buy) == 4
  {
    assert Times(cmd.price, cmd.quantity) == 0.0000000004;
    assert Units(cmd.price) == 0;
  }

  lemma NoReserveEntries(entries: seq<Entry>, id: Uuid)
    requires forall i :: 0 <= i < |entries| ==>
      entries[i].refId != id || (entries[i].entryType != EntryReserve && entries[i].entryType != EntryRelease)
    ensures Sum(entries, ReserveOf(id)) == 0
    ensures Sum(entries, CountOf(id, EntryReserve)) == 0 && Sum(entries, CountOf(id, EntryRelease)) == 0
  {
    if entries != [] {
      NoReserveEntries(entries[..|entries| - 1], id);
    }
  }

  lemma LedgerGrows(ledger: seq<Entry>, entries: seq<Entry>, id: Uuid)
    ensures Sum(ledger + entries, ReserveOf(id)) == Sum(ledger, ReserveOf(id)) + Sum(entries, ReserveOf(id))
    ensures Sum(ledger + entries, CountOf(id, EntryReserve))
         == Sum(ledger, CountOf(id, EntryReserve)) + Sum(entries, CountOf(id, EntryReserve))
    ensures Sum(ledger + entries, CountOf(id, EntryRelease))
         == Sum(ledger, CountOf(id, EntryRelease)) + Sum(entries, CountOf(id, EntryRelease))
  {
    SumAppend(ledger, entries, ReserveOf(id));
    SumAppend(ledger, entries, CountOf(id, EntryReserve));
    SumAppend(ledger, entries, CountOf(id, EntryRelease));
  }

  lemma OneEntry(e: Entry, id: Uuid)
    ensures Sum([e], ReserveOf(id)) == ReserveOf(id)(e)
    ensures Sum([e], CountOf(id, EntryReserve)) == CountOf(id, EntryReserve)(e)
    ensures Sum([e], CountOf(id, EntryRelease)) == CountOf(id, EntryRelease)(e)
  {
    SumOne(e, ReserveOf(id));
    SumOne(e, CountOf(id, EntryReserve));
    SumOne(e, CountOf(id, EntryRelease));
  }

  /** What a committed placement has found and done. */
  lemma PlaceEffect(db: Db, markets: set<string>, cmd: PlaceOrderCommand, id: Uuid)
    requires PlaceOrder(db, markets, cmd, id).result.Ok?
    ensures cmd.side.Some? && SplitSymbol(cmd.symbol).Some? && id !in db.orders
    ensures (cmd.idempotencyKey, ScopeOrder) !in db.keys
    ensures var row := NewRow(cmd, cmd.side.value);
            var amount := ReserveAmount(cmd.side.value, cmd.price, cmd.quantity);
            PlaceOrder(db, markets, cmd, id).db ==
              db.(keys := db.keys + {(cmd.idempotencyKey, ScopeOrder)},
                  orders := db.orders[id := row],
                  created := db.created + [id],
                  ledger := db.ledger + [Entry(cmd.userId, ReserveAsset(row), Units(Neg(amount)), EntryReserve, id)])
  {
    hide ReserveAmount, Units, Balance, ReserveAsset, Neg, Dec;
  }

  lemma PlaceKeepsReserve(db: Db, markets: set<string>, cmd: PlaceOrderCommand, newId: Uuid, id: Uuid, drift: int)
    requires ReserveOk(db, id, drift)
    ensures ReserveOk(PlaceOrder(db, markets, cmd, newId).db, id,
            drift + CallDrift(db, CallPlace(markets, cmd, newId), id))
  {
    hide PlaceOrder, Units, ReserveUnits, ReserveAsset, ReserveAmount;
    if PlaceOrder(db, markets, cmd, newId).result.Ok? {
      PlaceEffect(db, markets, cmd, newId);
      var side := cmd.side.value;
      var e := Entry(cmd.userId, ReserveAsset(NewRow(cmd, side)),
          Units(Neg(ReserveAmount(side, cmd.price, cmd.quantity))),
                     EntryReserve, newId);
      LedgerGrows(db.ledger, [e], id);
      OneEntry(e, id);
    } else {
      FailureChangesNothing(db, CallPlace(markets, cmd, newId));
    }
  }

  /** The entry a cancel writes, in stored units: none when nothing is left to release. */
  function ReleaseEntries(row: OrderRow, id: Uuid): seq<Entry> {
    var u := ReserveUnits(row, row.quantity) - ReserveUnits(row, row.filled);
    if u > 0 then [Entry(row.userId, ReserveAsset(row), u, EntryRelease, id)] else []
  }

  lemma CancelEffect(db: Db, id: Uuid)
    requires CancelOrder(db, id).result.Ok?
    ensures CancelOrder(db, id).db == db.(ledger := db.ledger + ReleaseEntries(db.orders[id], id),
                                          orders := db.orders[id := db.orders[id].(status := StatusCancelled)])
  {
    UnreservedUnits(db.orders[id]);
    hide Unreserved, ReserveUnits, Units, Dec;
  }

  /** What a cancel gives back, in stored units. */
  function Released(row: OrderRow): int {
    ReserveUnits(row, row.quantity) - Min(ReserveUnits(row, row.quantity), ReserveUnits(row, row.filled))
  }

  lemma ReleaseSums(row: OrderRow, cancelled: Uuid, id: Uuid)
    ensures var e := ReleaseEntries(row, cancelled);
            && Sum(e, ReserveOf(id)) == (if cancelled == id then Released(row) else 0)
            && Sum(e, CountOf(id, EntryReserve)) == 0
            && Sum(e, CountOf(id, EntryRelease)) <= (if cancelled == id then 1 else 0)
  {
    hide ReserveUnits;
    var e := ReleaseEntries(row, cancelled);
    if e == [] {
    } else {
      OneEntry(e[0], id);
    }
  }

  lemma CancelKeepsReserve(db: Db, cancelled: Uuid, id: Uuid, drift: int)
    requires ReserveOk(db, id, drift)
    ensures ReserveOk(CancelOrder(db, cancelled).db, id, drift)
  {
    var r := CancelOrder(db, cancelled);
    if r.result.Ok? {
      CancelEffect(db, cancelled);
      ReleaseSums(db.orders[cancelled], cancelled, id);
      LedgerGrows(db.ledger, ReleaseEntries(db.orders[cancelled], cancelled), id);
      hide CancelOrder, ReleaseEntries, ReserveUnits, Released;
      CancelledHeld(db.orders[cancelled]);
    }
  }

  lemma CancelledHeld(row: OrderRow)
    requires !IsTerminal(row.status)
    ensures Held(row) == ReserveUnits(row, row.quantity)
    ensures Held(row.(status := StatusCancelled)) == Held(row) - Released(row)
  {
  }

  /** What a call appends to the ledger. */
  ghost function Appended(db: Db, c: Call): (entries: seq<Entry>)
    ensures Perform(db, c).db.ledger == db.ledger + entries
  {
    AppendOnly(db, c);
    Perform(db, c).db.ledger[|db.ledger|..]
  }

  lemma AppendOnly(db: Db, c: Call)
    ensures db.ledger <= Perform(db, c).db.ledger
  {
    hide ExecuteTrade, Unreserved, ReserveAmount, Units, Balance;
    match c
    case CallTrade(cmd, tradeId) =>
      if ExecuteTrade(db, cmd, tradeId).result.Ok? {
        TradeEffect(db, cmd, tradeId);
        hide Stored, TradeDrafts, Fill;
      } else {
        FailureChangesNothing(db, c);
      }
    case _ =>
  }

  lemma OtherCallsReserveNothing(db: Db, c: Call, id: Uuid)
    requires !c.CallPlace? && !c.CallCancel?
    ensures Sum(Appended(db, c), ReserveOf(id)) == 0
    ensures Sum(Appended(db, c), CountOf(id, EntryReserve)) == 0
    ensures Sum(Appended(db, c), CountOf(id, EntryRelease)) == 0
  {
    hide TradeDrafts, Units, Balance, ReserveOf, CountOf, ExecuteTrade, Fill;
    if c.CallTrade? {
      if ExecuteTrade(db, c.trade, c.id).result.Ok? {
        TradeEffect(db, c.trade, c.id);
      } else {
        FailureChangesNothing(db, c);
      }
    }
    NoReserveEntries(Appended(db, c), id);
  }

  /** A trade moves fills and statuses, but no order's held reserve. */
  lemma TradeKeepsHeld(db: Db, cmd: ExecuteTradeCommand, tradeId: Uuid, id: Uuid)
    ensures var db' := ExecuteTrade(db, cmd, tradeId).db;
            && (id in db'.orders <==> id in db.orders)
            && (id in db.orders ==> SameHeld(db.orders[id], db'.orders[id]))
  {
    hide ExecuteTrade, Fill, Units, MulUnits, Stored, TradeDrafts;
    if ExecuteTrade(db, cmd, tradeId).result.Ok? {
      TradeEffect(db, cmd, tradeId);
      FillRow(db.orders[cmd.buyOrderId], cmd.quantity);
      FillRow(db.orders[cmd.sellOrderId], cmd.quantity);
    } else {
      FailureChangesNothing(db, CallTrade(cmd, tradeId));
    }
  }

  ghost predicate SameHeld(a: OrderRow, b: OrderRow) {
    Held(b) == Held(a) && (b.status == StatusCancelled <==> a.status == StatusCancelled)
  }

  lemma DepositsAndWithdrawalsKeepOrders(db: Db, c: Call)
    requires !c.CallPlace? && !c.CallCancel? && !c.CallTrade?
    ensures Perform(db, c).db.orders == db.orders
  {
    hide Units, Balance;
  }

  lemma CallKeepsReserve(db: Db, c: Call, id: Uuid, drift: int)
    requires ReserveOk(db, id, drift)
    ensures ReserveOk(Perform(db, c).db, id, drift + CallDrift(db, c, id))
  {
    if c.CallPlace? {
      PlaceKeepsReserve(db, c.markets, c.place, c.id, id, drift);
    } else if c.CallCancel? {
      CancelKeepsReserve(db, c.id, id, drift);
    } else {
      OtherCallsReserveNothing(db, c, id);
      if c.CallTrade? {
        TradeKeepsHeld(db, c.trade, c.id, id);
      } else {
        DepositsAndWithdrawalsKeepOrders(db, c);
      }
      LedgerGrows(db.ledger, Appended(db, c), id);
      hide ExecuteTrade, Appended, Held;
    }
  }

  /** After every run, whatever its placements and trades: RESERVE and RELEASE of an order net to
      minus its held reserve and the drift of its placement, with one RESERVE and at most one
      RELEASE. */
  lemma {:induction false} RunKeepsReserve(db: Db, calls: seq<Call>, id: Uuid)
    requires Blank(db)
    ensures ReserveOk(PerformAll(db, calls), id, RunDrift(db, calls, id))
  {
    hide Perform, CallDrift;
    if calls != [] {
      var k := |calls| - 1;
      RunKeepsReserve(db, calls[..k], id);
      hide ReserveOk;
      CallKeepsReserve(PerformAll(db, calls[..k]), calls[k], id, RunDrift(db, calls[..k], id));
    }
  }

  /** A buy is placed with a price and a quantity of at most ten decimals. */
  ghost predicate ScaleTenCall(c: Call) {
    c.CallPlace? && c.place.side == Some(Buy) ==> ScaleTen(c.place.price) && ScaleTen(c.place.quantity)
  }

  lemma {:induction false} ScaleTenRun(db: Db, calls: seq<Call>, id: Uuid)
    requires forall i :: 0 <= i < |calls| ==> ScaleTenCall(calls[i])
    ensures RunDrift(db, calls, id) == 0
  {
    hide Perform, Drift, ScaleTen;
    if calls != [] {
      var k := |calls| - 1;
      ScaleTenRun(db, calls[..k], id);
      assert ScaleTenCall(calls[k]);
      if calls[k].CallPlace? && calls[k].place.side.Some? {
        ReservedUnits(calls[k].place, calls[k].place.side.value);
      }
    }
  }
}
