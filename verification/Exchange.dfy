/**
 The exchange core of one symbol as a whole: the tables, the engine worker with its channel,
 the calls on their way to the channel, and the matches on their way to settlement.

 Placements and cancels commit to the tables first and are submitted to the engine afterwards,
 in any order; a full channel refuses a submission.  The worker takes commands one at a time
 and publishes matches, which may be delivered to settlement in any order and any number of
 times.  The process may stop at any moment: the book, the channel and the undelivered matches
 are lost, the trade counter starts again, and the book is rebuilt from the tables.  Trades may
 also be requested directly, of any orders and any quantity, without the engine's knowledge.
 Everything else the services do, for other symbols included, happens in between.
 */
module Exchange {
  import opened Domain
  import opened PriceTime
  import opened BookFacts
  import opened EngineRun
  import opened Numeric
  import opened Records
  import opened MatchKeys
  import T = Transactions
  import L = LedgerRun

  /** `since` is how many matches were published before the last restart; `lost` is the set of
      orders whose submission the channel refused since then; `direct` is what trades beside the
      engine's have filled of each order since then, and at the restart what had been filled of
      it beyond its quantity. */
  datatype State = State(
    db: Db,
    shard: Shard,
    since: nat,
    channel: seq<Command>,
    outbound: seq<Command>,
    lost: set<Uuid>,
    direct: map<Uuid, int>)

  function DirectOf(s: State, id: Uuid): int {
    if id in s.direct then s.direct[id] else 0
  }

  /** What direct trades have filled once the tables have become db. */
  function DirectAfter(s: State, db: Db): map<Uuid, int> {
    map id | id in s.db.orders && id in db.orders :: DirectOf(s, id) + db.orders[id].filled - s.db.orders[id].filled
  }

  /** What has been filled of each order beyond its quantity. */
  function Excess(orders: map<Uuid, OrderRow>): map<Uuid, int> {
    map id | id in orders && orders[id].filled > orders[id].quantity :: orders[id].filled - orders[id].quantity
  }

  // ---- From rows to the engine and back --------------------------------------------------

  /** The order PlaceOrder submits for a committed row. */
  function EngineOrder(id: Uuid, row: OrderRow): Order {
    Order(id, row.userId, row.symbol, row.side, row.price, row.quantity, row.quantity)
  }

  /** The settlement command of a match. */
  function SettleCommand(m: Matched): T.ExecuteTradeCommand {
    T.ExecuteTradeCommand(m.trade.symbol, m.trade.buyOrderId, m.trade.sellOrderId,
                          Dec(m.trade.price), Dec(m.trade.quantity), KeyFor(m))
  }

  function KeyFor(m: Matched): string {
    MatchKey(m.trade.buyOrderId, m.trade.sellOrderId, m.seqNo)
  }

  /** An empty user id marks a partner order. */
  predicate IsPartner(userId: string) {
    userId == ""
  }

  /** The production processor: a match with a partner side is dropped, any other is settled. */
  function OnTradeMatched(db: Db, m: Matched, tradeId: Uuid): T.Outcome {
    if IsPartner(m.trade.buyUserId) || IsPartner(m.trade.sellUserId) then T.Outcome(db, Err(ErrOther))
    else T.ExecuteTrade(db, SettleCommand(m), tradeId)
  }

  /** One row of the rehydration query, loaded behind the orders before it. */
  function LoadRow(symbol: string, b: Book, id: Uuid, row: OrderRow): Book {
    var remain := row.quantity - row.filled;
    if row.symbol == symbol && IsCancellable(row.status) && remain > 0 then
      var o := Order(id, row.userId, symbol, row.side, row.price, remain, remain);
      WithQueue(b, o.side, Join(o.side, Queue(b, o.side), o))
    else b
  }

  /** rehydrateEngine: the OPEN and PARTIAL rows in created_at order. */
  function Rehydrated(symbol: string, orders: map<Uuid, OrderRow>, created: seq<Uuid>): Book {
    if created == [] then Book([], [])
    else
      var id := created[|created| - 1];
      var b := Rehydrated(symbol, orders, created[..|created| - 1]);
      if id in orders then LoadRow(symbol, b, id, orders[id]) else b
  }

  // ---- Actions ---------------------------------------------------------------------------

  datatype Action =
    | Place(markets: set<string>, cmd: T.PlaceOrderCommand, id: Uuid)
    | CancelRow(cancelled: Uuid)
    | Submit(i: nat, accepted: bool)
    | Work
    | Deliver(i: nat, tradeId: Uuid)
    | TradeDirectly(trade: T.ExecuteTradeCommand, tradeId: Uuid)
    | Elsewhere(call: T.Call)
    | Restart

  function PlacedId(c: Command): set<Uuid> {
    if c.PlaceCommand? && c.order.Some? then {c.order.value.id} else {}
  }

  function Act(symbol: string, s: State, a: Action): State {
    match a
    case Place(markets, cmd, id) =>
      var r := T.PlaceOrder(s.db, markets, cmd, id);
      if r.result.Ok? && cmd.symbol == symbol && id in r.db.orders
      then s.(db := r.db, outbound := s.outbound + [PlaceCommand(Some(EngineOrder(id, r.db.orders[id])))])
      else s.(db := r.db)
    case CancelRow(id) =>
      var r := T.CancelOrder(s.db, id);
      if r.result.Ok? && id in s.db.orders && s.db.orders[id].symbol == symbol
      then s.(db := r.db, outbound := s.outbound + [CancelCommand(Some(CancelInfo(id, symbol)))])
      else s.(db := r.db)
    case Submit(i, accepted) =>
      if i >= |s.outbound| then s
      else
        var rest := s.outbound[..i] + s.outbound[i + 1..];
        if accepted then s.(outbound := rest, channel := s.channel + [s.outbound[i]])
        else s.(outbound := rest, lost := s.lost + PlacedId(s.outbound[i]))
    case Work =>
      if s.channel == [] then s
      else s.(shard := Handle(symbol, s.shard, s.channel[0]), channel := s.channel[1..])
    case Deliver(i, tradeId) =>
      var ms := Matches(s.shard.log);
      if s.since <= i < |ms| then s.(db := OnTradeMatched(s.db, ms[i], tradeId).db) else s
    case TradeDirectly(cmd, tradeId) =>
      var db := T.ExecuteTrade(s.db, cmd, tradeId).db;
      s.(db := db, direct := DirectAfter(s, db))
    case Elsewhere(c) => s.(db := T.Perform(s.db, c).db)
    case Restart =>
      State(s.db, Shard(Rehydrated(symbol, s.db.orders, s.db.created), 0, s.shard.log),
            |Matches(s.shard.log)|, [], [], {}, Excess(s.db.orders))
  }

  /** An order row of this symbol. */
  predicate Ours(symbol: string, db: Db, id: Uuid) {
    id in db.orders && db.orders[id].symbol == symbol
  }

  /** Accounts of the user in both assets of the symbol. */
  predicate Provisioned(symbol: string, db: Db, userId: Uuid) {
    (userId, BaseOf(symbol)) in db.accounts && (userId, QuoteOf(symbol)) in db.accounts
  }

  /** A key that cannot be mistaken for one of this symbol's settlements. */
  ghost predicate ForeignKey(symbol: string, db: Db, key: string) {
    forall b: Uuid, s: Uuid, n: int :: key == MatchKey(b, s, n) ==> b in db.orders && db.orders[b].symbol != symbol
  }

  /** What each action is assumed to be: placements of this symbol have a positive stored
      quantity and come from a provisioned user; a trade requested directly may name any orders
      and any quantity, but not a settlement key of this symbol. */
  ghost predicate Allowed(symbol: string, db: Db, a: Action) {
    match a
    case Place(_, cmd, _) => cmd.symbol == symbol ==> Units(cmd.quantity) > 0 && Provisioned(symbol, db, cmd.userId)
    case TradeDirectly(cmd, _) => ForeignKey(symbol, db, cmd.idempotencyKey)
    case Elsewhere(c) => !c.CallPlace? && !c.CallCancel? && !c.CallTrade?
    case _ => true
  }

  function Exec(symbol: string, s: State, actions: seq<Action>): State {
    if actions == [] then s else Act(symbol, Exec(symbol, s, actions[..|actions| - 1]), actions[|actions| - 1])
  }

  ghost predicate AllAllowed(symbol: string, s: State, actions: seq<Action>) {
    forall k :: 0 <= k < |actions| ==> Allowed(symbol, Exec(symbol, s, actions[..k]).db, actions[k])
  }

  /** Empty tables, an empty book, nothing under way. */
  ghost predicate Initial(symbol: string, s: State) {
    L.Blank(s.db) && s == State(s.db, FRESH, 0, [], [], {}, map[]) && SplitSymbol(symbol).Some?
  }

  // ---- The invariant ---------------------------------------------------------------------

  /** Rows of the symbol: FILLED means filled, and the user has both accounts. */
  ghost predicate RowsOk(symbol: string, db: Db) {
    forall id :: Ours(symbol, db, id) ==> L.RoomOk(db.orders[id]) && Provisioned(symbol, db, db.orders[id].userId)
  }

  /** created_at lists every order row exactly once. */
  ghost predicate CreatedOk(db: Db) {
    && (forall id :: id in db.orders <==> id in db.created)
    && (forall i, j :: 0 <= i < j < |db.created| ==> db.created[i] != db.created[j])
  }

  /** A resting order carries its row's user, side, symbol and price. */
  ghost predicate RestsFor(symbol: string, db: Db, o: Order) {
    && Ours(symbol, db, o.id)
    && var row := db.orders[o.id];
       o.userId == row.userId && o.symbol == row.symbol && o.side == row.side && o.price == row.price
  }

  ghost predicate BookOk(symbol: string, s: State) {
    && Ordered(s.shard.book)
    && UniqueIds(s.shard.book)
    && (forall i :: 0 <= i < |s.shard.book.bids| ==> RestsFor(symbol, s.db, s.shard.book.bids[i]))
    && (forall i :: 0 <= i < |s.shard.book.asks| ==> RestsFor(symbol, s.db, s.shard.book.asks[i]))
  }

  ghost predicate CommandOk(symbol: string, db: Db, sh: Shard, c: Command) {
    match c
    case PlaceCommand(Some(o)) =>
      Ours(symbol, db, o.id) && o == EngineOrder(o.id, db.orders[o.id]) && Unseen(sh, o.id)
    case CancelCommand(Some(c)) => c.orderId in db.orders && db.orders[c.orderId].status == StatusCancelled
    case _ => false
  }

  /** One if the submission of the order was refused. */
  function RefusedOne(s: State, id: Uuid): int {
    if id in s.lost then 1 else 0
  }

  /** Commands under way: each order is placed at most once, counting a refused placement, and
      only while the engine has never met it; each cancel is of a row that is CANCELLED. */
  ghost predicate PendingOk(symbol: string, s: State) {
    && (forall c :: c in s.outbound ==> CommandOk(symbol, s.db, s.shard, c))
    && (forall c :: c in s.channel ==> CommandOk(symbol, s.db, s.shard, c))
    && (forall id :: id in s.lost ==> Ours(symbol, s.db, id))
    && (forall id :: Sum(s.outbound, PlacedOne(id)) + Sum(s.channel, PlacedOne(id)) + RefusedOne(s, id) <= 1)
  }

  ghost predicate MatchOk(symbol: string, db: Db, m: Matched) {
    var t := m.trade;
    && Ours(symbol, db, t.buyOrderId) && Ours(symbol, db, t.sellOrderId)
    && db.orders[t.buyOrderId].side == Buy && db.orders[t.sellOrderId].side == Sell
    && t.quantity > 0 && t.symbol == symbol
    && t.buyUserId == db.orders[t.buyOrderId].userId && t.sellUserId == db.orders[t.sellOrderId].userId
  }

  /** No pair of orders has ever been matched twice, across all restarts. */
  ghost predicate MatchesOk(symbol: string, s: State) {
    && (forall m :: m in Matches(s.shard.log) ==> MatchOk(symbol, s.db, m))
    && DistinctPairs(Matches(s.shard.log))
    && s.since <= |Matches(s.shard.log)|
  }

  /** A used settlement key of this symbol belongs to a published match. */
  ghost predicate KeysOk(symbol: string, s: State) {
    forall b: Uuid, x: Uuid, n: int :: (MatchKey(b, x, n), ScopeTrade) in s.db.keys ==>
      || (b in s.db.orders && s.db.orders[b].symbol != symbol)
      || exists m :: m in Matches(s.shard.log) && m.trade.buyOrderId == b && m.trade.sellOrderId == x
  }

  /** The matches published since the last restart. */
  function Recent(s: State): seq<Matched> {
    if s.since <= |Matches(s.shard.log)| then Matches(s.shard.log)[s.since..] else []
  }

  predicate IsSettled(keys: set<(string, Scope)>, m: Matched) {
    (KeyFor(m), ScopeTrade) in keys
  }

  /** Weighs a match by its quantity of this order while it has not been settled. */
  ghost function DueOf(keys: set<(string, Scope)>, id: Uuid): Matched -> int {
    (m: Matched) => if IsSettled(keys, m) then 0 else TradedOf(id)(m.trade)
  }

  /** The quantity of this order that is matched but not settled. */
  ghost function Due(s: State, id: Uuid): int {
    Sum(Recent(s), DueOf(s.db.keys, id))
  }

  /** The quantity of this order that is still on its way to the engine. */
  ghost function Queued(s: State, id: Uuid): int {
    Sum(s.outbound, PlacedQty(id)) + Sum(s.channel, PlacedQty(id))
  }

  /** The quantity of this order that the channel refused. */
  function Refused(s: State, id: Uuid): int {
    if id in s.lost && id in s.db.orders then s.db.orders[id].quantity else 0
  }

  /** The quantity of this order that matches have filled or may still fill. */
  ghost function Accounted(s: State, id: Uuid): int
    requires id in s.db.orders
  {
    s.db.orders[id].filled - DirectOf(s, id) + Due(s, id) + Resting(s.shard.book, id) + Queued(s, id) + Refused(s, id)
  }

  /** Settled, matched, resting, queued and refused quantity make up the order's quantity exactly,
      unless the order was cancelled; then they do not exceed it. */
  ghost predicate AccountOk(symbol: string, s: State) {
    && (forall id :: id in s.direct ==> id in s.db.orders)
    && forall id :: Ours(symbol, s.db, id) ==>
         && Accounted(s, id) <= s.db.orders[id].quantity
         && (s.db.orders[id].status != StatusCancelled ==> Accounted(s, id) == s.db.orders[id].quantity)
  }

  ghost predicate Inv(symbol: string, s: State) {
    && SplitSymbol(symbol).Some?
    && RowsOk(symbol, s.db) && CreatedOk(s.db)
    && BookOk(symbol, s) && PendingOk(symbol, s)
    && MatchesOk(symbol, s) && KeysOk(symbol, s)
    && AccountOk(symbol, s)
  }
}
