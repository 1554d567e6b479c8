/**
 The wiring of cmd/server/main.go and internal/engine/settlement.go: the adapter that submits
 orders to the engine, the rehydration of the engine before its workers start, and the
 production settlement processor.
 */
module Server {
  import opened Domain
  import opened PriceTime
  import opened EngineRun
  import opened Engine
  import opened Numeric
  import opened Records
  import opened MatchKeys
  import Services
  import T = Transactions
  import X = Exchange

  /** A worker whose book has just been loaded. */
  function LoadedLane(symbol: string, orders: map<Uuid, OrderRow>, created: seq<Uuid>): Lane {
    Lane(Shard(X.Rehydrated(symbol, orders, created), 0, []), [])
  }

  function LoadedLanes(symbols: set<string>, orders: map<Uuid, OrderRow>, created: seq<Uuid>): Lanes {
    map s | s in symbols :: LoadedLane(s, orders, created)
  }

  /** Load the OPEN and PARTIAL rows of the engine's symbols in created_at order. */
  method RehydrateEngine(engine: EngineObject, db: Db)
    requires engine.Valid() && !engine.started
    requires engine.View() == map s | s in engine.shards.Keys :: Lane(FRESH, [])
    modifies set s | s in engine.shards :: engine.shards[s].book
    ensures engine.Valid() && engine.shards == old(engine.shards)
    ensures engine.View() == LoadedLanes(engine.shards.Keys, db.orders, db.created)
  {
    hide AfterRow, LoadedLane, EngineObject.View, EngineObject.Valid;
    var i := 0;
    assert LoadedLanes(engine.shards.Keys, db.orders, []) == engine.View()
        by { NothingLoaded(engine.shards.Keys, db.orders); }
    while i < |db.created|
      invariant 0 <= i <= |db.created|
      invariant engine.Valid() && engine.shards == old(engine.shards) && !engine.started
      invariant engine.View() == LoadedLanes(engine.shards.Keys, db.orders, db.created[..i])
    {
      var id := db.created[i];
      NextRow(engine.shards.Keys, db.orders, db.created, i);
      if id in db.orders {
        LoadRow(engine, id, db.orders[id]);
      }
      i := i + 1;
    }
    assert db.created[..i] == db.created;
  }

  lemma NothingLoaded(symbols: set<string>, orders: map<Uuid, OrderRow>)
    ensures LoadedLanes(symbols, orders, []) == map s | s in symbols :: Lane(FRESH, [])
  {
  }

  method LoadRow(engine: EngineObject, id: Uuid, row: OrderRow)
    requires engine.Valid() && !engine.started
    modifies set s | s in engine.shards :: engine.shards[s].book
    ensures engine.Valid() && engine.shards == old(engine.shards) && !engine.started
    ensures engine.View() == AfterRow(old(engine.View()), id, row)
  {
    hide AfterLoad, EngineObject.Valid, ShardObject.View;
    if IsCancellable(row.status) && row.symbol in engine.shards {
      var remain := row.quantity - row.filled;
      if remain <= 0 {
        return;
      }
      engine.LoadOrder(Order(id, row.userId, row.symbol, row.side, row.price, remain, remain));
    }
  }

  function AfterRow(lanes: Lanes, id: Uuid, row: OrderRow): Lanes {
    if IsCancellable(row.status) && row.symbol in lanes && row.quantity > row.filled then
      var remain := row.quantity - row.filled;
      AfterLoad(false, lanes, Order(id, row.userId, row.symbol, row.side, row.price, remain, remain))
    else lanes
  }

  /** Loading one more row changes the book of that row's symbol only. */
  lemma NextRow(symbols: set<string>, orders: map<Uuid, OrderRow>, created: seq<Uuid>, i: nat)
    requires i < |created|
    ensures var before := LoadedLanes(symbols, orders, created[..i]);
            LoadedLanes(symbols, orders, created[..i + 1])
            == if created[i] in orders then AfterRow(before, created[i], orders[created[i]]) else before
  {
    assert created[..i + 1][..i] == created[..i];
    var before, after := LoadedLanes(symbols, orders, created[..i]), LoadedLanes(symbols, orders, created[..i + 1]);
    var id := created[i];
    if id in orders {
      forall s | s in symbols
        ensures after[s] == AfterRow(before, id, orders[id])[s]
      {
      }
    }
  }

  /** The engineAdapter of order.Service: a committed row is submitted with its full quantity. */
  method SubmitPlace(engine: EngineObject, id: Uuid, row: OrderRow) returns (r: SubmitResult)
    requires engine.Valid()
    modifies engine.shards.Values
    ensures engine.Valid() && engine.shards == old(engine.shards)
    ensures r == SubmitOutcome(engine.capacity, old(engine.View()), PlaceCommand(Some(X.EngineOrder(id, row))))
    ensures engine.View() == AfterSubmit(engine.capacity, old(engine.View()),
            PlaceCommand(Some(X.EngineOrder(id, row))))
  {
    r := engine.Submit(PlaceCommand(Some(Order(id, row.userId, row.symbol, row.side, row.price, row.quantity,
        row.quantity))));
  }

  method SubmitCancel(engine: EngineObject, id: Uuid, symbol: string) returns (r: SubmitResult)
    requires engine.Valid()
    modifies engine.shards.Values
    ensures engine.Valid() && engine.shards == old(engine.shards)
    ensures r == SubmitOutcome(engine.capacity, old(engine.View()), CancelCommand(Some(CancelInfo(id, symbol))))
    ensures engine.View() == AfterSubmit(engine.capacity, old(engine.View()),
            CancelCommand(Some(CancelInfo(id, symbol))))
  {
    r := engine.Submit(CancelCommand(Some(CancelInfo(id, symbol))));
  }

  /** A match with a partner side, one without a user, is dropped whatever the tables hold. */
  lemma PartnerMatchIsDropped(db: Db, m: Matched, tradeId: Uuid)
    requires m.trade.buyUserId == "" || m.trade.sellUserId == ""
    ensures X.OnTradeMatched(db, m, tradeId).db == db && X.OnTradeMatched(db, m, tradeId).result.Err?
  {
  }

  /** A match of two users is executed as it was published, with a key of its own. */
  lemma UserMatchIsExecuted(db: Db, m: Matched, tradeId: Uuid)
    requires m.trade.buyUserId != "" && m.trade.sellUserId != ""
    ensures var t := m.trade;
            X.OnTradeMatched(db, m, tradeId)
            == T.ExecuteTrade(db,
                              T.ExecuteTradeCommand(t.symbol, t.buyOrderId, t.sellOrderId, Dec(t.price),
                                                    Dec(t.quantity), MatchKey(t.buyOrderId, t.sellOrderId, m.seqNo)),
                              tradeId)
  {
    hide T.ExecuteTrade, MatchKey, Dec;
  }

  /** The production processor: drop a match with a partner side, settle any other. */
  method OnTradeMatched(database: Services.Database, m: Matched, tradeId: Uuid)
    modifies database
    ensures database.db == X.OnTradeMatched(old(database.db), m, tradeId).db
  {
    if X.IsPartner(m.trade.buyUserId) || X.IsPartner(m.trade.sellUserId) {
      return;
    }
    var result := database.ExecuteTrade(X.SettleCommand(m), tradeId);
  }
}
