/** Restart keeps the invariant, so every run of the exchange does. */
module ExchangeRestart {
  import opened Domain
  import opened PriceTime
  import opened BookFacts
  import opened EngineRun
  import opened Numeric
  import opened Records
  import opened Exchange
  import opened ExchangeInv
  import opened ExchangeWork
  import opened ExchangeSettle
  import T = Transactions
  import L = LedgerRun
  import A = Answers

  // ---- The rebuilt book ------------------------------------------------------------------

  /** What a row contributes to the rebuilt book. */
  function LiveQty(symbol: string, row: OrderRow): int {
    if row.symbol == symbol && IsCancellable(row.status) && row.quantity > row.filled then row.quantity - row.filled
      else 0
  }

  ghost predicate Distinct(ids: seq<Uuid>) {
    forall i, j :: 0 <= i < j < |ids| ==> ids[i] != ids[j]
  }

  /** The rebuilt book is in order and holds exactly the live rows, each once and with what is
      left to fill of it. */
  lemma {:induction false} RehydratedHolds(symbol: string, db: Db, created: seq<Uuid>)
    requires Distinct(created)
    ensures var b := Rehydrated(symbol, db.orders, created);
            && Ordered(b) && AllRest(symbol, db, b.bids) && AllRest(symbol, db, b.asks)
            && forall id: Uuid ::
                 var q := if id in created && id in db.orders then LiveQty(symbol, db.orders[id]) else 0;
                 Resting(b, id) == q && Copies(b, id) == (if q > 0 then 1 else 0)
  {
    hide AllRest, Ordered, Resting, Copies, LiveQty, LoadRow;
    if created == [] {
      EmptyBook(symbol, db);
    } else {
      var k := |created| - 1;
      var b := Rehydrated(symbol, db.orders, created[..k]);
      RehydratedHolds(symbol, db, created[..k]);
      if created[k] in db.orders {
        LoadRowHolds(symbol, db, b, created[k]);
      }
      forall id
        ensures id in created <==> id in created[..k] || id == created[k]
        ensures id in created[..k] ==> id != created[k]
      {
      }
    }
  }

  lemma EmptyBook(symbol: string, db: Db)
    ensures var b := Book([], []);
            && Ordered(b) && AllRest(symbol, db, b.bids) && AllRest(symbol, db, b.asks)
            && forall id :: Resting(b, id) == 0 && Copies(b, id) == 0
  {
  }

  lemma LoadRowHolds(symbol: string, db: Db, b: Book, id: Uuid)
    requires Ordered(b) && AllRest(symbol, db, b.bids) && AllRest(symbol, db, b.asks) && id in db.orders
    ensures var b' := LoadRow(symbol, b, id, db.orders[id]);
            var q := LiveQty(symbol, db.orders[id]);
            && Ordered(b') && AllRest(symbol, db, b'.bids) && AllRest(symbol, db, b'.asks)
            && forall x :: Resting(b', x) == Resting(b, x) + (if x == id then q else 0)
                           && Copies(b', x) == Copies(b, x) + (if x == id && q > 0 then 1 else 0)
  {
    hide AllRest;
    var row := db.orders[id];
    var q := LiveQty(symbol, row);
    if q > 0 {
      var o := Order(id, row.userId, symbol, row.side, row.price, q, q);
      JoinOk(o.side, Queue(b, o.side), o);
      JoinRests(symbol, db, o.side, Queue(b, o.side), o);
      forall x
        ensures Sum(Join(o.side, Queue(b, o.side), o), QtyOf(x)) == Sum(Queue(b, o.side), QtyOf(x))
                + (if x == id then q else 0)
        ensures Sum(Join(o.side, Queue(b, o.side), o), OneOf(x)) == Sum(Queue(b, o.side), OneOf(x))
                + (if x == id then 1 else 0)
      {
        JoinSum(o.side, Queue(b, o.side), o, QtyOf(x));
        JoinSum(o.side, Queue(b, o.side), o, OneOf(x));
      }
      hide Join, QueueOk;
    }
  }

  // ---- Restart ---------------------------------------------------------------------------

  lemma RestartKeepsInv(symbol: string, s: State)
    requires Inv(symbol, s)
    ensures Inv(symbol, Act(symbol, s, Restart))
  {
    hide BookOk, PendingOk, MatchesOk, KeysOk, AccountOk, RowsOk, CreatedOk, SplitSymbol;
    RestartKeepsBook(symbol, s);
    RestartKeepsLog(symbol, s);
    RestartKeepsAccount(symbol, s);
  }

  lemma RestartKeepsBook(symbol: string, s: State)
    requires CreatedOk(s.db)
    ensures BookOk(symbol, Act(symbol, s, Restart)) && PendingOk(symbol, Act(symbol, s, Restart))
  {
    hide Ordered, RestsFor, Copies;
    RehydratedHolds(symbol, s.db, s.db.created);
    hide Rehydrated;
  }

  lemma RestartKeepsLog(symbol: string, s: State)
    requires MatchesOk(symbol, s) && KeysOk(symbol, s)
    ensures MatchesOk(symbol, Act(symbol, s, Restart)) && KeysOk(symbol, Act(symbol, s, Restart))
  {
  }

  lemma RestartKeepsAccount(symbol: string, s: State)
    requires Inv(symbol, s)
    ensures AccountOk(symbol, Act(symbol, s, Restart))
  {
    var s' := Act(symbol, s, Restart);
    hide Inv, Accounted, Rehydrated, Excess;
    assert s'.direct == Excess(s.db.orders);
    ExcessIsOfRows(s.db.orders);
    forall id | Ours(symbol, s.db, id)
      ensures Accounted(s', id) <= s.db.orders[id].quantity
      ensures s.db.orders[id].status != StatusCancelled ==> Accounted(s', id) == s.db.orders[id].quantity
    {
      RestartAccounts(symbol, s, id);
    }
  }

  lemma ExcessIsOfRows(orders: map<Uuid, OrderRow>)
    ensures forall id :: id in Excess(orders) ==> id in orders
  {
  }

  lemma RestartAccounts(symbol: string, s: State, id: Uuid)
    requires Inv(symbol, s) && Ours(symbol, s.db, id)
    ensures var s' := Act(symbol, s, Restart);
            && s'.db == s.db
            && Accounted(s', id) <= s.db.orders[id].quantity
            && (s.db.orders[id].status != StatusCancelled ==> Accounted(s', id) == s.db.orders[id].quantity)
  {
    hide Act, Inv, Resting, Due, Queued, Rehydrated;
    RestartShape(symbol, s, id);
    RestartRests(symbol, s, id);
    OursAccount(symbol, s, id);
  }

  lemma RestartShape(symbol: string, s: State, id: Uuid)
    ensures var s' := Act(symbol, s, Restart);
            && s'.db == s.db && s'.shard.book == Rehydrated(symbol, s.db.orders, s.db.created)
            && s'.lost == {} && Recent(s') == [] && Due(s', id) == 0 && Queued(s', id) == 0
            && s'.direct == Excess(s.db.orders)
  {
    hide Rehydrated, Matches;
    assert Recent(Act(symbol, s, Restart)) == [];
  }

  lemma RestartRests(symbol: string, s: State, id: Uuid)
    requires Inv(symbol, s) && Ours(symbol, s.db, id)
    ensures Resting(Rehydrated(symbol, s.db.orders, s.db.created), id) == LiveQty(symbol, s.db.orders[id])
  {
    hide Resting, Rehydrated, BookOk, PendingOk, MatchesOk, KeysOk, AccountOk, RowsOk;
    assert id in s.db.created;
    RehydratedHolds(symbol, s.db, s.db.created);
  }

  // ---- Every run -------------------------------------------------------------------------

  lemma ActKeepsInv(symbol: string, s: State, a: Action)
    requires Inv(symbol, s) && Allowed(symbol, s.db, a)
    ensures Inv(symbol, Act(symbol, s, a))
  {
    hide Inv, Allowed, Placed, RowCancelled, T.PlaceOrder, T.CancelOrder, Handle, OnTradeMatched, T.Perform, Rehydrated;
    match a
    case Place(markets, cmd, id) =>
      if T.PlaceOrder(s.db, markets, cmd, id).result.Ok? {
        PlaceIsPlaced(symbol, s, markets, cmd, id);
        PlaceKeepsInv(symbol, s, Act(symbol, s, a), id, T.NewRow(cmd, cmd.side.value));
      } else {
        T.FailureChangesNothing(s.db, T.CallPlace(markets, cmd, id));
        assert T.PlaceOrder(s.db, markets, cmd, id) == T.Perform(s.db, T.CallPlace(markets, cmd, id))
            by { PerformPlace(s.db, markets, cmd, id); }
      }
    case CancelRow(id) =>
      if T.CancelOrder(s.db, id).result.Ok? {
        CancelIsRowCancelled(symbol, s, id);
        CancelKeepsInv(symbol, s, Act(symbol, s, a), id);
      } else {
        T.FailureChangesNothing(s.db, T.CallCancel(id));
        assert T.CancelOrder(s.db, id) == T.Perform(s.db, T.CallCancel(id)) by { PerformCancel(s.db, id); }
      }
    case Submit(i, accepted) =>
      if i < |s.outbound| {
        SubmitKeepsInv(symbol, s, i, accepted);
      }
    case Work =>
      if s.channel != [] {
        WorkKeepsInv(symbol, s);
      }
    case Deliver(i, tradeId) => DeliverKeepsInv(symbol, s, i, tradeId);
    case TradeDirectly(cmd, tradeId) => TradeKeepsInv(symbol, s, cmd, tradeId);
    case Elsewhere(c) => ElsewhereKeepsInv(symbol, s, c);
    case Restart => RestartKeepsInv(symbol, s);
  }

  lemma PerformPlace(db: Db, markets: set<string>, cmd: T.PlaceOrderCommand, id: Uuid)
    ensures T.PlaceOrder(db, markets, cmd, id) == T.Perform(db, T.CallPlace(markets, cmd, id))
  {
    hide T.PlaceOrder;
  }

  lemma PerformCancel(db: Db, id: Uuid)
    ensures T.CancelOrder(db, id) == T.Perform(db, T.CallCancel(id))
  {
    hide T.CancelOrder;
  }

  lemma InitialInv(symbol: string, s: State)
    requires Initial(symbol, s)
    ensures Inv(symbol, s)
  {
    assert Matches(s.shard.log) == [];
  }

  /** Whatever the order of placements, cancels, submissions, worker steps, deliveries, direct
      trades, other calls and restarts: the invariant holds, so what is filled of every order
      beside direct trades and what is outstanding of it make up its quantity. */
  lemma {:induction false} RunKeepsInv(symbol: string, s: State, actions: seq<Action>)
    requires Initial(symbol, s) && AllAllowed(symbol, s, actions)
    ensures Inv(symbol, Exec(symbol, s, actions))
  {
    hide Initial, Inv, Allowed, Act;
    if actions == [] {
      InitialInv(symbol, s);
    } else {
      var k := |actions| - 1;
      forall j | 0 <= j < k
        ensures Allowed(symbol, Exec(symbol, s, actions[..k][..j]).db, actions[..k][j])
      {
        assert actions[..k][..j] == actions[..j];
      }
      RunKeepsInv(symbol, s, actions[..k]);
      ActKeepsInv(symbol, Exec(symbol, s, actions[..k]), actions[k]);
    }
  }

  // ---- Runs without direct trades --------------------------------------------------------

  /** The trades requested directly leave the orders of the symbol alone. */
  ghost predicate NoneDirect(symbol: string, s: State, actions: seq<Action>) {
    forall k :: 0 <= k < |actions| && actions[k].TradeDirectly? ==>
      var db := Exec(symbol, s, actions[..k]).db;
      !Ours(symbol, db, actions[k].trade.buyOrderId) && !Ours(symbol, db, actions[k].trade.sellOrderId)
  }

  /** The direct account of the symbol's orders is empty. */
  ghost predicate NothingDirect(symbol: string, s: State) {
    forall id :: Ours(symbol, s.db, id) ==> DirectOf(s, id) == 0
  }

  lemma ActKeepsNothingDirect(symbol: string, s: State, a: Action)
    requires Inv(symbol, s) && NothingDirect(symbol, s) && Allowed(symbol, s.db, a)
    requires a.TradeDirectly? ==>
      !Ours(symbol, s.db, a.trade.buyOrderId) && !Ours(symbol, s.db, a.trade.sellOrderId)
    ensures NothingDirect(symbol, Act(symbol, s, a))
  {
    hide Inv, Allowed, Handle, Rehydrated, Matches, ForeignKey;
    var s' := Act(symbol, s, a);
    forall id | Ours(symbol, s'.db, id)
      ensures DirectOf(s', id) == 0
    {
      ActDirect(symbol, s, a, id);
    }
  }

  lemma ActDirect(symbol: string, s: State, a: Action, id: Uuid)
    requires Inv(symbol, s) && Ours(symbol, Act(symbol, s, a).db, id)
    requires Ours(symbol, s.db, id) ==> DirectOf(s, id) == 0
    requires a.TradeDirectly? ==>
      !Ours(symbol, s.db, a.trade.buyOrderId) && !Ours(symbol, s.db, a.trade.sellOrderId)
    ensures DirectOf(Act(symbol, s, a), id) == 0
  {
    hide Inv, Allowed, Handle, Rehydrated, Matches, ForeignKey, T.ExecuteTrade, T.PlaceOrder, T.CancelOrder, T.Fill;
    assert id in s.direct ==> id in s.db.orders by { InvDirect(symbol, s); }
    match a
    case TradeDirectly(cmd, tradeId) =>
      CallKeepsRows(s.db, T.CallTrade(cmd, tradeId));
      if T.ExecuteTrade(s.db, cmd, tradeId).result.Ok? {
        L.TradeEffect(s.db, cmd, tradeId);
      } else {
        T.FailureChangesNothing(s.db, T.CallTrade(cmd, tradeId));
      }
    case Restart =>
      if Ours(symbol, s.db, id) {
        FilledExactly(symbol, s, id);
      }
    case _ =>
      DirectStays(symbol, s, a, id);
  }

  lemma InvDirect(symbol: string, s: State)
    requires Inv(symbol, s)
    ensures forall id :: id in s.direct ==> id in s.db.orders
  {
  }

  /** Only a direct trade and a restart touch the direct account. */
  lemma DirectStays(symbol: string, s: State, a: Action, id: Uuid)
    requires !a.TradeDirectly? && !a.Restart?
    requires Ours(symbol, Act(symbol, s, a).db, id) && (id in s.direct ==> id in s.db.orders)
    ensures DirectOf(Act(symbol, s, a), id) == DirectOf(s, id)
    ensures id in s.direct ==> Ours(symbol, s.db, id)
  {
    ActKeepsRows(symbol, s, a);
    assert id in s.db.orders ==> RowKept(s.db.orders[id], Act(symbol, s, a).db.orders[id]);
    hide T.PlaceOrder, T.CancelOrder, OnTradeMatched, T.Perform, Handle, Matches;
  }

  /** No action deletes a row, changes its identity or moves it once terminal. */
  lemma ActKeepsRows(symbol: string, s: State, a: Action)
    ensures RowsKept(s.db, Act(symbol, s, a).db)
  {
    hide RowsKept, T.PlaceOrder, T.CancelOrder, T.ExecuteTrade, Handle, Matches, Rehydrated;
    match a
    case Place(markets, cmd, id) => CallKeepsRows(s.db, T.CallPlace(markets, cmd, id));
    case CancelRow(id) => CallKeepsRows(s.db, T.CallCancel(id));
    case Deliver(i, tradeId) =>
      SameRows(s.db);
      var ms := Matches(s.shard.log);
      if s.since <= i < |ms| {
        CallKeepsRows(s.db, T.CallTrade(SettleCommand(ms[i]), tradeId));
      }
    case TradeDirectly(cmd, tradeId) => CallKeepsRows(s.db, T.CallTrade(cmd, tradeId));
    case Elsewhere(c) => CallKeepsRows(s.db, c);
    case _ => SameRows(s.db);
  }

  lemma SameRows(db: Db)
    ensures RowsKept(db, db)
  {
  }

  lemma {:induction false} RunDirectNone(symbol: string, s: State, actions: seq<Action>)
    requires Initial(symbol, s) && AllAllowed(symbol, s, actions) && NoneDirect(symbol, s, actions)
    ensures NothingDirect(symbol, Exec(symbol, s, actions))
  {
    hide Inv, Allowed, Act, NothingDirect;
    if actions == [] {
      assert NothingDirect(symbol, s) by { InitialDirect(symbol, s); }
    } else {
      var k := |actions| - 1;
      forall j | 0 <= j < k
        ensures Allowed(symbol, Exec(symbol, s, actions[..k][..j]).db, actions[..k][j])
        ensures actions[..k][..j] == actions[..j]
      {
        assert actions[..k][..j] == actions[..j];
      }
      RunDirectNone(symbol, s, actions[..k]);
      RunKeepsInv(symbol, s, actions[..k]);
      ActKeepsNothingDirect(symbol, Exec(symbol, s, actions[..k]), actions[k]);
    }
  }

  lemma InitialDirect(symbol: string, s: State)
    requires Initial(symbol, s)
    ensures NothingDirect(symbol, s)
  {
  }

  /** As long as direct trades leave its orders alone, no order of the symbol is ever overfilled,
      whatever else happens. */
  lemma NeverOverfilled(symbol: string, s: State, actions: seq<Action>, id: Uuid)
    requires Initial(symbol, s) && AllAllowed(symbol, s, actions) && NoneDirect(symbol, s, actions)
    requires Ours(symbol, Exec(symbol, s, actions).db, id)
    ensures var row := Exec(symbol, s, actions).db.orders[id]; row.filled <= row.quantity
  {
    hide Initial, AllAllowed, Inv, Exec, NoneDirect, DirectOf, Outstanding;
    RunKeepsInv(symbol, s, actions);
    RunDirectNone(symbol, s, actions);
    FilledExactly(symbol, Exec(symbol, s, actions), id);
  }

  /** In every state that a run reaches, exactly the OPEN and PARTIAL orders of the symbol can be
      cancelled, whatever has been traded of them. */
  lemma OpenCanBeCancelled(symbol: string, s: State, actions: seq<Action>, id: Uuid)
    requires Initial(symbol, s) && AllAllowed(symbol, s, actions) && Ours(symbol, Exec(symbol, s, actions).db, id)
    ensures var db := Exec(symbol, s, actions).db;
            T.CancelOrder(db, id).result == Ok(id) <==>
              db.orders[id].status == StatusOpen || db.orders[id].status == StatusPartial
  {
    hide Initial, AllAllowed, Inv, Exec, T.CancelOrder, SplitSymbol, A.UnfilledReserve;
    var t := Exec(symbol, s, actions);
    RunKeepsInv(symbol, s, actions);
    InvUser(symbol, t, id);
    A.CancelAnswers(t.db, id);
  }

  lemma InvUser(symbol: string, s: State, id: Uuid)
    requires Inv(symbol, s) && Ours(symbol, s.db, id)
    ensures SplitSymbol(symbol).Some? && Provisioned(symbol, s.db, s.db.orders[id].userId)
  {
    hide SplitSymbol;
  }

  // ---- Numbers ---------------------------------------------------------------------------

  /** The matches since the last restart are numbered 1, 2, 3, and so on. */
  ghost predicate NumbersOk(s: State) {
    var ms := Matches(s.shard.log);
    && s.since <= |ms| && s.shard.seqNo == |ms| - s.since
    && forall i :: s.since <= i < |ms| ==> ms[i].seqNo == i - s.since + 1
  }

  lemma ActKeepsNumbers(symbol: string, s: State, a: Action)
    requires NumbersOk(s)
    ensures NumbersOk(Act(symbol, s, a))
  {
    hide T.PlaceOrder, T.CancelOrder, T.ExecuteTrade, T.Perform, OnTradeMatched, Rehydrated, Match, Cancel;
    if a.Work? && s.channel != [] {
      match s.channel[0]
      case PlaceCommand(Some(o)) => PlaceMatches(symbol, s.shard, o);
      case CancelCommand(Some(c)) => CancelMatches(s.shard, c);
      case _ =>
    }
  }

  /** Over every run the counter starts again with every restart and never skips a number. */
  lemma {:induction false} RunNumbersMatches(symbol: string, s: State, actions: seq<Action>)
    requires Initial(symbol, s)
    ensures NumbersOk(Exec(symbol, s, actions))
  {
    hide Act;
    if actions != [] {
      var k := |actions| - 1;
      RunNumbersMatches(symbol, s, actions[..k]);
      hide NumbersOk;
      ActKeepsNumbers(symbol, Exec(symbol, s, actions[..k]), actions[k]);
    }
  }
}
