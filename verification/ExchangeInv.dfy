/** Every action of the exchange keeps its invariant. */
module ExchangeInv {
  import opened Domain
  import opened PriceTime
  import opened BookFacts
  import opened EngineRun
  import opened Numeric
  import opened Records
  import opened MatchKeys
  import opened Exchange
  import T = Transactions
  import L = LedgerRun

  // ---- Sums ------------------------------------------------------------------------------

  lemma {:induction false} SumSame<X>(s: seq<X>, f: X -> int, g: X -> int)
    requires forall i :: 0 <= i < |s| ==> f(s[i]) == g(s[i])
    ensures Sum(s, f) == Sum(s, g)
  {
    if s != [] {
      SumSame(s[..|s| - 1], f, g);
    }
  }

  lemma {:induction false} SumZero<X>(s: seq<X>, f: X -> int)
    requires forall i :: 0 <= i < |s| ==> f(s[i]) == 0
    ensures Sum(s, f) == 0
  {
    if s != [] {
      SumZero(s[..|s| - 1], f);
    }
  }

  /** f and g differ at one position only. */
  lemma SumDiffersAt<X>(s: seq<X>, k: int, f: X -> int, g: X -> int)
    requires 0 <= k < |s| && forall i :: 0 <= i < |s| && i != k ==> f(s[i]) == g(s[i])
    ensures Sum(s, g) == Sum(s, f) + g(s[k]) - f(s[k])
  {
    SumAround(s, k, f);
    SumAround(s, k, g);
    SumSame(s[..k], f, g);
    SumSame(s[k + 1..], f, g);
  }

  // ---- What every call keeps of the rows -------------------------------------------------

  /** Identity never changes, and a terminal row never moves. */
  ghost predicate RowKept(a: OrderRow, b: OrderRow) {
    b == a.(filled := b.filled, status := b.status) && (IsTerminal(a.status) ==> b == a)
  }

  ghost predicate RowsKept(db: Db, db': Db) {
    && db'.accounts == db.accounts
    && forall id :: id in db.orders ==> id in db'.orders && RowKept(db.orders[id], db'.orders[id])
  }

  lemma CallKeepsRows(db: Db, c: T.Call)
    ensures RowsKept(db, T.Perform(db, c).db)
  {
    hide T.ExecuteTrade, T.Fill, T.ReserveAmount, T.Unreserved, T.Stored, T.TradeDrafts, Units, Balance, SplitSymbol,
         ReserveAsset;
    match c
    case CallTrade(cmd, tradeId) =>
      if T.ExecuteTrade(db, cmd, tradeId).result.Ok? {
        L.TradeEffect(db, cmd, tradeId);
        L.FillRow(db.orders[cmd.buyOrderId], cmd.quantity);
        L.FillRow(db.orders[cmd.sellOrderId], cmd.quantity);
      } else {
        T.FailureChangesNothing(db, c);
      }
    case _ =>
  }

  lemma BookFrame(symbol: string, s: State, s': State)
    requires BookOk(symbol, s) && RowsKept(s.db, s'.db) && s'.shard.book == s.shard.book
    ensures BookOk(symbol, s')
  {
    hide Ordered, UniqueIds;
    forall o | RestsFor(symbol, s.db, o)
      ensures RestsFor(symbol, s'.db, o)
    {
      assert RowKept(s.db.orders[o.id], s'.db.orders[o.id]);
    }
  }

  lemma MatchesFrame(symbol: string, s: State, s': State)
    requires MatchesOk(symbol, s) && RowsKept(s.db, s'.db) && s'.shard.log == s.shard.log && s'.since == s.since
    ensures MatchesOk(symbol, s')
  {
    hide DistinctPairs;
    forall m | MatchOk(symbol, s.db, m)
      ensures MatchOk(symbol, s'.db, m)
    {
      assert RowKept(s.db.orders[m.trade.buyOrderId], s'.db.orders[m.trade.buyOrderId]);
      assert RowKept(s.db.orders[m.trade.sellOrderId], s'.db.orders[m.trade.sellOrderId]);
    }
  }

  lemma CommandFrame(symbol: string, db: Db, db': Db, sh: Shard, c: Command)
    requires CommandOk(symbol, db, sh, c) && RowsKept(db, db')
    ensures CommandOk(symbol, db', sh, c)
  {
    hide Unseen;
    match c
    case PlaceCommand(Some(o)) => assert RowKept(db.orders[o.id], db'.orders[o.id]);
    case CancelCommand(Some(c)) => assert RowKept(db.orders[c.orderId], db'.orders[c.orderId]);
    case _ =>
  }

  lemma PendingFrame(symbol: string, s: State, s': State)
    requires PendingOk(symbol, s) && RowsKept(s.db, s'.db)
    requires s'.shard == s.shard && s'.outbound == s.outbound && s'.channel == s.channel && s'.lost == s.lost
    ensures PendingOk(symbol, s')
  {
    forall c | c in s.outbound || c in s.channel
      ensures CommandOk(symbol, s'.db, s.shard, c)
    {
      CommandFrame(symbol, s.db, s'.db, s.shard, c);
    }
    forall id | Ours(symbol, s.db, id)
      ensures Ours(symbol, s'.db, id)
    {
      assert RowKept(s.db.orders[id], s'.db.orders[id]);
    }
    hide CommandOk, RowsKept;
  }

  /** No new settlement key: the keys stay explained. */
  lemma KeysFrame(symbol: string, s: State, s': State)
    requires KeysOk(symbol, s) && RowsKept(s.db, s'.db) && s'.shard.log == s.shard.log
    requires forall key :: (key, ScopeTrade) in s'.db.keys ==> (key, ScopeTrade) in s.db.keys
    ensures KeysOk(symbol, s')
  {
    forall b: Uuid | b in s.db.orders
      ensures b in s'.db.orders && s'.db.orders[b].symbol == s.db.orders[b].symbol
    {
      assert RowKept(s.db.orders[b], s'.db.orders[b]);
    }
    hide RowsKept;
  }

  lemma DueSame(s: State, s': State, id: Uuid)
    requires s'.shard.log == s.shard.log && s'.since == s.since
    requires forall key :: (key, ScopeTrade) in s'.db.keys <==> (key, ScopeTrade) in s.db.keys
    ensures Due(s', id) == Due(s, id)
  {
    forall m
      ensures DueOf(s.db.keys, id)(m) == DueOf(s'.db.keys, id)(m)
    {
      assert IsSettled(s.db.keys, m) == IsSettled(s'.db.keys, m);
    }
    SumSame(Recent(s), DueOf(s.db.keys, id), DueOf(s'.db.keys, id));
  }

  // ---- Place -----------------------------------------------------------------------------

  /** An id that is not in the tables is unknown to the engine. */
  lemma NewIdUnseen(symbol: string, s: State, id: Uuid)
    requires BookOk(symbol, s) && MatchesOk(symbol, s) && id !in s.db.orders
    ensures Unseen(s.shard, id) && Resting(s.shard.book, id) == 0
  {
    NotCounted(s.shard.book.bids, id);
    NotCounted(s.shard.book.asks, id);
    forall i | 0 <= i < |Matches(s.shard.log)|
      ensures !Mentions(Matches(s.shard.log)[i].trade, id)
    {
      assert MatchOk(symbol, s.db, Matches(s.shard.log)[i]);
    }
  }

  lemma NoMentionNoDue(s: State, id: Uuid)
    requires forall i :: 0 <= i < |Matches(s.shard.log)| ==> !Mentions(Matches(s.shard.log)[i].trade, id)
    ensures Due(s, id) == 0
  {
    forall i | 0 <= i < |Recent(s)|
      ensures DueOf(s.db.keys, id)(Recent(s)[i]) == 0
    {
      var m := Recent(s)[i];
      assert m == Matches(s.shard.log)[s.since + i];
      assert TradedOf(id)(m.trade) == 0;
    }
    SumZero(Recent(s), DueOf(s.db.keys, id));
  }

  lemma NewIdNotQueued(symbol: string, s: State, id: Uuid)
    requires PendingOk(symbol, s) && id !in s.db.orders
    ensures Queued(s, id) == 0 && id !in s.lost
    ensures Sum(s.outbound, PlacedOne(id)) == 0 && Sum(s.channel, PlacedOne(id)) == 0
  {
    hide Unseen;
    NotPlaced(symbol, s, s.outbound, id);
    NotPlaced(symbol, s, s.channel, id);
  }

  lemma {:induction false} NotPlaced(symbol: string, s: State, cmds: seq<Command>, id: Uuid)
    requires id !in s.db.orders && forall c :: c in cmds ==> CommandOk(symbol, s.db, s.shard, c)
    ensures Sum(cmds, PlacedOne(id)) == 0 && Sum(cmds, PlacedQty(id)) == 0
  {
    hide Unseen;
    if cmds != [] {
      assert CommandOk(symbol, s.db, s.shard, cmds[|cmds| - 1]);
      NotPlaced(symbol, s, cmds[..|cmds| - 1], id);
    }
  }

  /** The state after a committed placement. */
  ghost predicate Placed(symbol: string, s: State, s': State, id: Uuid, row: OrderRow) {
    && id !in s.db.orders && s'.db.orders == s.db.orders[id := row]
    && s'.db.created == s.db.created + [id] && s'.db.accounts == s.db.accounts
    && (forall key :: (key, ScopeTrade) in s'.db.keys <==> (key, ScopeTrade) in s.db.keys)
    && s'.shard == s.shard && s'.since == s.since && s'.channel == s.channel && s'.lost == s.lost
         && s'.direct == s.direct
    && s'.outbound == (if row.symbol == symbol
                       then s.outbound + [PlaceCommand(Some(EngineOrder(id, row)))]
                       else s.outbound)
    && row.filled == 0 && row.status == StatusOpen
    && (row.symbol == symbol ==> row.quantity > 0 && Provisioned(symbol, s.db, row.userId))
  }

  lemma PlaceIsPlaced(symbol: string, s: State, markets: set<string>, cmd: T.PlaceOrderCommand, id: Uuid)
    requires Allowed(symbol, s.db, Place(markets, cmd, id))
    requires T.PlaceOrder(s.db, markets, cmd, id).result.Ok?
    ensures cmd.side.Some?
    ensures Placed(symbol, s, Act(symbol, s, Place(markets, cmd, id)), id, T.NewRow(cmd, cmd.side.value))
  {
    L.PlaceEffect(s.db, markets, cmd, id);
    hide T.PlaceOrder, Units, Neg, T.ReserveAmount, ReserveAsset;
  }

  lemma PlaceKeepsInv(symbol: string, s: State, s': State, id: Uuid, row: OrderRow)
    requires Inv(symbol, s) && Placed(symbol, s, s', id, row)
    ensures Inv(symbol, s')
  {
    hide BookOk, PendingOk, MatchesOk, KeysOk, AccountOk;
    assert RowsKept(s.db, s'.db);
    BookFrame(symbol, s, s');
    MatchesFrame(symbol, s, s');
    KeysFrame(symbol, s, s');
    PlaceKeepsPending(symbol, s, s', id, row);
    PlaceKeepsAccount(symbol, s, s', id, row);
  }

  lemma PlaceKeepsPending(symbol: string, s: State, s': State, id: Uuid, row: OrderRow)
    requires BookOk(symbol, s) && MatchesOk(symbol, s) && PendingOk(symbol, s) && Placed(symbol, s, s', id, row)
    ensures PendingOk(symbol, s')
  {
    NewIdUnseen(symbol, s, id);
    NewIdNotQueued(symbol, s, id);
    assert RowsKept(s.db, s'.db);
    PendingFrame(symbol, s, s.(db := s'.db));
    hide Unseen, BookOk, MatchesOk, RowsKept;
    if row.symbol == symbol {
      var c := PlaceCommand(Some(EngineOrder(id, row)));
      assert CommandOk(symbol, s'.db, s.shard, c);
      AppendKeepsPending(symbol, s.(db := s'.db), s', c);
    }
  }

  /** One more command that is in order, and is not a second placement. */
  lemma AppendKeepsPending(symbol: string, s: State, s': State, c: Command)
    requires PendingOk(symbol, s) && CommandOk(symbol, s.db, s.shard, c)
    requires c.PlaceCommand? && c.order.Some? ==>
      && c.order.value.id !in s.lost
      && Sum(s.outbound, PlacedOne(c.order.value.id)) + Sum(s.channel, PlacedOne(c.order.value.id)) == 0
    requires s' == s.(outbound := s.outbound + [c])
    ensures PendingOk(symbol, s')
  {
    hide CommandOk;
    forall x
      ensures Sum(s'.outbound, PlacedOne(x)) == Sum(s.outbound, PlacedOne(x)) + PlacedOne(x)(c)
    {
      SumAppend(s.outbound, [c], PlacedOne(x));
      SumOne(c, PlacedOne(x));
    }
  }

  lemma PlaceKeepsAccount(symbol: string, s: State, s': State, id: Uuid, row: OrderRow)
    requires BookOk(symbol, s) && MatchesOk(symbol, s) && PendingOk(symbol, s) && AccountOk(symbol, s)
    requires Placed(symbol, s, s', id, row)
    ensures AccountOk(symbol, s')
  {
    hide BookOk, PendingOk, MatchesOk, Due, Queued, Resting;
    forall x | Ours(symbol, s'.db, x)
      ensures Accounted(s', x) == if x == id then row.quantity else Accounted(s, x)
    {
      PlaceAccounts(symbol, s, s', id, row, x);
    }
    hide Accounted;
  }

  lemma PlaceAccounts(symbol: string, s: State, s': State, id: Uuid, row: OrderRow, x: Uuid)
    requires BookOk(symbol, s) && MatchesOk(symbol, s) && PendingOk(symbol, s) && AccountOk(symbol, s)
    requires Placed(symbol, s, s', id, row) && Ours(symbol, s'.db, x)
    ensures x != id ==> x in s.db.orders
    ensures Accounted(s', x) == if x == id then row.quantity else Accounted(s, x)
  {
    DueSame(s, s', x);
    PlaceQueues(symbol, s, s', id, row, x);
    if x == id {
      NewIdUnseen(symbol, s, id);
      NoMentionNoDue(s, id);
      NewIdNotQueued(symbol, s, id);
    }
    hide Unseen, BookOk, PendingOk, MatchesOk, Resting, Due, Queued;
  }

  lemma PlaceQueues(symbol: string, s: State, s': State, id: Uuid, row: OrderRow, x: Uuid)
    requires Placed(symbol, s, s', id, row) && Ours(symbol, s'.db, x)
    ensures Queued(s', x) == Queued(s, x) + (if x == id then row.quantity else 0)
  {
    if row.symbol == symbol {
      var c := PlaceCommand(Some(EngineOrder(id, row)));
      SumAppend(s.outbound, [c], PlacedQty(x));
      SumOne(c, PlacedQty(x));
    }
  }

  // ---- CancelRow -------------------------------------------------------------------------

  /** The state after a committed cancel. */
  ghost predicate RowCancelled(symbol: string, s: State, s': State, id: Uuid) {
    && id in s.db.orders && IsCancellable(s.db.orders[id].status)
    && s'.db.orders == s.db.orders[id := s.db.orders[id].(status := StatusCancelled)]
    && s'.db.created == s.db.created && s'.db.accounts == s.db.accounts && s'.db.keys == s.db.keys
    && s'.shard == s.shard && s'.since == s.since && s'.channel == s.channel && s'.lost == s.lost
         && s'.direct == s.direct
    && s'.outbound == (if s.db.orders[id].symbol == symbol
                       then s.outbound + [CancelCommand(Some(CancelInfo(id, symbol)))]
                       else s.outbound)
  }

  lemma CancelIsRowCancelled(symbol: string, s: State, id: Uuid)
    requires T.CancelOrder(s.db, id).result.Ok?
    ensures RowCancelled(symbol, s, Act(symbol, s, CancelRow(id)), id)
  {
    hide T.Unreserved, ReserveAsset, SplitSymbol, Units;
  }

  lemma CancelKeepsInv(symbol: string, s: State, s': State, id: Uuid)
    requires Inv(symbol, s) && RowCancelled(symbol, s, s', id)
    ensures Inv(symbol, s')
  {
    hide BookOk, PendingOk, MatchesOk, KeysOk, AccountOk;
    assert RowsKept(s.db, s'.db);
    BookFrame(symbol, s, s');
    MatchesFrame(symbol, s, s');
    KeysFrame(symbol, s, s');
    CancelKeepsPending(symbol, s, s', id);
    CancelKeepsAccount(symbol, s, s', id);
  }

  lemma CancelKeepsPending(symbol: string, s: State, s': State, id: Uuid)
    requires PendingOk(symbol, s) && RowCancelled(symbol, s, s', id)
    ensures PendingOk(symbol, s')
  {
    assert RowsKept(s.db, s'.db);
    PendingFrame(symbol, s, s.(db := s'.db));
    hide Unseen, RowsKept;
    if s'.outbound != s.outbound {
      var c := CancelCommand(Some(CancelInfo(id, symbol)));
      assert CommandOk(symbol, s'.db, s.shard, c);
      AppendKeepsPending(symbol, s.(db := s'.db), s', c);
    }
  }

  lemma CancelKeepsAccount(symbol: string, s: State, s': State, id: Uuid)
    requires AccountOk(symbol, s) && RowCancelled(symbol, s, s', id)
    ensures AccountOk(symbol, s')
  {
    hide Due, Queued, Resting;
    forall x | Ours(symbol, s'.db, x)
      ensures Due(s', x) == Due(s, x) && Queued(s', x) == Queued(s, x)
    {
      CancelAccounts(symbol, s, s', id, x);
    }
  }

  lemma CancelAccounts(symbol: string, s: State, s': State, id: Uuid, x: Uuid)
    requires RowCancelled(symbol, s, s', id)
    ensures Due(s', x) == Due(s, x) && Queued(s', x) == Queued(s, x)
  {
    hide Due;
    DueSame(s, s', x);
    if s'.outbound != s.outbound {
      var c := CancelCommand(Some(CancelInfo(id, symbol)));
      SumAppend(s.outbound, [c], PlacedQty(x));
      SumOne(c, PlacedQty(x));
    }
  }

  // ---- Submit ----------------------------------------------------------------------------

  lemma SubmitSums(symbol: string, s: State, i: nat, accepted: bool, f: Command -> int)
    requires i < |s.outbound|
    ensures var s' := Act(symbol, s, Submit(i, accepted));
            && Sum(s'.outbound, f) == Sum(s.outbound, f) - f(s.outbound[i])
            && Sum(s'.channel, f) == Sum(s.channel, f) + (if accepted then f(s.outbound[i]) else 0)
  {
    SumAround(s.outbound, i, f);
    SumAppend(s.outbound[..i], s.outbound[i + 1..], f);
    SumAppend(s.channel, [s.outbound[i]], f);
    SumOne(s.outbound[i], f);
  }

  lemma SubmitKeepsInv(symbol: string, s: State, i: nat, accepted: bool)
    requires Inv(symbol, s) && i < |s.outbound|
    ensures Inv(symbol, Act(symbol, s, Submit(i, accepted)))
  {
    hide RowsOk, BookOk, PendingOk, MatchesOk, KeysOk, AccountOk, CreatedOk;
    var s' := Act(symbol, s, Submit(i, accepted));
    assert RowsKept(s.db, s'.db);
    BookFrame(symbol, s, s');
    MatchesFrame(symbol, s, s');
    KeysFrame(symbol, s, s');
    SubmitKeepsPending(symbol, s, i, accepted);
    SubmitKeepsAccount(symbol, s, i, accepted);
    RowsFrame(symbol, s, s');
  }

  lemma RowsFrame(symbol: string, s: State, s': State)
    requires RowsOk(symbol, s.db) && CreatedOk(s.db) && s'.db == s.db
    ensures RowsOk(symbol, s'.db) && CreatedOk(s'.db)
  {
  }

  lemma SubmitKeepsPending(symbol: string, s: State, i: nat, accepted: bool)
    requires PendingOk(symbol, s) && i < |s.outbound|
    ensures PendingOk(symbol, Act(symbol, s, Submit(i, accepted)))
  {
    var s' := Act(symbol, s, Submit(i, accepted));
    var c := s.outbound[i];
    forall x
      ensures Sum(s'.outbound, PlacedOne(x)) + Sum(s'.channel, PlacedOne(x)) + RefusedOne(s', x) <= 1
    {
      SubmitSums(symbol, s, i, accepted, PlacedOne(x));
      assert x in PlacedId(c) <==> PlacedOne(x)(c) == 1;
      hide Unseen;
    }
    assert CommandOk(symbol, s.db, s.shard, c);
    assert forall x :: x in PlacedId(c) ==> Ours(symbol, s.db, x);
    hide CommandOk, RefusedOne;
  }

  lemma SubmitKeepsAccount(symbol: string, s: State, i: nat, accepted: bool)
    requires RowsOk(symbol, s.db) && PendingOk(symbol, s) && AccountOk(symbol, s) && i < |s.outbound|
    ensures AccountOk(symbol, Act(symbol, s, Submit(i, accepted)))
  {
    hide Act, Accounted, RowsOk, PendingOk;
    var s' := Act(symbol, s, Submit(i, accepted));
    SubmitShape(symbol, s, i, accepted);
    forall x | Ours(symbol, s.db, x)
      ensures Accounted(s', x) == Accounted(s, x)
    {
      SubmitAccounts(symbol, s, i, accepted, x);
    }
  }

  lemma SubmitShape(symbol: string, s: State, i: nat, accepted: bool)
    requires i < |s.outbound|
    ensures var s' := Act(symbol, s, Submit(i, accepted));
            && s'.db == s.db && s'.shard == s.shard && s'.direct == s.direct && s'.since == s.since
            && s'.lost == if accepted then s.lost else s.lost + PlacedId(s.outbound[i])
  {
  }

  /** What leaves the outbound commands is queued or refused. */
  lemma SubmitAccounts(symbol: string, s: State, i: nat, accepted: bool, x: Uuid)
    requires PendingOk(symbol, s) && i < |s.outbound| && Ours(symbol, s.db, x)
    ensures x in Act(symbol, s, Submit(i, accepted)).db.orders
    ensures Accounted(Act(symbol, s, Submit(i, accepted)), x) == Accounted(s, x)
  {
    var s' := Act(symbol, s, Submit(i, accepted));
    var c := s.outbound[i];
    RefusedOnce(symbol, s, i, x);
    hide PendingOk, Unseen, Due, Resting, Act;
    SubmitShape(symbol, s, i, accepted);
    SubmitSums(symbol, s, i, accepted, PlacedQty(x));
    DueSame(s, s', x);
  }

  /** A placement on its way has not been refused before, and carries the row's quantity. */
  lemma RefusedOnce(symbol: string, s: State, i: nat, x: Uuid)
    requires PendingOk(symbol, s) && i < |s.outbound| && x in s.db.orders
    ensures x in PlacedId(s.outbound[i]) ==> x !in s.lost
    ensures PlacedQty(x)(s.outbound[i]) == if x in PlacedId(s.outbound[i]) then s.db.orders[x].quantity else 0
  {
    assert CommandOk(symbol, s.db, s.shard, s.outbound[i]);
    hide CommandOk, Unseen;
    SumNonnegative(s.outbound, PlacedOne(x));
    SumNonnegative(s.channel, PlacedOne(x));
    assert x in PlacedId(s.outbound[i]) ==> PlacedOne(x)(s.outbound[i]) == 1;
  }
}
