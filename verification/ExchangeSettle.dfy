/** Settlement of published matches: what a delivery answers, and that it keeps the invariant. */
module ExchangeSettle {
  import opened Domain
  import opened PriceTime
  import opened BookFacts
  import opened EngineRun
  import opened Numeric
  import opened Records
  import opened MatchKeys
  import opened Exchange
  import opened ExchangeInv
  import T = Transactions
  import L = LedgerRun

  /** A published match, settled or not, is of two user orders that both exist. */
  lemma RecentOk(symbol: string, s: State, i: nat)
    requires Inv(symbol, s) && s.since <= i < |Matches(s.shard.log)|
    ensures var m := Matches(s.shard.log)[i];
            && MatchOk(symbol, s.db, m) && m == Recent(s)[i - s.since]
            && !IsPartner(m.trade.buyUserId) && !IsPartner(m.trade.sellUserId)
            && L.RoomOk(s.db.orders[m.trade.buyOrderId]) && L.RoomOk(s.db.orders[m.trade.sellOrderId])
            && Provisioned(symbol, s.db, s.db.orders[m.trade.buyOrderId].userId)
            && Provisioned(symbol, s.db, s.db.orders[m.trade.sellOrderId].userId)
  {
    hide BookOk, PendingOk, AccountOk, KeysOk, DistinctPairs, Provisioned, L.RoomOk, CreatedOk;
    assert Matches(s.shard.log)[i] in Matches(s.shard.log);
  }

  /** What of this order is matched but unsettled is at least what one unsettled match trades. */
  lemma DueCoversMatch(symbol: string, s: State, i: nat, id: Uuid)
    requires Inv(symbol, s) && s.since <= i < |Matches(s.shard.log)|
    requires !IsSettled(s.db.keys, Matches(s.shard.log)[i])
    ensures Due(s, id) >= TradedOf(id)(Matches(s.shard.log)[i].trade)
  {
    DueParts(symbol, s, id);
    assert Recent(s)[i - s.since] == Matches(s.shard.log)[i];
    SumNonnegative(Recent(s), DueOf(s.db.keys, id));
    hide Inv;
  }

  lemma DueParts(symbol: string, s: State, id: Uuid)
    requires Inv(symbol, s)
    ensures forall k :: 0 <= k < |Recent(s)| ==> DueOf(s.db.keys, id)(Recent(s)[k]) >= 0
  {
    forall k | 0 <= k < |Recent(s)|
      ensures DueOf(s.db.keys, id)(Recent(s)[k]) >= 0
    {
      var m := Recent(s)[k];
      assert m == Matches(s.shard.log)[s.since + k];
      assert MatchOk(symbol, s.db, m);
      assert TradedOf(id)(m.trade) >= 0;
    }
  }

  lemma RestingNonnegative(symbol: string, s: State, id: Uuid)
    requires BookOk(symbol, s)
    ensures Resting(s.shard.book, id) >= 0
  {
    SumNonnegative(s.shard.book.bids, QtyOf(id));
    SumNonnegative(s.shard.book.asks, QtyOf(id));
  }

  lemma QueuedNonnegative(symbol: string, s: State, id: Uuid)
    requires PendingOk(symbol, s) && RowsOk(symbol, s.db)
    ensures Queued(s, id) >= 0
  {
    hide Unseen, Provisioned;
    forall c | CommandOk(symbol, s.db, s.shard, c)
      ensures PlacedQty(id)(c) >= 0
    {
      if c.PlaceCommand? {
        assert L.RoomOk(s.db.orders[c.order.value.id]);
      }
    }
    hide CommandOk, RowsOk;
    SumNonnegative(s.outbound, PlacedQty(id));
    SumNonnegative(s.channel, PlacedQty(id));
  }

  lemma DueNonnegative(symbol: string, s: State, id: Uuid)
    requires Inv(symbol, s)
    ensures Due(s, id) >= 0
  {
    DueParts(symbol, s, id);
    hide Inv;
    SumNonnegative(Recent(s), DueOf(s.db.keys, id));
  }

  /** The parts of an order's account. */
  lemma OursAccount(symbol: string, s: State, id: Uuid)
    requires Inv(symbol, s) && Ours(symbol, s.db, id)
    ensures L.RoomOk(s.db.orders[id])
    ensures Accounted(s, id) <= s.db.orders[id].quantity
    ensures s.db.orders[id].status != StatusCancelled ==> Accounted(s, id) == s.db.orders[id].quantity
    ensures Due(s, id) >= 0 && Resting(s.shard.book, id) >= 0 && Queued(s, id) >= 0 && Refused(s, id) >= 0
  {
    assert BookOk(symbol, s) && PendingOk(symbol, s) && RowsOk(symbol, s.db) && AccountOk(symbol, s);
    hide Inv, Accounted, BookOk, PendingOk, MatchesOk;
    DueNonnegative(symbol, s, id);
    RestingNonnegative(symbol, s, id);
    QueuedNonnegative(symbol, s, id);
    hide Due, Resting, Queued, Provisioned;
  }

  /** What the engine still holds of an order, on its way in, in the book, or on its way back. */
  ghost function Outstanding(s: State, id: Uuid): int {
    Due(s, id) + Resting(s.shard.book, id) + Queued(s, id) + Refused(s, id)
  }

  /** An order that was not cancelled is FILLED exactly when direct trades have filled at least
      what is outstanding of it, and overfilled exactly when they have filled more. */
  lemma FilledExactly(symbol: string, s: State, id: Uuid)
    requires Inv(symbol, s) && Ours(symbol, s.db, id)
    ensures var row := s.db.orders[id];
            && Outstanding(s, id) >= 0
            && (row.status != StatusCancelled ==>
                  && row.filled == row.quantity + DirectOf(s, id) - Outstanding(s, id)
                  && (row.status == StatusFilled <==> DirectOf(s, id) >= Outstanding(s, id))
                  && (row.filled > row.quantity <==> DirectOf(s, id) > Outstanding(s, id)))
            && (row.status == StatusCancelled ==> row.filled < row.quantity)
  {
    OursAccount(symbol, s, id);
    hide Inv, Due, Resting, Queued, Refused, DirectOf;
  }

  /** An order with an unsettled match is not filled yet in the tables, unless direct trades have
      filled at least the quantity of that match. */
  lemma UnsettledIsNotFilled(symbol: string, s: State, i: nat, id: Uuid)
    requires Inv(symbol, s) && s.since <= i < |Matches(s.shard.log)|
    requires !IsSettled(s.db.keys, Matches(s.shard.log)[i]) && Mentions(Matches(s.shard.log)[i].trade, id)
    ensures Ours(symbol, s.db, id)
    ensures DirectOf(s, id) < Matches(s.shard.log)[i].trade.quantity ==>
      s.db.orders[id].filled < s.db.orders[id].quantity && s.db.orders[id].status != StatusFilled
  {
    hide Inv, Due, Resting, Queued, Refused, IsSettled, DirectOf;
    RecentOk(symbol, s, i);
    DueCoversMatch(symbol, s, i, id);
    OursAccount(symbol, s, id);
  }

  predicate IsCancelled(db: Db, id: Uuid) {
    id in db.orders && db.orders[id].status == StatusCancelled
  }

  /** The row is CANCELLED or FILLED. */
  predicate IsClosed(db: Db, id: Uuid) {
    id in db.orders && IsTerminal(db.orders[id].status)
  }

  /** The whole behaviour of a delivery.  A match that is already settled is answered as a
      duplicate and changes nothing; an unsettled one is refused exactly when one of its orders is
      CANCELLED or FILLED, and then changes nothing; otherwise it settles.  When an order is
      FILLED is said by FilledExactly. */
  lemma SettleExactly(symbol: string, s: State, i: nat, tradeId: Uuid)
    requires Inv(symbol, s) && s.since <= i < |Matches(s.shard.log)|
    ensures var m := Matches(s.shard.log)[i];
            var r := OnTradeMatched(s.db, m, tradeId);
            var closed := IsClosed(s.db, m.trade.buyOrderId) || IsClosed(s.db, m.trade.sellOrderId);
            && r.result == (if IsSettled(s.db.keys, m) then Err(ErrDuplicateIdempotencyKey)
                            else if closed then Err(ErrInvalidStateTransition)
                            else Ok(tradeId))
            && (r.result.Err? ==> r.db == s.db)
            && (r.result.Ok? ==> IsSettled(r.db.keys, m))
  {
    hide T.TradeDrafts, T.DraftSum, T.TradeWrites, Units, Dec, SplitSymbol, MatchKey, Inv;
    RecentOk(symbol, s, i);
    var m := Matches(s.shard.log)[i];
    var t := m.trade;
    assert SplitSymbol(symbol).Some? by { InvSymbol(symbol, s); }
    if !IsSettled(s.db.keys, m) {
      L.TradeEntriesZeroSum(s.db.orders[t.buyOrderId].userId, s.db.orders[t.sellOrderId].userId,
                            BaseOf(symbol), QuoteOf(symbol), Dec(t.price), Dec(t.quantity), tradeId, "");
    }
    if OnTradeMatched(s.db, m, tradeId).result.Ok? {
      L.TradeEffect(s.db, SettleCommand(m), tradeId);
    }
  }

  lemma InvSymbol(symbol: string, s: State)
    requires Inv(symbol, s)
    ensures SplitSymbol(symbol).Some?
  {
  }

  /** The state after match i has been settled. */
  ghost predicate Settled(symbol: string, s: State, s': State, i: nat) {
    && s.since <= i < |Matches(s.shard.log)|
    && var m := Matches(s.shard.log)[i];
       var b, x, q := m.trade.buyOrderId, m.trade.sellOrderId, Dec(m.trade.quantity);
       && MatchOk(symbol, s.db, m) && b != x && !IsSettled(s.db.keys, m)
       && !IsTerminal(s.db.orders[b].status) && !IsTerminal(s.db.orders[x].status)
       && s'.db.orders == s.db.orders[b := T.Fill(s.db.orders[b], s.db.orders[b], q)]
                                     [x := T.Fill(s.db.orders[x], s.db.orders[x], q)]
       && s'.db.keys == s.db.keys + {(KeyFor(m), ScopeTrade)}
       && s'.db.created == s.db.created && s'.db.accounts == s.db.accounts
       && s' == s.(db := s'.db)
  }

  lemma DeliverIsSettled(symbol: string, s: State, i: nat, tradeId: Uuid)
    requires Inv(symbol, s) && s.since <= i < |Matches(s.shard.log)|
    requires OnTradeMatched(s.db, Matches(s.shard.log)[i], tradeId).result.Ok?
    ensures Settled(symbol, s, Act(symbol, s, Deliver(i, tradeId)), i)
  {
    hide T.ExecuteTrade, T.Fill, Inv, Dec, MatchKey;
    var m := Matches(s.shard.log)[i];
    RecentOk(symbol, s, i);
    L.TradeEffect(s.db, SettleCommand(m), tradeId);
  }

  lemma SettledFill(row: OrderRow, q: int)
    requires L.RoomOk(row) && !IsTerminal(row.status) && q > 0
    ensures var r := T.Fill(row, row, Dec(q));
            && r == row.(filled := row.filled + q, status := r.status)
            && r.status == (if row.filled + q >= row.quantity then StatusFilled else StatusPartial)
            && L.RoomOk(r)
  {
    L.FillRow(row, Dec(q));
    DecSum(row.filled, q);
    UnitsOfDec(row.filled + q);
    hide T.Fill, Units, Dec;
  }

  lemma DecSum(a: int, b: int)
    ensures Dec(a) + Dec(b) == Dec(a + b)
  {
  }

  /** The status a row has once matches have raised its fill. */
  function StatusAfter(row: OrderRow, filled: int): Status {
    if IsTerminal(row.status) || filled == row.filled then row.status
    else if filled >= row.quantity then StatusFilled
    else StatusPartial
  }

  /** Each order gains exactly what the match traded of it. */
  lemma SettledRow(symbol: string, s: State, s': State, i: nat, id: Uuid)
    requires RowsOk(symbol, s.db) && Settled(symbol, s, s', i) && id in s'.db.orders
    ensures id in s.db.orders
    ensures var a, b := s.db.orders[id], s'.db.orders[id];
            var m := Matches(s.shard.log)[i];
            && TradedOf(id)(m.trade) >= 0
            && b == a.(filled := a.filled + TradedOf(id)(m.trade), status := StatusAfter(a, b.filled))
            && (a.status == StatusCancelled <==> b.status == StatusCancelled)
            && (IsTerminal(a.status) ==> b == a)
            && (Ours(symbol, s.db, id) ==> L.RoomOk(b))
  {
    var m := Matches(s.shard.log)[i];
    var b, x := m.trade.buyOrderId, m.trade.sellOrderId;
    assert L.RoomOk(s.db.orders[b]) && L.RoomOk(s.db.orders[x]);
    SettledFill(s.db.orders[b], m.trade.quantity);
    SettledFill(s.db.orders[x], m.trade.quantity);
    assert TradedOf(id)(m.trade) == if id == b || id == x then m.trade.quantity else 0;
    hide T.Fill, Dec, IsSettled, KeyFor, Provisioned;
  }

  lemma SettledKeepsInv(symbol: string, s: State, s': State, i: nat)
    requires Inv(symbol, s) && Settled(symbol, s, s', i)
    ensures Inv(symbol, s')
  {
    hide BookOk, PendingOk, MatchesOk, KeysOk, AccountOk, RowsOk, RowsKept, CreatedOk, SplitSymbol;
    SettledKeepsRows(symbol, s, s', i);
    BookFrame(symbol, s, s');
    MatchesFrame(symbol, s, s');
    PendingFrame(symbol, s, s');
    SettledKeepsKeys(symbol, s, s', i);
    SettledKeepsAccount(symbol, s, s', i);
  }

  lemma SettledKeepsRows(symbol: string, s: State, s': State, i: nat)
    requires RowsOk(symbol, s.db) && CreatedOk(s.db) && Settled(symbol, s, s', i)
    ensures RowsKept(s.db, s'.db) && RowsOk(symbol, s'.db) && CreatedOk(s'.db)
  {
    hide T.Fill, IsSettled, Dec, KeyFor, L.RoomOk, Matches, TradedOf, StatusAfter;
    forall id | id in s'.db.orders
      ensures RowKept(s.db.orders[id], s'.db.orders[id])
      ensures Ours(symbol, s'.db, id) ==>
        L.RoomOk(s'.db.orders[id]) && Provisioned(symbol, s'.db, s'.db.orders[id].userId)
    {
      SettledRow(symbol, s, s', i, id);
    }
  }

  lemma SettledKeepsKeys(symbol: string, s: State, s': State, i: nat)
    requires KeysOk(symbol, s) && RowsKept(s.db, s'.db) && Settled(symbol, s, s', i)
    ensures KeysOk(symbol, s')
  {
    var m := Matches(s.shard.log)[i];
    forall b: Uuid, x: Uuid, n: int | MatchKey(b, x, n) == KeyFor(m)
      ensures b == m.trade.buyOrderId && x == m.trade.sellOrderId
    {
      MatchKeyInjective(b, x, n, m.trade.buyOrderId, m.trade.sellOrderId, m.seqNo);
    }
    assert m in Matches(s.shard.log);
    hide MatchKey, T.Fill, Dec;
    forall b: Uuid | b in s.db.orders
      ensures b in s'.db.orders && s'.db.orders[b].symbol == s.db.orders[b].symbol
    {
      assert RowKept(s.db.orders[b], s'.db.orders[b]);
    }
    hide RowsKept;
  }

  /** Settling one match settles no other. */
  lemma OthersUnsettled(symbol: string, s: State, s': State, i: nat, j: nat)
    requires MatchesOk(symbol, s) && Settled(symbol, s, s', i) && j < |Matches(s.shard.log)| && j != i
    ensures IsSettled(s'.db.keys, Matches(s.shard.log)[j]) <==> IsSettled(s.db.keys, Matches(s.shard.log)[j])
  {
    var m, n := Matches(s.shard.log)[i], Matches(s.shard.log)[j];
    assert !SamePair(m.trade, n.trade);
    hide MatchKey, MatchOk, T.Fill, Dec;
    if KeyFor(m) == KeyFor(n) {
      MatchKeyInjective(m.trade.buyOrderId, m.trade.sellOrderId, m.seqNo, n.trade.buyOrderId, n.trade.sellOrderId,
          n.seqNo);
    }
  }

  lemma SettledDue(symbol: string, s: State, s': State, i: nat, id: Uuid)
    requires MatchesOk(symbol, s) && Settled(symbol, s, s', i)
    ensures Due(s', id) == Due(s, id) - TradedOf(id)(Matches(s.shard.log)[i].trade)
  {
    hide T.Fill, Dec, KeyFor, MatchOk, TradedOf, IsTerminal, DistinctPairs, Matches;
    var k := i - s.since;
    var ms := Recent(s);
    var f, g := DueOf(s.db.keys, id), DueOf(s'.db.keys, id);
    forall j | 0 <= j < |ms| && j != k
      ensures f(ms[j]) == g(ms[j])
    {
      OthersUnsettled(symbol, s, s', i, s.since + j);
    }
    SumDiffersAt(ms, k, f, g);
  }

  lemma SettledOurs(symbol: string, s: State, s': State, i: nat, id: Uuid)
    requires RowsOk(symbol, s.db) && Settled(symbol, s, s', i)
    ensures Ours(symbol, s.db, id) <==> Ours(symbol, s'.db, id)
  {
    hide T.Fill, Dec, KeyFor, IsSettled, RowsOk;
    if id in s'.db.orders {
      SettledRow(symbol, s, s', i, id);
    }
  }

  /** Settling moves quantity from due to filled and changes nothing else of the account. */
  lemma SettledAccounts(symbol: string, s: State, s': State, i: nat, id: Uuid)
    requires RowsOk(symbol, s.db) && MatchesOk(symbol, s) && Settled(symbol, s, s', i) && id in s'.db.orders
    ensures id in s.db.orders && Accounted(s', id) == Accounted(s, id)
  {
    hide Due, Resting, Queued, T.Fill, Dec, MatchesOk, RowsOk, KeyFor, IsSettled, L.RoomOk, MatchOk, StatusAfter;
    SettledRow(symbol, s, s', i, id);
    SettledDue(symbol, s, s', i, id);
    SameQueued(s, s', id);
  }

  lemma SettledKeepsAccount(symbol: string, s: State, s': State, i: nat)
    requires RowsOk(symbol, s.db) && MatchesOk(symbol, s) && AccountOk(symbol, s) && Settled(symbol, s, s', i)
    ensures AccountOk(symbol, s')
  {
    hide Accounted, T.Fill, Dec, MatchesOk, RowsOk, KeyFor, IsSettled, L.RoomOk, MatchOk, StatusAfter;
    forall id
      ensures Ours(symbol, s.db, id) <==> Ours(symbol, s'.db, id)
    {
      SettledOurs(symbol, s, s', i, id);
    }
    forall id | Ours(symbol, s'.db, id)
      ensures Accounted(s', id) == Accounted(s, id)
      ensures s'.db.orders[id].quantity == s.db.orders[id].quantity
      ensures s.db.orders[id].status == StatusCancelled <==> s'.db.orders[id].status == StatusCancelled
    {
      SettledAccounts(symbol, s, s', i, id);
      SettledRow(symbol, s, s', i, id);
    }
  }

  lemma SameQueued(s: State, s': State, id: Uuid)
    requires s'.outbound == s.outbound && s'.channel == s.channel
    ensures Queued(s', id) == Queued(s, id)
  {
  }

  lemma DeliverKeepsInv(symbol: string, s: State, i: nat, tradeId: Uuid)
    requires Inv(symbol, s)
    ensures Inv(symbol, Act(symbol, s, Deliver(i, tradeId)))
  {
    hide Inv, OnTradeMatched, Settled;
    if s.since <= i < |Matches(s.shard.log)| {
      if OnTradeMatched(s.db, Matches(s.shard.log)[i], tradeId).result.Ok? {
        DeliverIsSettled(symbol, s, i, tradeId);
        SettledKeepsInv(symbol, s, Act(symbol, s, Deliver(i, tradeId)), i);
      } else {
        SettleExactly(symbol, s, i, tradeId);
      }
    }
  }

  // ---- Everything else -------------------------------------------------------------------

  /** What happens beside the engine: rows keep their identity, whatever is filled of them is on
      the direct account, and no settlement key of this symbol is used. */
  ghost predicate Foreign(symbol: string, s: State, s': State) {
    && RowsKept(s.db, s'.db) && s'.db.created == s.db.created && s' == s.(db := s'.db, direct := s'.direct)
    && (forall id :: id in s'.db.orders ==> id in s.db.orders && ForeignRow(s, s', id))
    && ((forall id :: id in s.direct ==> id in s.db.orders) ==> forall id :: id in s'.direct ==> id in s'.db.orders)
    && s.db.keys <= s'.db.keys
    && forall key :: (key, ScopeTrade) in s'.db.keys && (key, ScopeTrade) !in s.db.keys ==>
         ForeignKey(symbol, s.db, key)
  }

  ghost predicate ForeignRow(s: State, s': State, id: Uuid)
    requires id in s.db.orders && id in s'.db.orders
  {
    var a, b := s.db.orders[id], s'.db.orders[id];
    && (L.RoomOk(a) ==> L.RoomOk(b))
    && (b.status == StatusCancelled <==> a.status == StatusCancelled)
    && b.filled - DirectOf(s', id) == a.filled - DirectOf(s, id)
  }

  /** A trade requested directly, of any orders, at any price and of any quantity. */
  lemma TradeIsForeign(symbol: string, s: State, cmd: T.ExecuteTradeCommand, tradeId: Uuid)
    requires Allowed(symbol, s.db, TradeDirectly(cmd, tradeId))
    ensures Foreign(symbol, s, Act(symbol, s, TradeDirectly(cmd, tradeId)))
  {
    CallKeepsRows(s.db, T.CallTrade(cmd, tradeId));
    hide RowsKept, T.ExecuteTrade, T.Fill, T.Stored, T.TradeDrafts, Units, Balance, ForeignKey, L.RoomOk;
    var s' := Act(symbol, s, TradeDirectly(cmd, tradeId));
    if T.ExecuteTrade(s.db, cmd, tradeId).result.Ok? {
      L.TradeEffect(s.db, cmd, tradeId);
      FillStays(s.db.orders[cmd.buyOrderId], cmd.quantity);
      FillStays(s.db.orders[cmd.sellOrderId], cmd.quantity);
    } else {
      T.FailureChangesNothing(s.db, T.CallTrade(cmd, tradeId));
    }
    assert RowsKept(s.db, s'.db) by {
      assert T.Perform(s.db, T.CallTrade(cmd, tradeId)).db == s'.db;
    }
  }

  /** A trade of any quantity leaves FILLED meaning filled, and cancels nothing. */
  lemma FillStays(row: OrderRow, quantity: real)
    requires !IsTerminal(row.status)
    ensures L.RoomOk(row) ==> L.RoomOk(T.Fill(row, row, quantity))
    ensures T.Fill(row, row, quantity).status != StatusCancelled
  {
    L.FillRow(row, quantity);
    hide T.Fill;
  }

  lemma ElsewhereIsForeign(symbol: string, s: State, c: T.Call)
    requires Allowed(symbol, s.db, Elsewhere(c))
    ensures Foreign(symbol, s, Act(symbol, s, Elsewhere(c)))
  {
    CallKeepsRows(s.db, c);
    L.DepositsAndWithdrawalsKeepOrders(s.db, c);
    hide RowsKept, Units, Balance, ForeignKey, L.RoomOk;
  }

  lemma ForeignKeepsInv(symbol: string, s: State, s': State)
    requires Inv(symbol, s) && Foreign(symbol, s, s')
    ensures Inv(symbol, s')
  {
    hide BookOk, PendingOk, MatchesOk, KeysOk, AccountOk, RowsOk, CreatedOk, RowsKept, SplitSymbol, ForeignKey;
    BookFrame(symbol, s, s');
    MatchesFrame(symbol, s, s');
    PendingFrame(symbol, s, s');
    ForeignKeepsKeys(symbol, s, s');
    ForeignKeepsRows(symbol, s, s');
    ForeignKeepsAccount(symbol, s, s');
  }

  lemma ForeignOurs(symbol: string, s: State, s': State, id: Uuid)
    requires Foreign(symbol, s, s')
    ensures Ours(symbol, s'.db, id) <==> Ours(symbol, s.db, id)
    ensures id in s.db.orders ==> id in s'.db.orders && s'.db.orders[id].symbol == s.db.orders[id].symbol
  {
    if id in s.db.orders {
      assert RowKept(s.db.orders[id], s'.db.orders[id]);
    }
  }

  lemma ForeignKeepsRows(symbol: string, s: State, s': State)
    requires RowsOk(symbol, s.db) && CreatedOk(s.db) && Foreign(symbol, s, s')
    ensures RowsOk(symbol, s'.db) && CreatedOk(s'.db)
  {
    hide L.RoomOk;
    forall id
      ensures Ours(symbol, s'.db, id) <==> Ours(symbol, s.db, id)
      ensures id in s'.db.orders <==> id in s.db.orders
    {
      ForeignOurs(symbol, s, s', id);
    }
    forall id | Ours(symbol, s'.db, id)
      ensures L.RoomOk(s'.db.orders[id]) && Provisioned(symbol, s'.db, s'.db.orders[id].userId)
    {
      assert ForeignRow(s, s', id) && RowKept(s.db.orders[id], s'.db.orders[id]);
    }
  }

  lemma ForeignKeepsKeys(symbol: string, s: State, s': State)
    requires KeysOk(symbol, s) && Foreign(symbol, s, s')
    ensures KeysOk(symbol, s')
  {
    forall b: Uuid, x: Uuid, n: int | (MatchKey(b, x, n), ScopeTrade) in s'.db.keys
      ensures || (b in s'.db.orders && s'.db.orders[b].symbol != symbol)
              || exists m :: m in Matches(s.shard.log) && m.trade.buyOrderId == b && m.trade.sellOrderId == x
    {
      ForeignOurs(symbol, s, s', b);
      if (MatchKey(b, x, n), ScopeTrade) !in s.db.keys {
        assert ForeignKey(symbol, s.db, MatchKey(b, x, n));
      }
    }
  }

  /** A published pair is ours, so a foreign key never settles it. */
  lemma OursIsNotForeign(symbol: string, db: Db, m: Matched)
    requires MatchOk(symbol, db, m)
    ensures !ForeignKey(symbol, db, KeyFor(m))
  {
    var b := m.trade.buyOrderId;
    assert KeyFor(m) == MatchKey(b, m.trade.sellOrderId, m.seqNo) && db.orders[b].symbol == symbol;
  }

  lemma ForeignDue(symbol: string, s: State, s': State, id: Uuid)
    requires MatchesOk(symbol, s) && Foreign(symbol, s, s')
    ensures Due(s', id) == Due(s, id)
  {
    hide MatchKey, KeyFor, ForeignKey, RowsKept, TradedOf;
    var f, g := DueOf(s.db.keys, id), DueOf(s'.db.keys, id);
    forall k | 0 <= k < |Recent(s)|
      ensures f(Recent(s)[k]) == g(Recent(s)[k])
    {
      var m := Recent(s)[k];
      assert m == Matches(s.shard.log)[s.since + k];
      OursIsNotForeign(symbol, s.db, m);
      assert IsSettled(s'.db.keys, m) <==> IsSettled(s.db.keys, m);
    }
    SumSame(Recent(s), f, g);
  }

  lemma ForeignKeepsAccount(symbol: string, s: State, s': State)
    requires MatchesOk(symbol, s) && AccountOk(symbol, s) && Foreign(symbol, s, s')
    ensures AccountOk(symbol, s')
  {
    hide Accounted, MatchesOk, RowsKept, ForeignKey, ForeignRow;
    forall id | Ours(symbol, s'.db, id)
      ensures Ours(symbol, s.db, id) && Accounted(s', id) == Accounted(s, id)
      ensures s'.db.orders[id].quantity == s.db.orders[id].quantity
      ensures s'.db.orders[id].status == StatusCancelled <==> s.db.orders[id].status == StatusCancelled
    {
      ForeignAccounts(symbol, s, s', id);
    }
  }

  lemma ForeignAccounts(symbol: string, s: State, s': State, id: Uuid)
    requires MatchesOk(symbol, s) && Foreign(symbol, s, s') && Ours(symbol, s'.db, id)
    ensures Ours(symbol, s.db, id) && Accounted(s', id) == Accounted(s, id)
    ensures s'.db.orders[id].quantity == s.db.orders[id].quantity
    ensures s'.db.orders[id].status == StatusCancelled <==> s.db.orders[id].status == StatusCancelled
  {
    hide Due, Queued, Resting, MatchesOk, ForeignKey;
    ForeignOurs(symbol, s, s', id);
    ForeignDue(symbol, s, s', id);
    SameQueued(s, s', id);
    assert ForeignRow(s, s', id) && RowKept(s.db.orders[id], s'.db.orders[id]);
  }

  lemma TradeKeepsInv(symbol: string, s: State, cmd: T.ExecuteTradeCommand, tradeId: Uuid)
    requires Inv(symbol, s) && Allowed(symbol, s.db, TradeDirectly(cmd, tradeId))
    ensures Inv(symbol, Act(symbol, s, TradeDirectly(cmd, tradeId)))
  {
    hide Inv, Foreign, Allowed;
    TradeIsForeign(symbol, s, cmd, tradeId);
    ForeignKeepsInv(symbol, s, Act(symbol, s, TradeDirectly(cmd, tradeId)));
  }

  lemma ElsewhereKeepsInv(symbol: string, s: State, c: T.Call)
    requires Inv(symbol, s) && Allowed(symbol, s.db, Elsewhere(c))
    ensures Inv(symbol, Act(symbol, s, Elsewhere(c)))
  {
    hide Inv, Foreign, Allowed;
    ElsewhereIsForeign(symbol, s, c);
    ForeignKeepsInv(symbol, s, Act(symbol, s, Elsewhere(c)));
  }
}
