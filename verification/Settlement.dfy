/**
 Settlement does not depend on delivery order.  Matches reach settlement in any order and any
 number of times; these theorems say what every such delivery leaves behind, and exactly when
 every order of delivery settles everything.
 */
module Settlement {
  import opened Domain
  import opened PriceTime
  import opened BookFacts
  import opened EngineRun
  import opened Numeric
  import opened Records
  import opened MatchKeys
  import opened Exchange
  import opened ExchangeInv
  import opened ExchangeSettle
  import opened ExchangeRestart
  import T = Transactions
  import L = LedgerRun

  /** One delivery: which published match, and the trade id the attempt draws. */
  datatype Delivery = Delivery(i: nat, tradeId: Uuid)

  function DeliverOne(symbol: string, s: State, d: Delivery): State {
    Act(symbol, s, Deliver(d.i, d.tradeId))
  }

  function DeliverAll(symbol: string, s: State, ds: seq<Delivery>): State {
    if ds == [] then s else DeliverOne(symbol, DeliverAll(symbol, s, ds[..|ds| - 1]), ds[|ds| - 1])
  }

  /** How many of the deliveries committed a settlement of match i. */
  ghost function TimesSettled(symbol: string, s: State, ds: seq<Delivery>, i: nat): int {
    if ds == [] then 0
    else
      var k := |ds| - 1;
      TimesSettled(symbol, s, ds[..k], i) + (if ds[k].i == i && Commits(DeliverAll(symbol, s, ds[..k]), ds[k]) then 1
          else 0)
  }

  /** The delivery commits. */
  ghost predicate Commits(s: State, d: Delivery) {
    && s.since <= d.i < |Matches(s.shard.log)|
    && OnTradeMatched(s.db, Matches(s.shard.log)[d.i], d.tradeId).result.Ok?
  }

  ghost predicate SettledAt(s: State, i: nat) {
    i < |Matches(s.shard.log)| && IsSettled(s.db.keys, Matches(s.shard.log)[i])
  }

  /** One of the match's orders was cancelled. */
  predicate IsBlocked(db: Db, m: Matched) {
    IsCancelled(db, m.trade.buyOrderId) || IsCancelled(db, m.trade.sellOrderId)
  }

  ghost predicate Blocked(s: State, i: nat) {
    i < |Matches(s.shard.log)| && IsBlocked(s.db, Matches(s.shard.log)[i])
  }

  /** The match is neither settled nor blocked by a cancel. */
  predicate IsOpen(db: Db, m: Matched) {
    !IsSettled(db.keys, m) && !IsBlocked(db, m)
  }

  // ---- One delivery ----------------------------------------------------------------------

  /** What a delivery keeps: everything but fills, keys, ledger and trades. */
  ghost predicate Beside(symbol: string, s: State, s': State) {
    && s' == s.(db := s'.db)
    && (forall id :: id in s'.db.orders <==> id in s.db.orders)
    && forall id :: id in s.db.orders ==> BesideRow(symbol, s.db.orders[id], s'.db.orders[id])
  }

  /** A row only gains fill, and its status follows. */
  ghost predicate BesideRow(symbol: string, a: OrderRow, b: OrderRow) {
    && a.filled <= b.filled
    && b == a.(filled := b.filled, status := StatusAfter(a, b.filled))
    && (IsTerminal(a.status) ==> b == a)
    && (a.symbol != symbol ==> b == a)
  }

  lemma DeliverBeside(symbol: string, s: State, d: Delivery)
    requires Inv(symbol, s)
    ensures Beside(symbol, s, DeliverOne(symbol, s, d)) && Inv(symbol, DeliverOne(symbol, s, d))
  {
    hide Inv, OnTradeMatched, T.Fill, Dec, KeyFor, MatchOk, Settled;
    var s' := DeliverOne(symbol, s, d);
    DeliverKeepsInv(symbol, s, d.i, d.tradeId);
    if Commits(s, d) {
      DeliverIsSettled(symbol, s, d.i, d.tradeId);
      SettledBeside(symbol, s, s', d.i);
    } else if s.since <= d.i < |Matches(s.shard.log)| {
      SettleExactly(symbol, s, d.i, d.tradeId);
      hide IsSettled;
    }
  }

  lemma SettledBeside(symbol: string, s: State, s': State, i: nat)
    requires Inv(symbol, s) && Settled(symbol, s, s', i)
    ensures Beside(symbol, s, s')
  {
    hide Inv, T.Fill, Dec, KeyFor, MatchOk, IsSettled, TradedOf, Matches, RowsOk, StatusAfter;
    InvRows(symbol, s);
    forall id
      ensures id in s'.db.orders <==> id in s.db.orders
      ensures id in s.db.orders ==> BesideRow(symbol, s.db.orders[id], s'.db.orders[id])
    {
      if id in s'.db.orders {
        SettledRow(symbol, s, s', i, id);
        if s.db.orders[id].symbol != symbol {
          OthersUntouched(symbol, s, s', i, id);
        }
      }
    }
  }

  lemma OthersUntouched(symbol: string, s: State, s': State, i: nat, id: Uuid)
    requires Settled(symbol, s, s', i) && id in s.db.orders && s.db.orders[id].symbol != symbol
    ensures s'.db.orders[id] == s.db.orders[id]
  {
    hide T.Fill, Dec, KeyFor, IsSettled, Matches;
  }

  lemma BesideChain(symbol: string, a: OrderRow, b: OrderRow, c: OrderRow)
    requires BesideRow(symbol, a, b) && BesideRow(symbol, b, c)
    ensures BesideRow(symbol, a, c)
  {
  }

  lemma BesideKeeps(symbol: string, a: OrderRow, b: OrderRow)
    requires BesideRow(symbol, a, b)
    ensures b.symbol == a.symbol && b.quantity == a.quantity && b.userId == a.userId
    ensures b.status == StatusCancelled <==> a.status == StatusCancelled
  {
  }

  /** Deliveries leave every match as blocked as it was. */
  lemma BlockedStays(symbol: string, s: State, t: State, m: Matched)
    requires Beside(symbol, s, t)
    ensures IsBlocked(t.db, m) <==> IsBlocked(s.db, m)
  {
    hide BesideRow;
    forall id
      ensures IsCancelled(t.db, id) <==> IsCancelled(s.db, id)
    {
      if id in s.db.orders {
        BesideKeeps(symbol, s.db.orders[id], t.db.orders[id]);
      }
    }
  }

  /** Whether match i is settled after a delivery. */
  lemma DeliverSettles(symbol: string, s: State, d: Delivery, i: nat)
    requires Inv(symbol, s) && s.since <= i < |Matches(s.shard.log)|
    ensures var s' := DeliverOne(symbol, s, d);
            var t := Matches(s.shard.log)[i].trade;
            && (SettledAt(s', i) <==>
                  SettledAt(s, i) || (d.i == i && !IsClosed(s.db, t.buyOrderId) && !IsClosed(s.db, t.sellOrderId)))
            && (d.i == i && Commits(s, d) <==> SettledAt(s', i) && !SettledAt(s, i))
  {
    hide Inv, OnTradeMatched, IsSettled, IsClosed, Settled, Matches;
    if s.since <= d.i < |Matches(s.shard.log)| {
      SettleExactly(symbol, s, d.i, d.tradeId);
      if Commits(s, d) && d.i != i {
        DeliverIsSettled(symbol, s, d.i, d.tradeId);
        OthersUnsettled(symbol, s, DeliverOne(symbol, s, d), d.i, i) by { InvMatches(symbol, s); }
      }
    }
  }

  lemma InvRows(symbol: string, s: State)
    requires Inv(symbol, s)
    ensures RowsOk(symbol, s.db)
  {
  }

  lemma InvMatches(symbol: string, s: State)
    requires Inv(symbol, s)
    ensures MatchesOk(symbol, s)
  {
  }

  lemma {:induction false} DeliverAllBeside(symbol: string, s: State, ds: seq<Delivery>)
    requires Inv(symbol, s)
    ensures Beside(symbol, s, DeliverAll(symbol, s, ds)) && Inv(symbol, DeliverAll(symbol, s, ds))
  {
    hide Inv, DeliverOne, BesideRow;
    if ds == [] {
      SameBeside(symbol, s);
    } else {
      var t := DeliverAll(symbol, s, ds[..|ds| - 1]);
      DeliverAllBeside(symbol, s, ds[..|ds| - 1]);
      DeliverBeside(symbol, t, ds[|ds| - 1]);
      var u := DeliverAll(symbol, s, ds);
      forall id | id in s.db.orders
        ensures BesideRow(symbol, s.db.orders[id], u.db.orders[id])
      {
        BesideChain(symbol, s.db.orders[id], t.db.orders[id], u.db.orders[id]);
      }
    }
  }

  lemma SameBeside(symbol: string, s: State)
    ensures Beside(symbol, s, s)
  {
  }

  // ---- What is still open ----------------------------------------------------------------

  ghost function OpenWeight(db: Db, w: Matched -> int): Matched -> int {
    (m: Matched) => if IsOpen(db, m) then w(m) else 0
  }

  /** The total weight of the recent matches that are still open. */
  ghost function OpenSum(s: State, w: Matched -> int): int {
    Sum(Recent(s), OpenWeight(s.db, w))
  }

  ghost function QuantityIn(id: Uuid): Matched -> int {
    (m: Matched) => TradedOf(id)(m.trade)
  }

  /** The quantity of this order in open matches. */
  ghost function OpenDue(s: State, id: Uuid): int {
    OpenSum(s, QuantityIn(id))
  }

  /** A committed settlement takes the weight of its match off the open ones. */
  lemma CommitOpenSum(symbol: string, s: State, d: Delivery, w: Matched -> int)
    requires Inv(symbol, s) && Commits(s, d)
    ensures OpenSum(DeliverOne(symbol, s, d), w) == OpenSum(s, w) - w(Matches(s.shard.log)[d.i])
    ensures IsOpen(s.db, Matches(s.shard.log)[d.i])
  {
    hide Inv, OnTradeMatched, T.Fill, Dec, KeyFor, MatchOk, IsSettled, IsBlocked, BesideRow;
    var s' := DeliverOne(symbol, s, d);
    DeliverIsSettled(symbol, s, d.i, d.tradeId);
    DeliverBeside(symbol, s, d);
    CommitIsOpen(symbol, s, d);
    InvMatches(symbol, s);
    hide Settled, Beside, MatchesOk, DeliverOne;
    var ms, k := Recent(s), d.i - s.since;
    var f, g := OpenWeight(s.db, w), OpenWeight(s'.db, w);
    assert Recent(s') == ms by { SameRecent(symbol, s, s'); }
    forall j | 0 <= j < |ms| && j != k
      ensures f(ms[j]) == g(ms[j])
    {
      OthersUnsettled(symbol, s, s', d.i, s.since + j);
      BlockedStays(symbol, s, s', ms[j]);
    }
    SumDiffersAt(ms, k, f, g);
  }

  lemma SameRecent(symbol: string, s: State, s': State)
    requires Beside(symbol, s, s')
    ensures Recent(s') == Recent(s)
  {
  }

  lemma CommitIsOpen(symbol: string, s: State, d: Delivery)
    requires Inv(symbol, s) && Commits(s, d)
    ensures IsOpen(s.db, Matches(s.shard.log)[d.i])
    ensures IsSettled(DeliverOne(symbol, s, d).db.keys, Matches(s.shard.log)[d.i])
  {
    hide Inv, OnTradeMatched, IsSettled;
    SettleExactly(symbol, s, d.i, d.tradeId);
  }

  lemma NoCommitSame(symbol: string, s: State, d: Delivery)
    requires Inv(symbol, s) && !Commits(s, d)
    ensures DeliverOne(symbol, s, d) == s
  {
    hide Inv, OnTradeMatched;
    if s.since <= d.i < |Matches(s.shard.log)| {
      SettleExactly(symbol, s, d.i, d.tradeId);
    }
  }

  /** Deliveries turn open quantity into fill, one for one. */
  lemma {:induction false} FillPlusOpen(symbol: string, s: State, ds: seq<Delivery>, id: Uuid)
    requires Inv(symbol, s) && id in s.db.orders
    ensures var t := DeliverAll(symbol, s, ds);
            id in t.db.orders && t.db.orders[id].filled + OpenDue(t, id) == s.db.orders[id].filled + OpenDue(s, id)
  {
    hide Inv, DeliverOne, OpenSum, Commits, BesideRow;
    DeliverAllBeside(symbol, s, ds);
    if ds != [] {
      var k := |ds| - 1;
      var t := DeliverAll(symbol, s, ds[..k]);
      DeliverAllBeside(symbol, s, ds[..k]);
      FillPlusOpen(symbol, s, ds[..k], id);
      StepFillPlusOpen(symbol, t, ds[k], id);
    }
  }

  lemma StepFillPlusOpen(symbol: string, s: State, d: Delivery, id: Uuid)
    requires Inv(symbol, s) && id in s.db.orders
    ensures var t := DeliverOne(symbol, s, d);
            id in t.db.orders && t.db.orders[id].filled + OpenDue(t, id) == s.db.orders[id].filled + OpenDue(s, id)
  {
    hide Inv, OpenSum, OnTradeMatched, BesideRow;
    DeliverBeside(symbol, s, d);
    if Commits(s, d) {
      CommitOpenSum(symbol, s, d, QuantityIn(id));
      DeliverIsSettled(symbol, s, d.i, d.tradeId);
      InvRows(symbol, s);
      SettledRow(symbol, s, DeliverOne(symbol, s, d), d.i, id);
      hide Settled, StatusAfter, RowsOk;
    } else {
      NoCommitSame(symbol, s, d);
    }
  }

  lemma OpenNonnegative(symbol: string, s: State, id: Uuid)
    requires Inv(symbol, s)
    ensures OpenDue(s, id) >= 0 && OpenDue(s, id) <= Due(s, id)
    ensures forall k :: 0 <= k < |Recent(s)| && IsOpen(s.db, Recent(s)[k]) ==>
      TradedOf(id)(Recent(s)[k].trade) <= OpenDue(s, id)
  {
    hide IsSettled, IsBlocked, PendingOk, BookOk, KeysOk, AccountOk, RowsOk, CreatedOk, TradedOf, DistinctPairs;
    var ms, f, g := Recent(s), OpenWeight(s.db, QuantityIn(id)), DueOf(s.db.keys, id);
    forall k | 0 <= k < |ms|
      ensures 0 <= f(ms[k]) <= g(ms[k])
    {
      assert ms[k] == Matches(s.shard.log)[s.since + k];
      assert MatchOk(symbol, s.db, ms[k]);
      TradedNonnegative(ms[k].trade, id);
    }
    hide Inv, Recent;
    SumNonnegative(ms, f);
    SumAtMost(ms, f, g);
  }

  lemma TradedNonnegative(t: Trade, id: Uuid)
    requires t.quantity >= 0
    ensures TradedOf(id)(t) >= 0
  {
  }

  lemma {:induction false} SumAtMost<X>(s: seq<X>, f: X -> int, g: X -> int)
    requires forall i :: 0 <= i < |s| ==> f(s[i]) <= g(s[i])
    ensures Sum(s, f) <= Sum(s, g)
  {
    if s != [] {
      SumAtMost(s[..|s| - 1], f, g);
    }
  }

  // ---- Room for every open match ---------------------------------------------------------

  /** Even with all its other open matches filled, the order has room for the quantity. */
  ghost predicate HasPlace(s: State, id: Uuid, quantity: int) {
    id in s.db.orders ==> s.db.orders[id].filled + OpenDue(s, id) - quantity < s.db.orders[id].quantity
  }

  ghost predicate MatchHasPlace(s: State, m: Matched) {
    HasPlace(s, m.trade.buyOrderId, m.trade.quantity) && HasPlace(s, m.trade.sellOrderId, m.trade.quantity)
  }

  /** Every open match has its place in both of its orders. */
  ghost predicate Roomy(s: State) {
    forall k :: 0 <= k < |Recent(s)| && IsOpen(s.db, Recent(s)[k]) ==> MatchHasPlace(s, Recent(s)[k])
  }

  /** When there is room, neither side of an open match is closed. */
  lemma RoomyIsOpen(symbol: string, s: State, i: nat)
    requires Inv(symbol, s) && Roomy(s) && s.since <= i < |Matches(s.shard.log)|
    requires IsOpen(s.db, Matches(s.shard.log)[i])
    ensures var t := Matches(s.shard.log)[i].trade; !IsClosed(s.db, t.buyOrderId) && !IsClosed(s.db, t.sellOrderId)
  {
    hide Inv, OpenDue, IsSettled, DueOf;
    RecentOk(symbol, s, i);
    var t := Matches(s.shard.log)[i].trade;
    assert MatchHasPlace(s, Recent(s)[i - s.since]);
    OpenNonnegative(symbol, s, t.buyOrderId);
    OpenNonnegative(symbol, s, t.sellOrderId);
    assert TradedOf(t.buyOrderId)(t) == t.quantity && TradedOf(t.sellOrderId)(t) == t.quantity;
  }

  /** Deliveries keep the room that there is. */
  lemma RoomyStays(symbol: string, s: State, ds: seq<Delivery>)
    requires Inv(symbol, s) && Roomy(s)
    ensures Roomy(DeliverAll(symbol, s, ds))
  {
    hide Inv, OpenDue, DeliverAll, IsSettled, IsBlocked, BesideRow;
    var t := DeliverAll(symbol, s, ds);
    DeliverAllBeside(symbol, s, ds);
    SameRecent(symbol, s, t);
    forall k | 0 <= k < |Recent(t)| && IsOpen(t.db, Recent(t)[k])
      ensures MatchHasPlace(t, Recent(t)[k])
    {
      var m := Recent(t)[k];
      StaysSettled(symbol, s, ds, m);
      BlockedStays(symbol, s, t, m);
      assert MatchHasPlace(s, Recent(s)[k]);
      PlaceStays(symbol, s, ds, m.trade.buyOrderId, m.trade.quantity);
      PlaceStays(symbol, s, ds, m.trade.sellOrderId, m.trade.quantity);
    }
  }

  lemma PlaceStays(symbol: string, s: State, ds: seq<Delivery>, id: Uuid, quantity: int)
    requires Inv(symbol, s)
    ensures HasPlace(s, id, quantity) <==> HasPlace(DeliverAll(symbol, s, ds), id, quantity)
  {
    hide Inv, OpenDue, DeliverAll, BesideRow;
    DeliverAllBeside(symbol, s, ds);
    if id in s.db.orders {
      FillPlusOpen(symbol, s, ds, id);
      BesideKeeps(symbol, s.db.orders[id], DeliverAll(symbol, s, ds).db.orders[id]);
    }
  }

  lemma {:induction false} StaysSettled(symbol: string, s: State, ds: seq<Delivery>, m: Matched)
    requires Inv(symbol, s)
    ensures s.db.keys <= DeliverAll(symbol, s, ds).db.keys
    ensures IsSettled(s.db.keys, m) ==> IsSettled(DeliverAll(symbol, s, ds).db.keys, m)
  {
    hide Inv, DeliverOne, KeyFor;
    if ds != [] {
      var k := |ds| - 1;
      StaysSettled(symbol, s, ds[..k], m);
      DeliverAllBeside(symbol, s, ds[..k]);
      DeliverKeys(symbol, DeliverAll(symbol, s, ds[..k]), ds[k]);
      hide Beside;
    }
  }

  /** A delivery adds at most the key of an open match. */
  lemma DeliverKeys(symbol: string, s: State, d: Delivery)
    requires Inv(symbol, s)
    ensures s.db.keys <= DeliverOne(symbol, s, d).db.keys <= s.db.keys + OpenKeys(s)
  {
    hide Inv, OnTradeMatched, T.Fill, Dec, KeyFor, MatchOk, IsSettled, IsBlocked;
    if Commits(s, d) {
      DeliverIsSettled(symbol, s, d.i, d.tradeId);
      CommitIsOpen(symbol, s, d);
      assert Recent(s)[d.i - s.since] == Matches(s.shard.log)[d.i];
    } else {
      NoCommitSame(symbol, s, d);
    }
  }

  ghost function OpenKeys(s: State): set<(string, Scope)> {
    set k: nat | k < |Recent(s)| && IsOpen(s.db, Recent(s)[k]) :: (KeyFor(Recent(s)[k]), ScopeTrade)
  }

  // ---- Any sequence of deliveries --------------------------------------------------------

  ghost predicate Mentioned(ds: seq<Delivery>, i: nat) {
    exists j :: 0 <= j < |ds| && ds[j].i == i
  }

  /** At most once, always: a match that was not settled is settled in the end only if it was
      delivered and is not blocked by a cancel, and then it committed once; no other delivery
      commits, whatever the order and however often each is repeated.  If every open match has its
      place, "only if" becomes "exactly if". */
  lemma {:induction false} SettledExactlyOnce(symbol: string, s: State, ds: seq<Delivery>, i: nat)
    requires Inv(symbol, s) && s.since <= i < |Matches(s.shard.log)|
    ensures var s' := DeliverAll(symbol, s, ds);
            && (SettledAt(s, i) ==> SettledAt(s', i))
            && (SettledAt(s', i) ==> SettledAt(s, i) || (Mentioned(ds, i) && !Blocked(s, i)))
            && (Roomy(s) ==> (SettledAt(s', i) <==> SettledAt(s, i) || (Mentioned(ds, i) && !Blocked(s, i))))
            && TimesSettled(symbol, s, ds, i) == (if SettledAt(s', i) && !SettledAt(s, i) then 1 else 0)
  {
    hide Inv, DeliverOne, SettledAt, Commits, Matches, Roomy;
    if ds != [] {
      var k := |ds| - 1;
      var t := DeliverAll(symbol, s, ds[..k]);
      SettledExactlyOnce(symbol, s, ds[..k], i);
      DeliverAllBeside(symbol, s, ds[..k]);
      if Roomy(s) {
        RoomyStays(symbol, s, ds[..k]);
      }
      BlockedStays(symbol, s, t, Matches(s.shard.log)[i]);
      assert Blocked(t, i) <==> Blocked(s, i);
      LastDelivery(symbol, t, ds[k], i);
      MentionedLast(ds, i);
      hide Beside, Blocked, Mentioned;
    }
  }

  lemma LastDelivery(symbol: string, s: State, d: Delivery, i: nat)
    requires Inv(symbol, s) && s.since <= i < |Matches(s.shard.log)|
    ensures var s' := DeliverOne(symbol, s, d);
            && (SettledAt(s, i) ==> SettledAt(s', i))
            && (SettledAt(s', i) ==> SettledAt(s, i) || (d.i == i && !Blocked(s, i)))
            && (Roomy(s) && d.i == i && !Blocked(s, i) ==> SettledAt(s', i))
            && (d.i == i && Commits(s, d) <==> SettledAt(s', i) && !SettledAt(s, i))
  {
    hide Inv, Matches, Commits, DeliverOne, Roomy, IsSettled;
    DeliverSettles(symbol, s, d, i);
    if Roomy(s) && !SettledAt(s, i) && !Blocked(s, i) {
      RoomyIsOpen(symbol, s, i);
    }
  }

  lemma MentionedLast(ds: seq<Delivery>, i: nat)
    requires ds != []
    ensures Mentioned(ds, i) <==> Mentioned(ds[..|ds| - 1], i) || ds[|ds| - 1].i == i
  {
    var k := |ds| - 1;
    if Mentioned(ds[..k], i) {
      var j :| 0 <= j < k && ds[..k][j].i == i;
      assert ds[j].i == i;
    }
    if Mentioned(ds, i) {
      var j :| 0 <= j < |ds| && ds[j].i == i;
      assert j < k ==> ds[..k][j].i == i;
    }
  }

  // ---- Every order of delivery settles everything, exactly when there is room ------------

  /** Every open match is delivered at least once. */
  ghost predicate Covers(s: State, ds: seq<Delivery>) {
    forall i: nat :: s.since <= i < |Matches(s.shard.log)| && IsOpen(s.db, Matches(s.shard.log)[i]) ==> Mentioned(ds, i)
  }

  ghost predicate NoneOpen(s: State) {
    forall k :: 0 <= k < |Recent(s)| ==> !IsOpen(s.db, Recent(s)[k])
  }

  /** However the open matches are delivered, all of them settle. */
  ghost predicate AlwaysSettles(symbol: string, s: State) {
    forall ds :: Covers(s, ds) ==> NoneOpen(DeliverAll(symbol, s, ds))
  }

  lemma CoversSettlesAll(symbol: string, s: State, ds: seq<Delivery>)
    requires Inv(symbol, s) && Roomy(s) && Covers(s, ds)
    ensures NoneOpen(DeliverAll(symbol, s, ds))
  {
    hide Inv, Roomy, Mentioned, IsBlocked, DeliverAll, IsSettled, BesideRow, Matches;
    var s' := DeliverAll(symbol, s, ds);
    DeliverAllBeside(symbol, s, ds);
    forall k | 0 <= k < |Recent(s')|
      ensures !IsOpen(s'.db, Recent(s')[k])
    {
      SettledExactlyOnce(symbol, s, ds, s.since + k);
      BlockedStays(symbol, s, s', Recent(s)[k]);
    }
  }

  /** Deliveries of the matches from lo to hi, without match i. */
  function Without(lo: nat, hi: nat, i: nat, tradeId: Uuid): seq<Delivery>
    requires lo <= hi
    decreases hi - lo
  {
    if lo == hi then []
    else (if lo == i then [] else [Delivery(lo, tradeId)]) + Without(lo + 1, hi, i, tradeId)
  }

  lemma {:induction false} WithoutMentions(lo: nat, hi: nat, i: nat, tradeId: Uuid, j: nat)
    requires lo <= hi
    ensures Mentioned(Without(lo, hi, i, tradeId), j) <==> lo <= j < hi && j != i
    decreases hi - lo
  {
    if lo < hi {
      var rest := Without(lo + 1, hi, i, tradeId);
      WithoutMentions(lo + 1, hi, i, tradeId, j);
      if lo != i {
        MentionedFirst(Delivery(lo, tradeId), rest, j);
      } else {
        assert [] + rest == rest;
      }
    }
  }

  lemma MentionedFirst(d: Delivery, ds: seq<Delivery>, j: nat)
    ensures Mentioned([d] + ds, j) <==> d.i == j || Mentioned(ds, j)
  {
    var all := [d] + ds;
    assert all[0] == d;
    if Mentioned(ds, j) {
      var k :| 0 <= k < |ds| && ds[k].i == j;
      assert all[k + 1].i == j;
    }
    if Mentioned(all, j) {
      var k :| 0 <= k < |all| && all[k].i == j;
      assert k > 0 ==> ds[k - 1].i == j;
    }
  }

  /** A match without place, delivered last, is refused unless another one was. */
  lemma LastIsRefused(symbol: string, s: State, i: nat, id: Uuid)
    requires Inv(symbol, s) && s.since <= i < |Matches(s.shard.log)|
    requires var m := Matches(s.shard.log)[i];
             IsOpen(s.db, m) && Mentions(m.trade, id) && !HasPlace(s, id, m.trade.quantity)
    ensures !AlwaysSettles(symbol, s)
  {
    hide Inv, DeliverAll, DeliverOne, IsSettled, IsBlocked, HasPlace, Matches, NoneOpen, Mentioned;
    var n := |Matches(s.shard.log)|;
    var others := Without(s.since, n, i, T.NIL_UUID);
    var last := Delivery(i, T.NIL_UUID);
    var ds := others + [last];
    forall j: nat | s.since <= j < n
      ensures Mentioned(ds, j)
    {
      WithoutMentions(s.since, n, i, T.NIL_UUID, j);
      MentionedLast(ds, j);
      assert ds[..|ds| - 1] == others;
    }
    assert Covers(s, ds);
    OthersFirst(symbol, s, i, id, others, last) by {
      WithoutMentions(s.since, n, i, T.NIL_UUID, i);
    }
  }

  lemma OthersFirst(symbol: string, s: State, i: nat, id: Uuid, others: seq<Delivery>, last: Delivery)
    requires Inv(symbol, s) && s.since <= i < |Matches(s.shard.log)| && last.i == i
    requires var m := Matches(s.shard.log)[i];
             IsOpen(s.db, m) && Mentions(m.trade, id) && !HasPlace(s, id, m.trade.quantity)
    requires !Mentioned(others, i)
    ensures !NoneOpen(DeliverAll(symbol, s, others + [last]))
  {
    hide Inv, DeliverAll, DeliverOne, IsSettled, IsBlocked, HasPlace, Matches, Mentioned, BesideRow, SettledAt;
    var m := Matches(s.shard.log)[i];
    var t := DeliverAll(symbol, s, others);
    var u := DeliverOne(symbol, t, last);
    assert DeliverAll(symbol, s, others + [last]) == u by { AllThenOne(symbol, s, others, last); }
    DeliverAllBeside(symbol, s, others);
    DeliverBeside(symbol, t, last);
    SettledExactlyOnce(symbol, s, others, i);
    BlockedStays(symbol, s, t, m);
    BlockedStays(symbol, t, u, m);
    PlaceStays(symbol, s, others, id, m.trade.quantity);
    SameRecent(symbol, s, t);
    SameRecent(symbol, t, u);
    UnsettledSame(s, t, i);
    if k :| 0 <= k < |Recent(t)| && k != i - s.since && IsOpen(t.db, Recent(t)[k]) {
      OtherStaysOpen(symbol, t, last, k);
      OpenAt(u, k);
    } else {
      NoPlaceIsClosed(symbol, t, i, id);
      DeliverSettles(symbol, t, last, i);
      UnsettledSame(t, u, i);
      OpenAt(u, i - s.since);
    }
  }

  lemma OpenAt(s: State, k: int)
    requires 0 <= k < |Recent(s)| && IsOpen(s.db, Recent(s)[k])
    ensures !NoneOpen(s)
  {
  }

  lemma UnsettledSame(s: State, t: State, i: nat)
    requires t.shard == s.shard && i < |Matches(s.shard.log)|
    ensures SettledAt(t, i) <==> IsSettled(t.db.keys, Matches(s.shard.log)[i])
    ensures SettledAt(s, i) <==> IsSettled(s.db.keys, Matches(s.shard.log)[i])
  {
  }

  lemma AllThenOne(symbol: string, s: State, ds: seq<Delivery>, d: Delivery)
    ensures DeliverAll(symbol, s, ds + [d]) == DeliverOne(symbol, DeliverAll(symbol, s, ds), d)
  {
    hide DeliverOne;
    assert (ds + [d])[..|ds|] == ds;
  }

  /** A delivery leaves every other open match open. */
  lemma OtherStaysOpen(symbol: string, t: State, d: Delivery, k: int)
    requires Inv(symbol, t) && 0 <= k < |Recent(t)| && d.i != t.since + k && IsOpen(t.db, Recent(t)[k])
    ensures var u := DeliverOne(symbol, t, d); Recent(u) == Recent(t) && IsOpen(u.db, Recent(u)[k])
  {
    hide Inv, DeliverOne, IsSettled, IsBlocked, Matches, BesideRow, IsClosed;
    var u := DeliverOne(symbol, t, d);
    DeliverBeside(symbol, t, d);
    SameRecent(symbol, t, u);
    DeliverSettles(symbol, t, d, t.since + k);
    BlockedStays(symbol, t, u, Recent(t)[k]);
  }

  /** When one match alone is open and has no place in an order, that order is filled. */
  lemma NoPlaceIsClosed(symbol: string, t: State, i: nat, id: Uuid)
    requires Inv(symbol, t) && t.since <= i < |Matches(t.shard.log)|
    requires var m := Matches(t.shard.log)[i];
             IsOpen(t.db, m) && Mentions(m.trade, id) && !HasPlace(t, id, m.trade.quantity)
    requires forall k :: 0 <= k < |Recent(t)| && k != i - t.since ==> !IsOpen(t.db, Recent(t)[k])
    ensures IsClosed(t.db, id)
  {
    hide Inv, IsSettled, IsBlocked, Matches;
    var ms, k, f := Recent(t), i - t.since, OpenWeight(t.db, QuantityIn(id));
    RecentOk(symbol, t, i);
    OneSum(ms, k, f);
    hide Sum;
    assert f(ms[k]) == TradedOf(id)(ms[k].trade);
    var m := Matches(t.shard.log)[i];
    assert m.trade.buyOrderId != m.trade.sellOrderId;
    assert TradedOf(id)(m.trade) == m.trade.quantity;
    assert OpenDue(t, id) == m.trade.quantity;
  }

  lemma OneSum<X>(s: seq<X>, k: int, f: X -> int)
    requires 0 <= k < |s| && forall j :: 0 <= j < |s| && j != k ==> f(s[j]) == 0
    ensures Sum(s, f) == f(s[k])
  {
    SumAround(s, k, f);
    SumZero(s[..k], f);
    SumZero(s[k + 1..], f);
  }

  /** The exact condition: every way of delivering the open matches settles all of them if and
      only if each has its place in both of its orders. */
  lemma AlwaysSettlesIff(symbol: string, s: State)
    requires Inv(symbol, s)
    ensures AlwaysSettles(symbol, s) <==> Roomy(s)
  {
    hide Inv, Covers, NoneOpen, DeliverAll, IsSettled, IsBlocked, HasPlace, Matches;
    if Roomy(s) {
      forall ds | Covers(s, ds)
        ensures NoneOpen(DeliverAll(symbol, s, ds))
      {
        CoversSettlesAll(symbol, s, ds);
      }
    } else {
      var k :| 0 <= k < |Recent(s)| && IsOpen(s.db, Recent(s)[k]) && !MatchHasPlace(s, Recent(s)[k]);
      var t := Recent(s)[k].trade;
      assert Recent(s)[k] == Matches(s.shard.log)[s.since + k];
      LastIsRefused(symbol, s, s.since + k, if HasPlace(s, t.buyOrderId, t.quantity) then t.sellOrderId
          else t.buyOrderId);
    }
  }

  /** A match has its place in an order exactly when direct trades have filled less of the order
      than the match's quantity and everything outstanding that is not in open matches. */
  lemma PlaceMeans(symbol: string, s: State, id: Uuid, quantity: int)
    requires Inv(symbol, s) && Ours(symbol, s.db, id) && s.db.orders[id].status != StatusCancelled
    ensures HasPlace(s, id, quantity) <==> DirectOf(s, id) < quantity + Outstanding(s, id) - OpenDue(s, id)
    ensures Outstanding(s, id) >= OpenDue(s, id)
  {
    hide Inv, OpenDue, Due, Resting, Queued, Refused, DirectOf, IsSettled;
    FilledExactly(symbol, s, id);
    OursAccount(symbol, s, id);
    OpenNonnegative(symbol, s, id);
  }

  /** Without direct trades there is always room. */
  lemma RoomyWithoutDirect(symbol: string, s: State)
    requires Inv(symbol, s) && NothingDirect(symbol, s)
    ensures Roomy(s)
  {
    hide Inv, HasPlace, DirectOf, Outstanding, OpenDue, IsSettled;
    forall k | 0 <= k < |Recent(s)| && IsOpen(s.db, Recent(s)[k])
      ensures MatchHasPlace(s, Recent(s)[k])
    {
      var t := Recent(s)[k].trade;
      RecentOk(symbol, s, s.since + k);
      PlaceMeans(symbol, s, t.buyOrderId, t.quantity);
      PlaceMeans(symbol, s, t.sellOrderId, t.quantity);
    }
  }

  // ---- Balances --------------------------------------------------------------------------

  /** What settling match m writes for this user in this asset. */
  ghost function BalanceEffect(db: Db, m: Matched, userId: Uuid, asset: string): int {
    var t := m.trade;
    if t.buyOrderId in db.orders && t.sellOrderId in db.orders then
      L.TradeEffectOn(db.orders[t.buyOrderId].userId, db.orders[t.sellOrderId].userId, BaseOf(t.symbol),
          QuoteOf(t.symbol),
                      t.quantity, MulUnits(t.price, t.quantity), userId, asset)
    else 0
  }

  ghost function EffectOf(db: Db, userId: Uuid, asset: string): Matched -> int {
    (m: Matched) => BalanceEffect(db, m, userId, asset)
  }

  lemma CommitLedger(symbol: string, s: State, d: Delivery, userId: Uuid, asset: string)
    requires Inv(symbol, s) && Commits(s, d)
    ensures Sum(DeliverOne(symbol, s, d).db.ledger, AmountFor(userId, asset))
         == Sum(s.db.ledger, AmountFor(userId, asset)) + BalanceEffect(s.db, Matches(s.shard.log)[d.i], userId, asset)
  {
    hide Inv, T.ExecuteTrade, T.Fill, T.Stored, T.TradeDrafts, Dec, MatchKey, Times, Units, BaseOf, QuoteOf,
         L.TradeEffectOn, ScaleTen;
    RecentOk(symbol, s, d.i);
    var m := Matches(s.shard.log)[d.i];
    var buyer, seller := s.db.orders[m.trade.buyOrderId].userId, s.db.orders[m.trade.sellOrderId].userId;
    var base, quote := BaseOf(m.trade.symbol), QuoteOf(m.trade.symbol);
    L.TradeEffect(s.db, SettleCommand(m), d.tradeId);
    L.StoredEffect(buyer, seller, base, quote, Dec(m.trade.price), Dec(m.trade.quantity), d.tradeId, userId, asset);
    UnitsOfDec(m.trade.quantity);
    SumAppend(s.db.ledger, T.Stored(T.TradeDrafts(buyer, seller, base, quote, Dec(m.trade.price),
        Dec(m.trade.quantity)), d.tradeId),
              AmountFor(userId, asset));
    hide MatchOk, IsPartner, AmountFor;
  }

  lemma SameEffect(symbol: string, s: State, s': State, m: Matched, userId: Uuid, asset: string)
    requires Beside(symbol, s, s')
    ensures BalanceEffect(s'.db, m, userId, asset) == BalanceEffect(s.db, m, userId, asset)
  {
    hide MulUnits, BaseOf, QuoteOf, BesideRow, L.TradeEffectOn;
    forall id | id in s.db.orders
      ensures s'.db.orders[id].userId == s.db.orders[id].userId
    {
      BesideKeeps(symbol, s.db.orders[id], s'.db.orders[id]);
    }
  }

  /** The ledger and the open effects together do not move. */
  lemma {:induction false} LedgerPlusOpen(symbol: string, s: State, ds: seq<Delivery>, userId: Uuid, asset: string)
    requires Inv(symbol, s)
    ensures var t := DeliverAll(symbol, s, ds);
            Sum(t.db.ledger, AmountFor(userId, asset)) + OpenSum(t, EffectOf(s.db, userId, asset))
            == Sum(s.db.ledger, AmountFor(userId, asset)) + OpenSum(s, EffectOf(s.db, userId, asset))
  {
    hide Inv, DeliverOne, OpenSum, OnTradeMatched, BesideRow, BalanceEffect, AmountFor;
    if ds != [] {
      var k := |ds| - 1;
      var t := DeliverAll(symbol, s, ds[..k]);
      DeliverAllBeside(symbol, s, ds[..k]);
      LedgerPlusOpen(symbol, s, ds[..k], userId, asset);
      if Commits(t, ds[k]) {
        CommitLedger(symbol, t, ds[k], userId, asset);
        CommitOpenSum(symbol, t, ds[k], EffectOf(s.db, userId, asset));
        SameEffect(symbol, s, t, Matches(t.shard.log)[ds[k].i], userId, asset);
      } else {
        NoCommitSame(symbol, t, ds[k]);
      }
    }
  }

  // ---- Confluence ------------------------------------------------------------------------

  lemma NoneOpenNothing(s: State, w: Matched -> int)
    requires NoneOpen(s)
    ensures OpenSum(s, w) == 0
  {
    hide IsOpen, Recent;
    SumZero(Recent(s), OpenWeight(s.db, w));
  }

  /** The row of an order after any complete way of delivering: all open quantity is filled. */
  lemma DeliveredRow(symbol: string, s: State, ds: seq<Delivery>, id: Uuid)
    requires Inv(symbol, s) && Roomy(s) && Covers(s, ds) && id in s.db.orders
    ensures var t := DeliverAll(symbol, s, ds);
            && id in t.db.orders
            && var filled := s.db.orders[id].filled + OpenDue(s, id);
               t.db.orders[id] == s.db.orders[id].(filled := filled, status := StatusAfter(s.db.orders[id], filled))
  {
    hide Inv, Roomy, Covers, DeliverAll, NoneOpen, OpenSum, StatusAfter;
    var t := DeliverAll(symbol, s, ds);
    DeliverAllBeside(symbol, s, ds);
    CoversSettlesAll(symbol, s, ds);
    NoneOpenNothing(t, QuantityIn(id));
    FillPlusOpen(symbol, s, ds, id);
  }

  lemma SameOrders(symbol: string, s: State, ds: seq<Delivery>, ds': seq<Delivery>)
    requires Inv(symbol, s) && Roomy(s) && Covers(s, ds) && Covers(s, ds')
    ensures DeliverAll(symbol, s, ds).db.orders == DeliverAll(symbol, s, ds').db.orders
  {
    hide Inv, Roomy, Covers, DeliverAll, OpenDue, StatusAfter, BesideRow;
    DeliverAllBeside(symbol, s, ds);
    DeliverAllBeside(symbol, s, ds');
    forall id | id in s.db.orders
      ensures DeliverAll(symbol, s, ds).db.orders[id] == DeliverAll(symbol, s, ds').db.orders[id]
    {
      DeliveredRow(symbol, s, ds, id);
      DeliveredRow(symbol, s, ds', id);
    }
  }

  lemma {:induction false} DeliverAllKeys(symbol: string, s: State, ds: seq<Delivery>)
    requires Inv(symbol, s)
    ensures s.db.keys <= DeliverAll(symbol, s, ds).db.keys <= s.db.keys + OpenKeys(s)
  {
    hide Inv, DeliverOne, OpenKeys;
    if ds != [] {
      var k := |ds| - 1;
      var t := DeliverAll(symbol, s, ds[..k]);
      DeliverAllBeside(symbol, s, ds[..k]);
      DeliverAllKeys(symbol, s, ds[..k]);
      DeliverKeys(symbol, t, ds[k]);
      OpenKeysShrink(symbol, s, t);
      hide Beside;
    }
  }

  lemma OpenKeysShrink(symbol: string, s: State, t: State)
    requires Beside(symbol, s, t) && s.db.keys <= t.db.keys
    ensures OpenKeys(t) <= OpenKeys(s)
  {
    hide BesideRow, KeyFor, IsBlocked;
    SameRecent(symbol, s, t);
    forall k: nat | k < |Recent(t)| && IsOpen(t.db, Recent(t)[k])
      ensures IsOpen(s.db, Recent(s)[k])
    {
      BlockedStays(symbol, s, t, Recent(s)[k]);
    }
    hide Recent, IsOpen;
  }

  lemma DeliveredKeys(symbol: string, s: State, ds: seq<Delivery>)
    requires Inv(symbol, s) && Roomy(s) && Covers(s, ds)
    ensures DeliverAll(symbol, s, ds).db.keys == s.db.keys + OpenKeys(s)
  {
    hide Inv, Roomy, Covers, DeliverAll, KeyFor, BesideRow, IsBlocked;
    var t := DeliverAll(symbol, s, ds);
    DeliverAllBeside(symbol, s, ds);
    DeliverAllKeys(symbol, s, ds);
    CoversSettlesAll(symbol, s, ds);
    SameRecent(symbol, s, t);
    forall k: nat | k < |Recent(s)| && IsOpen(s.db, Recent(s)[k])
      ensures (KeyFor(Recent(s)[k]), ScopeTrade) in t.db.keys
    {
      BlockedStays(symbol, s, t, Recent(s)[k]);
      assert !IsOpen(t.db, Recent(t)[k]);
    }
    hide Recent, IsOpen;
  }

  lemma DeliveredBalance(symbol: string, s: State, ds: seq<Delivery>, userId: Uuid, asset: string)
    requires Inv(symbol, s) && Roomy(s) && Covers(s, ds)
    ensures Balance(DeliverAll(symbol, s, ds).db.ledger, userId, asset)
         == Balance(s.db.ledger, userId, asset) + OpenSum(s, EffectOf(s.db, userId, asset))
  {
    hide Inv, Roomy, Covers, DeliverAll, NoneOpen, AmountFor, OpenSum, Balance;
    var t := DeliverAll(symbol, s, ds);
    LedgerPlusOpen(symbol, s, ds, userId, asset);
    CoversSettlesAll(symbol, s, ds);
    NoneOpenNothing(t, EffectOf(s.db, userId, asset));
    BalanceIsSum(s.db.ledger, userId, asset);
    BalanceIsSum(t.db.ledger, userId, asset);
  }

  /** Confluence: when every open match has its place, any two ways of delivering all of them, in
      any order and with any repeats, leave the same orders table, the same settlement keys and the
      same balances. */
  lemma DeliveryOrderIsIrrelevant(symbol: string, s: State, ds: seq<Delivery>, ds': seq<Delivery>, userId: Uuid,
      asset: string)
    requires Inv(symbol, s) && Roomy(s) && Covers(s, ds) && Covers(s, ds')
    ensures var a, b := DeliverAll(symbol, s, ds), DeliverAll(symbol, s, ds');
            && a.db.orders == b.db.orders
            && a.db.keys == b.db.keys == s.db.keys + OpenKeys(s)
            && Balance(a.db.ledger, userId, asset) == Balance(b.db.ledger, userId, asset)
  {
    hide Inv, Roomy, Covers, DeliverAll, OpenKeys, AmountFor, EffectOf, OpenSum;
    SameOrders(symbol, s, ds, ds');
    DeliveredKeys(symbol, s, ds);
    DeliveredKeys(symbol, s, ds');
    DeliveredBalance(symbol, s, ds, userId, asset);
    DeliveredBalance(symbol, s, ds', userId, asset);
  }

  ghost predicate AllSettled(s: State) {
    forall k :: 0 <= k < |Recent(s)| ==> IsSettled(s.db.keys, Recent(s)[k])
  }

  /** Once every match has settled, the fill of an order that was not cancelled is its quantity
      less what rests, waits or was refused, and what direct trades have filled on top. */
  lemma FillIsQuantityMinusRemaining(symbol: string, s: State, id: Uuid)
    requires Inv(symbol, s) && AllSettled(s) && Ours(symbol, s.db, id) && s.db.orders[id].status != StatusCancelled
    ensures s.db.orders[id].filled
         == s.db.orders[id].quantity - Resting(s.shard.book, id) - Queued(s, id) - Refused(s, id) + DirectOf(s, id)
  {
    hide Inv, AllSettled, Resting, Queued, Refused, DirectOf, Due;
    FilledExactly(symbol, s, id);
    AllSettledNoneDue(s, id);
  }

  lemma AllSettledNoneDue(s: State, id: Uuid)
    requires AllSettled(s)
    ensures Due(s, id) == 0
  {
    hide IsSettled, Recent, TradedOf;
    SumZero(Recent(s), DueOf(s.db.keys, id));
  }

  // ---- Keys ------------------------------------------------------------------------------

  /** No two matches ever share a settlement key, although every restart resets the counter. */
  lemma KeysNeverCollide(symbol: string, s: State, actions: seq<Action>, i: nat, j: nat)
    requires Initial(symbol, s) && AllAllowed(symbol, s, actions)
    requires i < j < |Matches(Exec(symbol, s, actions).shard.log)|
    ensures var ms := Matches(Exec(symbol, s, actions).shard.log); KeyFor(ms[i]) != KeyFor(ms[j])
  {
    hide Initial, AllAllowed, Inv, Exec, MatchKey, MatchOk;
    var s' := Exec(symbol, s, actions);
    RunKeepsInv(symbol, s, actions);
    InvMatches(symbol, s');
    var t, u := Matches(s'.shard.log)[i], Matches(s'.shard.log)[j];
    assert !SamePair(t.trade, u.trade);
    if KeyFor(t) == KeyFor(u) {
      MatchKeyInjective(t.trade.buyOrderId, t.trade.sellOrderId, t.seqNo, u.trade.buyOrderId, u.trade.sellOrderId,
          u.seqNo);
    }
  }

  // ---- Runs without cancels --------------------------------------------------------------

  ghost predicate NoneCancelled(db: Db) {
    forall id :: id in db.orders ==> db.orders[id].status != StatusCancelled
  }

  lemma CallCancelsNone(db: Db, c: T.Call)
    requires NoneCancelled(db) && !c.CallCancel?
    ensures NoneCancelled(T.Perform(db, c).db)
  {
    hide T.ExecuteTrade, T.Fill, T.ReserveAmount, T.Stored, T.TradeDrafts, Units, Balance, SplitSymbol, ReserveAsset;
    match c
    case CallTrade(cmd, tradeId) =>
      if T.ExecuteTrade(db, cmd, tradeId).result.Ok? {
        L.TradeEffect(db, cmd, tradeId);
        L.FillRow(db.orders[cmd.buyOrderId], cmd.quantity);
        L.FillRow(db.orders[cmd.sellOrderId], cmd.quantity);
      } else {
        T.FailureChangesNothing(db, c);
      }
    case _ =>
  }

  lemma ActCancelsNone(symbol: string, s: State, a: Action)
    requires NoneCancelled(s.db) && !a.CancelRow? && Allowed(symbol, s.db, a)
    ensures NoneCancelled(Act(symbol, s, a).db)
  {
    hide NoneCancelled, T.PlaceOrder, T.ExecuteTrade, Handle, Rehydrated, Matches, ForeignKey;
    match a
    case Place(markets, cmd, id) => CallCancelsNone(s.db, T.CallPlace(markets, cmd, id));
    case Deliver(i, tradeId) =>
      var ms := Matches(s.shard.log);
      if s.since <= i < |ms| {
        CallCancelsNone(s.db, T.CallTrade(SettleCommand(ms[i]), tradeId));
      }
    case TradeDirectly(cmd, tradeId) => CallCancelsNone(s.db, T.CallTrade(cmd, tradeId));
    case Elsewhere(c) => CallCancelsNone(s.db, c);
    case _ =>
  }

  lemma {:induction false} RunCancelsNone(symbol: string, s: State, actions: seq<Action>)
    requires Initial(symbol, s) && AllAllowed(symbol, s, actions)
    requires forall k :: 0 <= k < |actions| ==> !actions[k].CancelRow?
    ensures NoneCancelled(Exec(symbol, s, actions).db)
  {
    hide Act, Allowed;
    if actions != [] {
      var k := |actions| - 1;
      forall j | 0 <= j < k
        ensures Allowed(symbol, Exec(symbol, s, actions[..k][..j]).db, actions[..k][j])
      {
        assert actions[..k][..j] == actions[..j];
      }
      RunCancelsNone(symbol, s, actions[..k]);
      hide NoneCancelled;
      ActCancelsNone(symbol, Exec(symbol, s, actions[..k]), actions[k]);
    }
  }

  /** After any run without cancels in which every open match has its place, delivering every
      recent match at least once, in any order: each one not settled before commits exactly once,
      and every fill is the quantity less what still rests, waits or was refused, plus what direct
      trades have filled. */
  lemma EveryMatchSettles(symbol: string, s: State, actions: seq<Action>, ds: seq<Delivery>, i: nat, id: Uuid)
    requires Initial(symbol, s) && AllAllowed(symbol, s, actions)
    requires forall k :: 0 <= k < |actions| ==> !actions[k].CancelRow?
    requires var t := Exec(symbol, s, actions);
             && Roomy(t)
             && (forall j: nat :: t.since <= j < |Matches(t.shard.log)| ==> Mentioned(ds, j))
             && t.since <= i < |Matches(t.shard.log)|
             && Ours(symbol, t.db, id)
    ensures var t := Exec(symbol, s, actions);
            var u := DeliverAll(symbol, t, ds);
            && SettledAt(u, i) && TimesSettled(symbol, t, ds, i) == (if SettledAt(t, i) then 0 else 1)
            && id in u.db.orders
            && u.db.orders[id].filled
               == u.db.orders[id].quantity - Resting(u.shard.book, id) - Queued(u, id) - Refused(u, id)
                   + DirectOf(u, id)
  {
    hide Initial, AllAllowed, Inv, Exec, Mentioned, DeliverAll, Resting, Queued, Refused, DirectOf, BesideRow,
         SettledAt,
         Matches, TimesSettled, Roomy, IsSettled;
    var t := Exec(symbol, s, actions);
    var u := DeliverAll(symbol, t, ds);
    RunKeepsInv(symbol, s, actions);
    RunCancelsNone(symbol, s, actions);
    forall j
      ensures !Blocked(t, j)
    {
    }
    SettledExactlyOnce(symbol, t, ds, i);
    CoversSettlesAll(symbol, t, ds);
    DeliverAllBeside(symbol, t, ds);
    BesideKeeps(symbol, t.db.orders[id], u.db.orders[id]);
    NoneOpenAllSettled(symbol, t, u);
    FillIsQuantityMinusRemaining(symbol, u, id);
  }

  lemma NoneOpenAllSettled(symbol: string, t: State, u: State)
    requires NoneCancelled(t.db) && Beside(symbol, t, u) && NoneOpen(u)
    ensures AllSettled(u)
  {
    hide BesideRow, IsSettled;
    forall k | 0 <= k < |Recent(u)|
      ensures IsSettled(u.db.keys, Recent(u)[k])
    {
      BlockedStays(symbol, t, u, Recent(u)[k]);
      assert !IsBlocked(t.db, Recent(u)[k]);
    }
  }

  /** After any run whose direct trades leave the symbol's orders alone, cancels or not, every open
      match has its place: each settles in every order of delivery. */
  lemma RunAlwaysSettles(symbol: string, s: State, actions: seq<Action>)
    requires Initial(symbol, s) && AllAllowed(symbol, s, actions) && NoneDirect(symbol, s, actions)
    ensures Roomy(Exec(symbol, s, actions)) && AlwaysSettles(symbol, Exec(symbol, s, actions))
  {
    hide Initial, AllAllowed, Inv, Exec, NoneDirect, Roomy, AlwaysSettles, NothingDirect;
    RunKeepsInv(symbol, s, actions);
    RunDirectNone(symbol, s, actions);
    RoomyWithoutDirect(symbol, Exec(symbol, s, actions));
    AlwaysSettlesIff(symbol, Exec(symbol, s, actions));
  }
}
