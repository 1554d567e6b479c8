/** When does a restart rebuild exactly the book that was live before it?  Exactly when no closed
    order rests, what an open order has unsettled, on its way or refused is just what direct trades
    have filled of it, and orders of one price rest in the order of their created_at. */
module Rehydration {
  import opened Domain
  import opened PriceTime
  import opened BookFacts
  import opened EngineRun
  import opened Numeric
  import opened Records
  import opened Exchange
  import opened ExchangeInv
  import opened ExchangeWork
  import opened ExchangeSettle
  import opened ExchangeRestart
  import opened Settlement
  import T = Transactions
  import L = LedgerRun

  // ---- Queues as they are loaded ---------------------------------------------------------

  /** A loaded order starts with the quantity it has left. */
  function AsLoaded(o: Order): Order {
    o.(quantity := o.remaining)
  }

  function QueueAsLoaded(q: seq<Order>): seq<Order> {
    seq(|q|, i requires 0 <= i < |q| => AsLoaded(q[i]))
  }

  function BookAsLoaded(b: Book): Book {
    Book(QueueAsLoaded(b.bids), QueueAsLoaded(b.asks))
  }

  /** The position of an id, or the length of the list. */
  function Position(ids: seq<Uuid>, id: Uuid): (k: nat)
    ensures k <= |ids|
    ensures k < |ids| ==> ids[k] == id
    ensures forall i :: 0 <= i < k ==> ids[i] != id
  {
    if ids == [] || ids[0] == id then 0 else 1 + Position(ids[1..], id)
  }

  /** Orders of one price stand in created_at order. */
  ghost predicate TiesByAge(created: seq<Uuid>, q: seq<Order>) {
    forall i, j :: 0 <= i < j < |q| && q[i].price == q[j].price ==>
      Position(created, q[i].id) < Position(created, q[j].id)
  }

  // ---- A strictly sorted queue is determined by its members ------------------------------

  predicate Before(side: Side, created: seq<Uuid>, x: Order, y: Order) {
    Better(side, x.price, y.price) || (x.price == y.price && Position(created, x.id) < Position(created, y.id))
  }

  ghost predicate Strict(side: Side, created: seq<Uuid>, q: seq<Order>) {
    forall i, j :: 0 <= i < j < |q| ==> Before(side, created, q[i], q[j])
  }

  lemma SortedIsStrict(side: Side, created: seq<Uuid>, q: seq<Order>)
    requires Sorted(side, q) && TiesByAge(created, q)
    ensures Strict(side, created, q) && Strict(side, created, QueueAsLoaded(q))
  {
    hide Position;
    forall i, j | 0 <= i < j < |q|
      ensures Before(side, created, q[i], q[j])
    {
      assert !Better(side, q[j].price, q[i].price);
    }
  }

  lemma {:induction false} StrictUnique(side: Side, created: seq<Uuid>, a: seq<Order>, b: seq<Order>)
    requires Strict(side, created, a) && Strict(side, created, b)
    requires forall o :: o in a <==> o in b
    ensures a == b
  {
    hide Position;
    if a == [] {
      if b != [] {
        HasMember(b);
      }
    } else {
      assert a[0] in b;
      assert b[0] in a;
      assert a[0] == b[0];
      forall o
        ensures o in a[1..] <==> o in b[1..]
      {
        TailMembers(side, created, a, o);
        TailMembers(side, created, b, o);
      }
      StrictUnique(side, created, a[1..], b[1..]);
      assert a == [a[0]] + a[1..] && b == [b[0]] + b[1..];
    }
  }

  lemma HasMember(q: seq<Order>)
    requires q != []
    ensures exists o :: o in q
  {
    assert q[0] in q;
  }

  lemma TailMembers(side: Side, created: seq<Uuid>, a: seq<Order>, o: Order)
    requires a != [] && Strict(side, created, a)
    ensures o in a[1..] <==> o in a && o != a[0]
  {
    hide Position;
    assert a == [a[0]] + a[1..];
    if o in a[1..] {
      var i :| 0 <= i < |a[1..]| && a[1..][i] == o;
      assert Before(side, created, a[0], a[i + 1]);
    }
  }

  // ---- The members of a book are determined by what rests --------------------------------

  lemma CountZero(q: seq<Order>, id: Uuid)
    requires Sum(q, OneOf(id)) == 0
    ensures Sum(q, QtyOf(id)) == 0
    ensures forall i :: 0 <= i < |q| ==> q[i].id != id
  {
    Counted(q, id);
    NotCounted(q, id);
  }

  /** The resting quantity of a unique id is the order's own. */
  lemma MemberRests(b: Book, side: Side, i: int)
    requires UniqueIds(b) && 0 <= i < |Queue(b, side)|
    ensures Resting(b, Queue(b, side)[i].id) == Queue(b, side)[i].remaining
  {
    var q := Queue(b, side);
    var id := q[i].id;
    SumAround(q, i, OneOf(id));
    SumAround(q, i, QtyOf(id));
    SumNonnegative(q[..i], OneOf(id));
    SumNonnegative(q[i + 1..], OneOf(id));
    CopiesNonnegative(b, id);
    assert Copies(b, id) <= 1;
    CountZero(q[..i], id);
    CountZero(q[i + 1..], id);
    CountZero(Queue(b, Opposite(side)), id);
  }

  /** The one order that can rest for this row. */
  function RowOrder(id: Uuid, row: OrderRow, remaining: int): Order {
    Order(id, row.userId, row.symbol, row.side, row.price, remaining, remaining)
  }

  ghost predicate IsMember(symbol: string, db: Db, b: Book, side: Side, o: Order) {
    && Ours(symbol, db, o.id) && db.orders[o.id].side == side
    && Resting(b, o.id) > 0 && o == RowOrder(o.id, db.orders[o.id], Resting(b, o.id))
  }

  ghost predicate SoundBook(symbol: string, db: Db, b: Book) {
    Ordered(b) && UniqueIds(b) && AllRest(symbol, db, b.bids) && AllRest(symbol, db, b.asks)
  }

  lemma MembersAreRows(symbol: string, db: Db, b: Book, side: Side, o: Order)
    requires SoundBook(symbol, db, b)
    ensures o in QueueAsLoaded(Queue(b, side)) <==> IsMember(symbol, db, b, side, o)
  {
    var q := Queue(b, side);
    if o in QueueAsLoaded(q) {
      var i :| 0 <= i < |q| && AsLoaded(q[i]) == o;
      MemberRests(b, side, i);
      assert RestsFor(symbol, db, q[i]);
    }
    if IsMember(symbol, db, b, side, o) {
      RestingIsFound(b, o.id);
      var on: Side, i: int :| 0 <= i < |Queue(b, on)| && Queue(b, on)[i].id == o.id;
      MemberRests(b, on, i);
      var x := Queue(b, on)[i];
      assert RestsFor(symbol, db, x);
      assert on == side;
      assert QueueAsLoaded(q)[i] == o;
    }
  }

  lemma RestingIsFound(b: Book, id: Uuid)
    requires Resting(b, id) != 0
    ensures exists on: Side, i: int :: 0 <= i < |Queue(b, on)| && Queue(b, on)[i].id == id
  {
    var i, j := Find(b.bids, id), Find(b.asks, id);
    if i < |b.bids| {
      assert Queue(b, Buy)[i].id == id;
    } else if j < |b.asks| {
      assert Queue(b, Sell)[j].id == id;
    } else {
      NotCounted(b.bids, id);
      NotCounted(b.asks, id);
    }
  }

  // ---- The rebuilt book ------------------------------------------------------------------

  ghost predicate LoadedQueue(q: seq<Order>) {
    forall i :: 0 <= i < |q| ==> q[i] == AsLoaded(q[i])
  }

  /** Every order of the queue is among the ids. */
  ghost predicate Among(ids: seq<Uuid>, q: seq<Order>) {
    forall i :: 0 <= i < |q| ==> q[i].id in ids
  }

  lemma PositionPrefix(ids: seq<Uuid>, k: nat, id: Uuid)
    requires k <= |ids| && id in ids[..k]
    ensures Position(ids, id) == Position(ids[..k], id) < k
  {
    var p := Position(ids[..k], id);
    assert ids[..k][p] == ids[p];
    assert forall i :: 0 <= i < p ==> ids[i] == ids[..k][i];
  }

  lemma JoinByAge(side: Side, ids: seq<Uuid>, q: seq<Order>, o: Order)
    requires ids != [] && Distinct(ids) && o.id == ids[|ids| - 1] && Sorted(side, q)
    requires ByAge(ids[..|ids| - 1], q) && o == AsLoaded(o)
    ensures ByAge(ids, Join(side, q, o))
  {
    hide Position, TiesByAge, Sorted;
    JoinTies(side, ids, q, o);
    hide Distinct, Slot;
    var k, t := Slot(side, q, o.price), Join(side, q, o);
    forall i | 0 <= i < |t|
      ensures t[i] == if i < k then q[i] else if i == k then o else q[i - 1]
    {
    }
  }

  lemma JoinTies(side: Side, ids: seq<Uuid>, q: seq<Order>, o: Order)
    requires ids != [] && Distinct(ids) && o.id == ids[|ids| - 1] && Sorted(side, q)
    requires TiesByAge(ids[..|ids| - 1], q) && Among(ids[..|ids| - 1], q)
    ensures TiesByAge(ids, Join(side, q, o))
  {
    hide Position, Join, Sorted;
    var n := |ids| - 1;
    forall x | 0 <= x < |q|
      ensures Position(ids, q[x].id) == Position(ids[..n], q[x].id) < n
    {
      PositionPrefix(ids, n, q[x].id);
    }
    assert Position(ids, o.id) == n;
    hide Distinct, Among;
    var t := Join(side, q, o);
    forall i, j | 0 <= i < j < |t| && t[i].price == t[j].price
      ensures Position(ids, t[i].id) < Position(ids, t[j].id)
    {
      JoinLength(side, q, o);
      JoinTie(side, q, o, AgeIn(ids), i, j);
    }
  }

  ghost function AgeIn(ids: seq<Uuid>): Uuid -> int {
    (id: Uuid) => Position(ids, id)
  }

  lemma JoinLength(side: Side, q: seq<Order>, o: Order)
    ensures |Join(side, q, o)| == |q| + 1
  {
  }

  /** Two orders of one price after a join: both were there, or the later one has just joined. */
  lemma JoinTie(side: Side, q: seq<Order>, o: Order, age: Uuid -> int, i: int, j: int)
    requires Sorted(side, q) && 0 <= i < j < |q| + 1
    requires |Join(side, q, o)| == |q| + 1 && Join(side, q, o)[i].price == Join(side, q, o)[j].price
    requires forall x, y :: 0 <= x < y < |q| && q[x].price == q[y].price ==> age(q[x].id) < age(q[y].id)
    requires forall x :: 0 <= x < |q| ==> age(q[x].id) < age(o.id)
    ensures age(Join(side, q, o)[i].id) < age(Join(side, q, o)[j].id)
  {
    hide Join, Slot;
    JoinAt(side, q, o, i);
    JoinAt(side, q, o, j);
    var k := Slot(side, q, o.price);
    if i == k {
      BehindSlot(side, q, o, j - 1);
    }
  }

  lemma BehindSlot(side: Side, q: seq<Order>, o: Order, x: int)
    requires Sorted(side, q) && Slot(side, q, o.price) <= x < |q|
    ensures q[x].price != o.price
  {
    var k := Slot(side, q, o.price);
    hide Slot;
    assert x > k ==> !Better(side, q[x].price, q[k].price);
  }

  lemma SkipByAge(ids: seq<Uuid>, q: seq<Order>)
    requires ids != [] && TiesByAge(ids[..|ids| - 1], q) && Among(ids[..|ids| - 1], q)
    ensures TiesByAge(ids, q) && Among(ids, q)
  {
    hide Position;
    forall i | 0 <= i < |q|
      ensures Position(ids, q[i].id) == Position(ids[..|ids| - 1], q[i].id) && q[i].id in ids
    {
      PositionPrefix(ids, |ids| - 1, q[i].id);
    }
  }

  ghost predicate ByAge(ids: seq<Uuid>, q: seq<Order>) {
    TiesByAge(ids, q) && Among(ids, q) && LoadedQueue(q)
  }

  lemma {:induction false} RehydratedByAge(symbol: string, db: Db, created: seq<Uuid>)
    requires Distinct(created)
    ensures var b := Rehydrated(symbol, db.orders, created); ByAge(created, b.bids) && ByAge(created, b.asks)
  {
    if created != [] {
      var k := |created| - 1;
      var b := Rehydrated(symbol, db.orders, created[..k]);
      RehydratedByAge(symbol, db, created[..k]);
      RehydratedHolds(symbol, db, created[..k]);
      LoadRowByAge(symbol, db, b, created);
    }
  }

  lemma LoadRowByAge(symbol: string, db: Db, b: Book, created: seq<Uuid>)
    requires created != [] && Distinct(created) && Ordered(b)
    requires ByAge(created[..|created| - 1], b.bids) && ByAge(created[..|created| - 1], b.asks)
    ensures var id := created[|created| - 1];
            var b' := if id in db.orders then LoadRow(symbol, b, id, db.orders[id]) else b;
            ByAge(created, b'.bids) && ByAge(created, b'.asks)
  {
    hide TiesByAge, Among, LoadedQueue, Join;
    var id := created[|created| - 1];
    SkipByAge(created, b.bids);
    SkipByAge(created, b.asks);
    if id in db.orders && LiveQty(symbol, db.orders[id]) > 0 {
      var row, q := db.orders[id], LiveQty(symbol, db.orders[id]);
      var o := Order(id, row.userId, symbol, row.side, row.price, q, q);
      JoinByAge(o.side, created, Queue(b, o.side), o);
    }
  }

  // ---- Live and rebuilt ------------------------------------------------------------------

  /** A CANCELLED or FILLED order rests. */
  ghost predicate ClosedRests(s: State, q: seq<Order>) {
    exists i :: 0 <= i < |q| && IsClosed(s.db, q[i].id)
  }

  /** The row can no longer be filled or cancelled, so a restart does not load it. */
  ghost predicate Closed(db: Db, id: Uuid) {
    id in db.orders ==> IsTerminal(db.orders[id].status)
  }

  /** Every placement on its way to the engine is of an order that was closed meanwhile. */
  ghost predicate NoneWaits(db: Db, cmds: seq<Command>) {
    forall i :: 0 <= i < |cmds| ==> forall id :: id in PlacedId(cmds[i]) ==> Closed(db, id)
  }

  /** Every match that never settled, refused or not yet delivered, is of two closed orders. */
  ghost predicate NoFillMissing(s: State) {
    forall k :: 0 <= k < |Recent(s)| && !IsSettled(s.db.keys, Recent(s)[k]) ==>
      Closed(s.db, Recent(s)[k].trade.buyOrderId) && Closed(s.db, Recent(s)[k].trade.sellOrderId)
  }

  /** Every refused submission is of an order that is closed. */
  ghost predicate NoneRefused(s: State) {
    forall id :: id in s.lost ==> Closed(s.db, id)
  }

  /** What an open order has unsettled, on its way to the engine or refused is exactly what direct
      trades have filled of it. */
  ghost predicate Made(s: State, id: Uuid) {
    Due(s, id) + Queued(s, id) + Refused(s, id) == DirectOf(s, id)
  }

  ghost predicate AllMade(symbol: string, s: State) {
    forall id :: Ours(symbol, s.db, id) && !IsTerminal(s.db.orders[id].status) ==> Made(s, id)
  }

  /** What can be read off the tables, the book and the queues before a restart. */
  ghost predicate Recoverable(symbol: string, s: State) {
    && !ClosedRests(s, s.shard.book.bids) && !ClosedRests(s, s.shard.book.asks)
    && AllMade(symbol, s)
    && TiesByAge(s.db.created, s.shard.book.bids) && TiesByAge(s.db.created, s.shard.book.asks)
  }

  /** What an order has left in the tables, compared with what rests of it. */
  lemma LiveAgainstResting(symbol: string, s: State, id: Uuid)
    requires Inv(symbol, s) && Ours(symbol, s.db, id)
    ensures var row := s.db.orders[id];
            var live, resting := LiveQty(symbol, row), Resting(s.shard.book, id);
            && resting >= 0
            && (IsTerminal(row.status) ==> live == 0)
            && (!IsTerminal(row.status) ==> (live == resting <==> Made(s, id)))
  {
    hide Inv, Resting, Due, Queued, Refused, DirectOf;
    OursAccount(symbol, s, id);
  }

  lemma InvPending(symbol: string, s: State)
    requires Inv(symbol, s)
    ensures PendingOk(symbol, s) && RowsOk(symbol, s.db)
  {
  }

  // ---- Without direct trades -------------------------------------------------------------

  /** Nothing of an open order is due when every unsettled match is of closed orders. */
  lemma NothingDue(s: State, id: Uuid)
    requires NoFillMissing(s) && id in s.db.orders && !IsTerminal(s.db.orders[id].status)
    ensures Due(s, id) == 0
  {
    hide IsSettled, Recent;
    forall k | 0 <= k < |Recent(s)|
      ensures DueOf(s.db.keys, id)(Recent(s)[k]) == 0
    {
      var m := Recent(s)[k];
      assert IsSettled(s.db.keys, m) || TradedOf(id)(m.trade) == 0;
    }
    SumZero(Recent(s), DueOf(s.db.keys, id));
  }

  lemma NothingQueued(s: State, id: Uuid)
    requires NoneWaits(s.db, s.outbound) && NoneWaits(s.db, s.channel)
    requires id in s.db.orders && !IsTerminal(s.db.orders[id].status)
    ensures Queued(s, id) == 0
  {
    NoneOfIt(s.db, s.outbound, id);
    NoneOfIt(s.db, s.channel, id);
  }

  lemma NoneOfIt(db: Db, cmds: seq<Command>, id: Uuid)
    requires NoneWaits(db, cmds) && id in db.orders && !IsTerminal(db.orders[id].status)
    ensures Sum(cmds, PlacedQty(id)) == 0
  {
    forall i | 0 <= i < |cmds|
      ensures PlacedQty(id)(cmds[i]) == 0
    {
      assert id !in PlacedId(cmds[i]);
    }
    SumZero(cmds, PlacedQty(id));
  }

  /** If nothing is due of any open order, every unsettled match is of closed orders. */
  lemma DueNone(symbol: string, s: State)
    requires Inv(symbol, s)
    requires forall id :: Ours(symbol, s.db, id) && !IsTerminal(s.db.orders[id].status) ==> Due(s, id) == 0
    ensures NoFillMissing(s)
  {
    hide Inv, Due, IsSettled;
    forall k | 0 <= k < |Recent(s)| && !IsSettled(s.db.keys, Recent(s)[k])
      ensures Closed(s.db, Recent(s)[k].trade.buyOrderId) && Closed(s.db, Recent(s)[k].trade.sellOrderId)
    {
      var t := Recent(s)[k].trade;
      RecentOk(symbol, s, s.since + k);
      DueCoversMatch(symbol, s, s.since + k, t.buyOrderId);
      DueCoversMatch(symbol, s, s.since + k, t.sellOrderId);
    }
  }

  /** If nothing is queued of any open order, every waiting placement is of a closed one. */
  lemma QueuedNone(symbol: string, s: State)
    requires Inv(symbol, s)
    requires forall id :: Ours(symbol, s.db, id) && !IsTerminal(s.db.orders[id].status) ==> Queued(s, id) == 0
    ensures NoneWaits(s.db, s.outbound) && NoneWaits(s.db, s.channel)
  {
    InvPending(symbol, s);
    hide Inv, Unseen, PendingOk;
    forall c, id | (c in s.outbound || c in s.channel) && id in PlacedId(c)
      ensures Closed(s.db, id)
    {
      WaitingIsQueued(symbol, s, c, id);
    }
  }

  lemma WaitingIsQueued(symbol: string, s: State, c: Command, id: Uuid)
    requires PendingOk(symbol, s) && RowsOk(symbol, s.db)
    requires (c in s.outbound || c in s.channel) && id in PlacedId(c)
    ensures Ours(symbol, s.db, id) && Queued(s, id) > 0
  {
    hide Unseen, Provisioned;
    assert CommandOk(symbol, s.db, s.shard, c);
    assert L.RoomOk(s.db.orders[id]);
    forall d | d in s.outbound || d in s.channel
      ensures PlacedQty(id)(d) >= 0
    {
      assert CommandOk(symbol, s.db, s.shard, d);
    }
    hide PendingOk, RowsOk, CommandOk;
    SumNonnegative(s.outbound, PlacedQty(id));
    SumNonnegative(s.channel, PlacedQty(id));
    assert PlacedQty(id)(c) > 0;
  }

  /** As long as direct trades leave its orders alone, the account of the symbol's open orders is
      made up exactly when nothing of them was refused, waits for the engine or is unsettled. */
  lemma MadeWithoutDirect(symbol: string, s: State)
    requires Inv(symbol, s) && NothingDirect(symbol, s)
    ensures AllMade(symbol, s) <==>
      NoneRefused(s) && NoneWaits(s.db, s.outbound) && NoneWaits(s.db, s.channel) && NoFillMissing(s)
  {
    hide Inv, Due, Queued, DirectOf, NoFillMissing, NoneWaits;
    InvLost(symbol, s);
    forall id | Ours(symbol, s.db, id)
      ensures DirectOf(s, id) == 0
      ensures Due(s, id) >= 0 && Queued(s, id) >= 0 && (Refused(s, id) > 0 <==> id in s.lost) && Refused(s, id) >= 0
    {
      OursAccount(symbol, s, id);
    }
    if AllMade(symbol, s) {
      forall id | Ours(symbol, s.db, id) && !IsTerminal(s.db.orders[id].status)
        ensures id !in s.lost && Due(s, id) == 0 && Queued(s, id) == 0
      {
        assert Made(s, id);
      }
      DueNone(symbol, s);
      QueuedNone(symbol, s);
    }
    if NoneRefused(s) && NoneWaits(s.db, s.outbound) && NoneWaits(s.db, s.channel) && NoFillMissing(s) {
      forall id | Ours(symbol, s.db, id) && !IsTerminal(s.db.orders[id].status)
        ensures Made(s, id)
      {
        NothingDue(s, id);
        NothingQueued(s, id);
      }
    }
  }

  // ---- Live and rebuilt ------------------------------------------------------------------

  lemma InvBook(symbol: string, s: State)
    requires Inv(symbol, s)
    ensures BookOk(symbol, s) && SoundBook(symbol, s.db, s.shard.book) && Distinct(s.db.created)
  {
  }

  lemma InvLost(symbol: string, s: State)
    requires Inv(symbol, s)
    ensures forall id :: id in s.lost ==> Ours(symbol, s.db, id)
    ensures forall id :: id in s.db.orders <==> id in s.db.created
  {
  }

  lemma NotOursNotResting(symbol: string, s: State, id: Uuid)
    requires Inv(symbol, s) && !Ours(symbol, s.db, id)
    ensures Resting(s.shard.book, id) == 0
  {
    InvBook(symbol, s);
    hide Inv, BookOk, Ordered, UniqueIds, Distinct;
    NotCounted(s.shard.book.bids, id);
    NotCounted(s.shard.book.asks, id);
  }

  /** What rests of every id in the rebuilt book. */
  lemma RebuiltRests(symbol: string, s: State, id: Uuid)
    requires Inv(symbol, s)
    ensures Resting(Rehydrated(symbol, s.db.orders, s.db.created), id)
         == if id in s.db.orders then LiveQty(symbol, s.db.orders[id]) else 0
  {
    InvBook(symbol, s);
    InvLost(symbol, s);
    hide Inv, Resting, Rehydrated, Distinct, LiveQty;
    RehydratedHolds(symbol, s.db, s.db.created);
  }

  lemma RebuiltSound(symbol: string, s: State)
    requires Inv(symbol, s)
    ensures var r := Rehydrated(symbol, s.db.orders, s.db.created);
            && SoundBook(symbol, s.db, r) && ByAge(s.db.created, r.bids) && ByAge(s.db.created, r.asks)
  {
    InvBook(symbol, s);
    hide Inv, Ordered, Rehydrated, Distinct, LiveQty, AllRest, ByAge;
    RehydratedHolds(symbol, s.db, s.db.created);
    RehydratedByAge(symbol, s.db, s.db.created);
    hide Copies;
  }

  lemma ClosedNotResting(symbol: string, s: State, id: Uuid)
    requires Inv(symbol, s)
    requires !ClosedRests(s, s.shard.book.bids) && !ClosedRests(s, s.shard.book.asks) && IsClosed(s.db, id)
    ensures Resting(s.shard.book, id) == 0
  {
    hide Inv;
    NotCounted(s.shard.book.bids, id);
    NotCounted(s.shard.book.asks, id);
  }

  /** In a recoverable state the tables and the book agree on every id. */
  lemma SameRests(symbol: string, s: State, id: Uuid)
    requires Inv(symbol, s) && Recoverable(symbol, s)
    ensures Resting(Rehydrated(symbol, s.db.orders, s.db.created), id) == Resting(s.shard.book, id)
  {
    hide Inv, Resting, Rehydrated, TiesByAge, ClosedRests, Made, LiveQty;
    RebuiltRests(symbol, s, id);
    if Ours(symbol, s.db, id) {
      LiveAgainstResting(symbol, s, id);
      if IsClosed(s.db, id) {
        ClosedNotResting(symbol, s, id);
      }
    } else {
      NotOursNotResting(symbol, s, id);
      ForeignNotLive(symbol, s.db, id);
    }
  }

  lemma ForeignNotLive(symbol: string, db: Db, id: Uuid)
    requires !Ours(symbol, db, id)
    ensures id in db.orders ==> LiveQty(symbol, db.orders[id]) == 0
  {
  }

  lemma SameQueue(symbol: string, s: State, side: Side)
    requires Inv(symbol, s) && Recoverable(symbol, s)
    ensures Queue(Rehydrated(symbol, s.db.orders, s.db.created), side) == QueueAsLoaded(Queue(s.shard.book, side))
  {
    hide Inv, Rehydrated, Resting, Strict, Position, TiesByAge, Sorted, LoadedQueue, RowOrder, Among, AllMade,
         ClosedRests;
    var live, rebuilt := s.shard.book, Rehydrated(symbol, s.db.orders, s.db.created);
    RebuiltSound(symbol, s);
    InvBook(symbol, s);
    var a, b := Queue(rebuilt, side), QueueAsLoaded(Queue(live, side));
    LoadedIsItself(a);
    SortedIsStrict(side, s.db.created, a);
    SortedIsStrict(side, s.db.created, Queue(live, side));
    forall o
      ensures o in a <==> o in b
    {
      MembersAreRows(symbol, s.db, rebuilt, side, o);
      MembersAreRows(symbol, s.db, live, side, o);
      SameRests(symbol, s, o.id);
      hide SoundBook;
    }
    StrictUnique(side, s.db.created, a, b);
  }

  lemma LoadedIsItself(q: seq<Order>)
    requires LoadedQueue(q)
    ensures QueueAsLoaded(q) == q
  {
  }

  lemma {:induction false} LoadedRests(q: seq<Order>, id: Uuid)
    ensures Sum(QueueAsLoaded(q), QtyOf(id)) == Sum(q, QtyOf(id))
  {
    if q != [] {
      var k := |q| - 1;
      LoadedRests(q[..k], id);
      assert QueueAsLoaded(q)[..k] == QueueAsLoaded(q[..k]);
    }
  }

  lemma RebuiltImpliesRecoverable(symbol: string, s: State)
    requires Inv(symbol, s)
    requires Rehydrated(symbol, s.db.orders, s.db.created) == BookAsLoaded(s.shard.book)
    ensures Recoverable(symbol, s)
  {
    hide Inv, Rehydrated, Resting, Position, LoadedQueue, Among, Made, LiveQty;
    var live, rebuilt := s.shard.book, Rehydrated(symbol, s.db.orders, s.db.created);
    RebuiltSound(symbol, s);
    InvBook(symbol, s);
    InvLost(symbol, s);
    forall id
      ensures Resting(live, id) == if id in s.db.orders then LiveQty(symbol, s.db.orders[id]) else 0
    {
      RebuiltRests(symbol, s, id);
      SameRestsLoaded(live, id);
    }
    NoClosedRests(symbol, s, Buy);
    NoClosedRests(symbol, s, Sell);
    forall id | Ours(symbol, s.db, id) && !IsTerminal(s.db.orders[id].status)
      ensures Made(s, id)
    {
      LiveAgainstResting(symbol, s, id);
    }
    hide SoundBook, ClosedRests;
    SameTies(s.db.created, live.bids);
    SameTies(s.db.created, live.asks);
  }

  lemma SameRestsLoaded(b: Book, id: Uuid)
    ensures Resting(BookAsLoaded(b), id) == Resting(b, id)
  {
    LoadedRests(b.bids, id);
    LoadedRests(b.asks, id);
  }

  lemma SameTies(created: seq<Uuid>, q: seq<Order>)
    requires TiesByAge(created, QueueAsLoaded(q))
    ensures TiesByAge(created, q)
  {
    hide Position;
    assert forall i :: 0 <= i < |q| ==> QueueAsLoaded(q)[i] == AsLoaded(q[i]);
  }

  lemma NoClosedRests(symbol: string, s: State, side: Side)
    requires SoundBook(symbol, s.db, s.shard.book)
    requires forall id :: Resting(s.shard.book, id) == if id in s.db.orders then LiveQty(symbol, s.db.orders[id]) else 0
    ensures !ClosedRests(s, Queue(s.shard.book, side))
  {
    hide Resting, AllRest;
    var q := Queue(s.shard.book, side);
    forall i | 0 <= i < |q|
      ensures !IsClosed(s.db, q[i].id)
    {
      MemberRests(s.shard.book, side, i);
      assert Resting(s.shard.book, q[i].id) > 0;
    }
  }

  /** The round trip.  After any run, at any moment, a restart rebuilds the live book (same
      orders in the same places, with the same remaining quantity) if and only if no closed order
      rests, what every open order has unsettled, on its way or refused is what direct trades have
      filled of it, and equal prices rest in created_at order. */
  lemma RehydrationRoundTrip(symbol: string, s: State, actions: seq<Action>)
    requires Initial(symbol, s) && AllAllowed(symbol, s, actions)
    ensures var t := Exec(symbol, s, actions);
            Act(symbol, t, Restart).shard.book == BookAsLoaded(t.shard.book) <==> Recoverable(symbol, t)
  {
    hide Initial, AllAllowed, Inv, Exec, Recoverable, Rehydrated, QueueAsLoaded;
    var t := Exec(symbol, s, actions);
    RunKeepsInv(symbol, s, actions);
    if Recoverable(symbol, t) {
      SameQueue(symbol, t, Buy);
      SameQueue(symbol, t, Sell);
    }
    if Act(symbol, t, Restart).shard.book == BookAsLoaded(t.shard.book) {
      RebuiltImpliesRecoverable(symbol, t);
    }
  }

  // ---- Why a cancelled order can rest ----------------------------------------------------

  /** A placement and its cancel commit in this order, but the cancel reaches the channel first.
      The worker finds nothing to cancel, then rests the order: it stays in the book, CANCELLED
      in the tables, and every later match against it is refused. */
  lemma CancelOvertakesPlacement(symbol: string, s: State, markets: set<string>, cmd: T.PlaceOrderCommand, id: Uuid)
    requires s.outbound == [] && s.channel == [] && s.shard.book == Book([], [])
    requires cmd.symbol == symbol && Units(cmd.quantity) > 0
    requires T.PlaceOrder(s.db, markets, cmd, id).result.Ok?
    ensures var t := Exec(symbol, s, [Place(markets, cmd, id), CancelRow(id), Submit(1, true), Work, Submit(0, true),
            Work]);
            && IsCancelled(t.db, id) && t.outbound == [] && t.channel == []
            && Resting(t.shard.book, id) == Units(cmd.quantity)
  {
    hide T.PlaceOrder, Units, SplitSymbol, Resting, Sweep, Join;
    L.PlaceEffect(s.db, markets, cmd, id);
    var row := T.NewRow(cmd, cmd.side.value);
    var o := EngineOrder(id, row);
    var place, cancel := PlaceCommand(Some(o)), CancelCommand(Some(CancelInfo(id, symbol)));
    var s1 := Act(symbol, s, Place(markets, cmd, id));
    PlaceCancellable(s.db, markets, cmd, id);
    var s2 := Act(symbol, s1, CancelRow(id));
    assert s2.outbound == [place, cancel] && s2.shard == s.shard;
    var s4 := Act(symbol, Act(symbol, s2, Submit(1, true)), Work);
    assert s4.outbound == [place] && s4.channel == [] && s4.shard == s.shard;
    var s6 := Act(symbol, Act(symbol, s4, Submit(0, true)), Work);
    assert s6.shard == HandlePlace(symbol, s.shard, o);
    RestsAlone(symbol, s.shard, o);
    hide Act;
    ExecSix(symbol, s, Place(markets, cmd, id), CancelRow(id), Submit(1, true), Work, Submit(0, true), Work);
  }

  lemma RestsAlone(symbol: string, sh: Shard, o: Order)
    requires sh.book == Book([], []) && o.remaining > 0
    ensures Resting(HandlePlace(symbol, sh, o).book, o.id) == o.remaining
  {
    assert Sweep(o.side, o.price, o.remaining, []) == Sweeping([], o.remaining, []);
    JoinSum(o.side, [], o, QtyOf(o.id));
  }

  lemma PlaceCancellable(db: Db, markets: set<string>, cmd: T.PlaceOrderCommand, id: Uuid)
    requires T.PlaceOrder(db, markets, cmd, id).result.Ok?
    ensures T.CancelOrder(T.PlaceOrder(db, markets, cmd, id).db, id).result.Ok?
    ensures IsCancelled(T.CancelOrder(T.PlaceOrder(db, markets, cmd, id).db, id).db, id)
  {
    hide T.ReserveAmount, T.Unreserved, Units, Balance, Neg, Dec, SplitSymbol;
  }

  lemma ExecSix(symbol: string, s: State, a: Action, b: Action, c: Action, d: Action, e: Action, f: Action)
    ensures Exec(symbol, s, [a, b, c, d, e, f])
         == Act(symbol, Act(symbol, Act(symbol, Act(symbol, Act(symbol, Act(symbol, s, a), b), c), d), e), f)
  {
    hide Act, Exec;
    ExecNone(symbol, s);
    ExecLast(symbol, s, [], a);
    ExecLast(symbol, s, [a], b);
    ExecLast(symbol, s, [a, b], c);
    ExecLast(symbol, s, [a, b, c], d);
    ExecLast(symbol, s, [a, b, c, d], e);
    ExecLast(symbol, s, [a, b, c, d, e], f);
    assert [] + [a] == [a];
    assert [a] + [b] == [a, b];
    assert [a, b] + [c] == [a, b, c];
    assert [a, b, c] + [d] == [a, b, c, d];
    assert [a, b, c, d] + [e] == [a, b, c, d, e];
    assert [a, b, c, d, e] + [f] == [a, b, c, d, e, f];
  }

  lemma ExecNone(symbol: string, s: State)
    ensures Exec(symbol, s, []) == s
  {
  }

  lemma ExecLast(symbol: string, s: State, actions: seq<Action>, a: Action)
    ensures Exec(symbol, s, actions + [a]) == Act(symbol, Exec(symbol, s, actions), a)
  {
    hide Act;
    assert (actions + [a])[..|actions|] == actions;
  }
}
