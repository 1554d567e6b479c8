/** What one match and one cancel do to the book as a whole, for every book and order. */
module BookFacts {
  import opened Domain
  import opened PriceTime

  // ---- Measures of the book --------------------------------------------------------------

  /** Weighs an order with this id by its remaining quantity. */
  ghost function QtyOf(id: Uuid): Order -> int {
    (o: Order) => if o.id == id then o.remaining else 0
  }

  /** Weighs an order with this id by one. */
  ghost function OneOf(id: Uuid): Order -> int {
    (o: Order) => if o.id == id then 1 else 0
  }

  ghost function Live(b: Book, f: Order -> int): int {
    Sum(b.bids, f) + Sum(b.asks, f)
  }

  /** The quantity of this id that rests in the book. */
  ghost function Resting(b: Book, id: Uuid): int {
    Live(b, QtyOf(id))
  }

  /** How many resting orders carry this id. */
  ghost function Copies(b: Book, id: Uuid): int {
    Live(b, OneOf(id))
  }

  lemma {:induction false} SumNonnegative<T>(s: seq<T>, f: T -> int)
    requires forall i :: 0 <= i < |s| ==> f(s[i]) >= 0
    ensures Sum(s, f) >= 0
    ensures forall i :: 0 <= i < |s| ==> f(s[i]) <= Sum(s, f)
  {
    if s != [] {
      SumNonnegative(s[..|s| - 1], f);
    }
  }

  lemma JoinSum(side: Side, s: seq<Order>, o: Order, f: Order -> int)
    ensures Sum(Join(side, s, o), f) == Sum(s, f) + f(o)
  {
    var k := Slot(side, s, o.price);
    SumAppend(s[..k] + [o], s[k..], f);
    SumAppend(s[..k], [o], f);
    SumOne(o, f);
    SumAppend(s[..k], s[k..], f);
    assert s == s[..k] + s[k..];
  }

  lemma WithoutSum(s: seq<Order>, k: int, f: Order -> int)
    requires 0 <= k < |s|
    ensures Sum(Without(s, k), f) == Sum(s, f) - f(s[k])
  {
    SumAround(s, k, f);
    SumAppend(s[..k], s[k + 1..], f);
  }

  lemma CopiesNonnegative(b: Book, id: Uuid)
    ensures Sum(b.bids, OneOf(id)) >= 0 && Sum(b.asks, OneOf(id)) >= 0 && Copies(b, id) >= 0
  {
    SumNonnegative(b.bids, OneOf(id));
    SumNonnegative(b.asks, OneOf(id));
  }

  /** An order in a queue is counted; two positions with one id are counted twice. */
  lemma CountedAt(s: seq<Order>, i: int)
    requires 0 <= i < |s|
    ensures Sum(s, OneOf(s[i].id)) >= 1
  {
    SumNonnegative(s, OneOf(s[i].id));
  }

  lemma {:induction false} CountedTwice(s: seq<Order>, i: int, j: int)
    requires 0 <= i < j < |s| && s[i].id == s[j].id
    ensures Sum(s, OneOf(s[i].id)) >= 2
  {
    var f := OneOf(s[i].id);
    SumAppend(s[..j], s[j..], f);
    assert s == s[..j] + s[j..];
    CountedAt(s[..j], i);
    CountedAt(s[j..], 0);
  }

  /** A counted id is found. */
  lemma {:induction false} Counted(s: seq<Order>, id: Uuid)
    ensures Sum(s, OneOf(id)) >= 1 ==> Find(s, id) < |s|
    ensures Find(s, id) < |s| ==> Sum(s, OneOf(id)) >= 1
  {
    var k := Find(s, id);
    if k < |s| {
      CountedAt(s, k);
    } else {
      NotCounted(s, id);
    }
  }

  lemma {:induction false} NotCounted(s: seq<Order>, id: Uuid)
    requires forall i :: 0 <= i < |s| ==> s[i].id != id
    ensures Sum(s, OneOf(id)) == 0 && Sum(s, QtyOf(id)) == 0
  {
    if s != [] {
      NotCounted(s[..|s| - 1], id);
    }
  }

  // ---- A sweep ---------------------------------------------------------------------------

  ghost function FilledOf(id: Uuid): Fill -> int {
    (f: Fill) => if f.resting.id == id then f.quantity else 0
  }

  /** A sweep takes what it does not leave wanting. */
  lemma {:induction false} SweepTakes(side: Side, limit: int, want: int, s: seq<Order>)
    ensures var r := Sweep(side, limit, want, s); r.left + Filled(r.fills) == want
    decreases |s|
  {
    hide Crosses;
    if want > 0 && s != [] && Crosses(side, limit, s[0].price) {
      var r := Sweep(side, limit, want, s);
      SumCons(r.fills, QuantityOf);
      if want >= s[0].remaining {
        SweepTakes(side, limit, want - s[0].remaining, s[1..]);
        assert r.fills[1..] == Sweep(side, limit, want - s[0].remaining, s[1..]).fills;
      }
    }
  }

  /** What a sweep takes from an order is exactly what that order loses. */
  lemma {:induction false} SweepConserves(side: Side, limit: int, want: int, s: seq<Order>, id: Uuid)
    ensures var r := Sweep(side, limit, want, s);
            && Sum(r.queue, QtyOf(id)) + Sum(r.fills, FilledOf(id)) == Sum(s, QtyOf(id))
            && Sum(r.queue, OneOf(id)) <= Sum(s, OneOf(id))
            && r.left + Filled(r.fills) == want
    decreases |s|
  {
    hide Crosses;
    SweepTakes(side, limit, want, s);
    hide Filled;
    if want > 0 && s != [] && Crosses(side, limit, s[0].price) {
      var r := Sweep(side, limit, want, s);
      var q := Min(want, s[0].remaining);
      SumCons(s, QtyOf(id));
      SumCons(s, OneOf(id));
      SumCons(r.fills, FilledOf(id));
      if q == s[0].remaining {
        SweepConserves(side, limit, want - q, s[1..], id);
        assert r.fills[1..] == Sweep(side, limit, want - q, s[1..]).fills;
      } else {
        SumCons(r.queue, QtyOf(id));
        SumCons(r.queue, OneOf(id));
        assert r.queue[1..] == s[1..] && r.fills[1..] == [];
      }
    }
  }

  /** What is left of a queue is its tail, with at most the first order smaller than before. */
  lemma SweepKeepsTail(side: Side, limit: int, want: int, s: seq<Order>)
    requires Positive(s) && want >= 0
    ensures var r := Sweep(side, limit, want, s);
            var d := |s| - |r.queue|;
            && 0 <= d <= |r.fills| <= d + 1
            && |r.fills| <= |s|
            && r.left >= 0
            && Positive(r.queue)
            && (forall j :: 0 <= j < |r.queue| ==> r.queue[j] == s[d + j].(remaining := r.queue[j].remaining))
            && (forall i :: 0 <= i < |r.fills| ==> r.fills[i].resting == s[i] && r.fills[i].quantity > 0)
            && (|r.fills| == d + 1 ==> r.left == 0)
            && (r.left > 0 && r.queue != [] ==> !Crosses(side, limit, r.queue[0].price))
  {
    hide Sweep, IsGreedy, Positive, Crosses;
    SweepIsGreedy(side, limit, want, s);
    SweepStops(side, limit, want, s);
    GreedyTail(side, limit, want, s, Sweep(side, limit, want, s));
  }

  /** What the price-time contract says about the tail. */
  lemma GreedyTail(side: Side, limit: int, want: int, s: seq<Order>, r: Sweeping)
    requires Positive(s) && IsGreedy(side, limit, want, s, r)
    ensures var d := |s| - |r.queue|;
            && 0 <= d <= |r.fills| <= d + 1
            && r.left >= 0
            && Positive(r.queue)
            && (forall j :: 0 <= j < |r.queue| ==> r.queue[j] == s[d + j].(remaining := r.queue[j].remaining))
            && (forall i :: 0 <= i < |r.fills| ==> r.fills[i].resting == s[i] && r.fills[i].quantity > 0)
            && (|r.fills| == d + 1 ==> r.fills[d].quantity < s[d].remaining)
  {
    hide Positive, CrossingPrefix, Liquidity, Filled;
    TailShape(s, r.fills, r.queue);
  }

  /** The queue that n fills leave, when all but the last are whole. */
  lemma TailShape(s: seq<Order>, fills: seq<Fill>, queue: seq<Order>)
    requires Positive(s) && |fills| <= |s|
    requires forall i :: 0 <= i < |fills| ==> 0 < fills[i].quantity <= s[i].remaining
    requires var n := |fills|;
             queue == (if n == 0 || fills[n - 1].quantity == s[n - 1].remaining
                       then s[n..] else [Reduced(s[n - 1], fills[n - 1].quantity)] + s[n..])
    ensures var d := |s| - |queue|;
            && 0 <= d <= |fills| <= d + 1
            && Positive(queue)
            && (forall j :: 0 <= j < |queue| ==> queue[j] == s[d + j].(remaining := queue[j].remaining))
            && (|fills| == d + 1 ==> fills[d].quantity < s[d].remaining)
  {
  }

  lemma {:induction false} SweepStops(side: Side, limit: int, want: int, s: seq<Order>)
    requires Positive(s) && want >= 0
    ensures var r := Sweep(side, limit, want, s);
            && |r.fills| <= |s|
            && (r.left > 0 && r.queue != [] ==> !Crosses(side, limit, r.queue[0].price))
            && (r.fills != [] && r.fills[|r.fills| - 1].quantity < s[|r.fills| - 1].remaining ==> r.left == 0)
    decreases |s|
  {
    if want > 0 && s != [] && Crosses(side, limit, s[0].price) && want >= s[0].remaining {
      SweepStops(side, limit, want - s[0].remaining, s[1..]);
    }
  }

  // ---- A match ---------------------------------------------------------------------------

  ghost predicate QueueOk(side: Side, s: seq<Order>) {
    Sorted(side, s) && Positive(s) && forall i :: 0 <= i < |s| ==> s[i].side == side
  }

  /** Both queues are in price order and hold live orders of their own side. */
  ghost predicate Ordered(b: Book) {
    QueueOk(Buy, b.bids) && QueueOk(Sell, b.asks)
  }

  /** Every bid is below every ask. */
  ghost predicate Uncrossed(b: Book) {
    forall i, j :: 0 <= i < |b.bids| && 0 <= j < |b.asks| ==> b.bids[i].price < b.asks[j].price
  }

  ghost predicate UniqueIds(b: Book) {
    forall id :: Copies(b, id) <= 1
  }

  lemma JoinOk(side: Side, s: seq<Order>, o: Order)
    requires QueueOk(side, s) && o.side == side && o.remaining > 0
    ensures QueueOk(side, Join(side, s, o))
  {
    JoinSorted(side, s, o);
  }

  lemma SweepOk(side: Side, limit: int, want: int, s: seq<Order>)
    requires QueueOk(Opposite(side), s) && want >= 0
    ensures QueueOk(Opposite(side), Sweep(side, limit, want, s).queue)
  {
    hide Sweep;
    SweepKeepsTail(side, limit, want, s);
    var r := Sweep(side, limit, want, s);
    var d := |s| - |r.queue|;
    forall i, j | 0 <= i < j < |r.queue|
      ensures !Better(Opposite(side), r.queue[j].price, r.queue[i].price)
    {
      assert !Better(Opposite(side), s[d + j].price, s[d + i].price);
    }
  }

  lemma MatchOrdered(symbol: string, b: Book, o: Order)
    requires Ordered(b) && o.remaining >= 0
    ensures Ordered(Match(symbol, b, o).book)
    ensures 0 <= Match(symbol, b, o).order.remaining <= o.remaining
  {
    var s := Queue(b, Opposite(o.side));
    SweepOk(o.side, o.price, o.remaining, s);
    SweepIsGreedy(o.side, o.price, o.remaining, s);
    LiquidityNonnegative(s[..CrossingPrefix(o.side, o.price, s)]);
    var r := Sweep(o.side, o.price, o.remaining, s);
    if r.left > 0 {
      JoinOk(o.side, Queue(b, o.side), o.(remaining := r.left));
    }
  }

  /** No order of `own` could trade against an order of `opposite`. */
  ghost predicate NoCross(side: Side, own: seq<Order>, opposite: seq<Order>) {
    forall i, j :: 0 <= i < |own| && 0 <= j < |opposite| ==> !Crosses(side, own[i].price, opposite[j].price)
  }

  lemma UncrossedEitherWay(b: Book, side: Side)
    ensures Uncrossed(b) <==> NoCross(side, Queue(b, side), Queue(b, Opposite(side)))
  {
  }

  lemma SweepNoCross(side: Side, limit: int, want: int, own: seq<Order>, s: seq<Order>)
    requires Sorted(Opposite(side), s) && Positive(s) && want >= 0 && NoCross(side, own, s)
    ensures var r := Sweep(side, limit, want, s);
            && NoCross(side, own, r.queue)
            && (r.left > 0 ==> forall j :: 0 <= j < |r.queue| ==> !Crosses(side, limit, r.queue[j].price))
  {
    hide Sweep;
    var r := Sweep(side, limit, want, s);
    var d := |s| - |r.queue|;
    SweepKeepsTail(side, limit, want, s);
    forall j | 0 <= j < |r.queue|
      ensures r.queue[j].price == s[d + j].price
      ensures r.left > 0 ==> !Crosses(side, limit, r.queue[j].price)
    {
      assert r.queue[0].price == s[d].price;
      assert j > 0 ==> !Better(Opposite(side), s[d + j].price, s[d].price);
    }
  }

  lemma JoinNoCross(side: Side, own: seq<Order>, o: Order, s: seq<Order>)
    requires NoCross(side, own, s)
    requires forall j :: 0 <= j < |s| ==> !Crosses(side, o.price, s[j].price)
    ensures NoCross(side, Join(side, own, o), s)
  {
    var k := Slot(side, own, o.price);
    var t := Join(side, own, o);
    forall i, j | 0 <= i < |t| && 0 <= j < |s|
      ensures !Crosses(side, t[i].price, s[j].price)
    {
      assert t[i] == if i < k then own[i] else if i == k then o else own[i - 1];
    }
  }

  /** An uncrossed book stays uncrossed: whatever still rests opposite does not cross the
      order that joins. */
  lemma MatchUncrossed(symbol: string, b: Book, o: Order)
    requires Ordered(b) && Uncrossed(b) && o.remaining >= 0
    ensures Uncrossed(Match(symbol, b, o).book)
  {
    var own, s := Queue(b, o.side), Queue(b, Opposite(o.side));
    UncrossedEitherWay(b, o.side);
    SweepNoCross(o.side, o.price, o.remaining, own, s);
    var r := Sweep(o.side, o.price, o.remaining, s);
    if r.left > 0 {
      JoinNoCross(o.side, own, o.(remaining := r.left), r.queue);
    }
    UncrossedEitherWay(Match(symbol, b, o).book, o.side);
  }

  ghost function TradedOf(id: Uuid): Trade -> int {
    (t: Trade) => (if t.buyOrderId == id then t.quantity else 0) + (if t.sellOrderId == id then t.quantity else 0)
  }

  lemma {:induction false} TradedFromFills(symbol: string, o: Order, fills: seq<Fill>, id: Uuid)
    ensures Sum(TradesOf(symbol, o, fills), TradedOf(id))
         == Sum(fills, FilledOf(id)) + (if o.id == id then Filled(fills) else 0)
  {
    if fills != [] {
      var k := |fills| - 1;
      TradedFromFills(symbol, o, fills[..k], id);
      assert TradesOf(symbol, o, fills)[..k] == TradesOf(symbol, o, fills[..k]);
    }
  }

  /** Quantity is conserved for every id: what the match trades is what the book loses. */
  lemma MatchConserves(symbol: string, b: Book, o: Order, id: Uuid)
    requires o.remaining >= 0 && Ordered(b)
    ensures var m := Match(symbol, b, o);
            && Resting(m.book, id) + Sum(m.trades, TradedOf(id))
               == Resting(b, id) + (if o.id == id then o.remaining else 0)
            && Copies(m.book, id) <= Copies(b, id) + (if o.id == id then 1 else 0)
  {
    var s := Queue(b, Opposite(o.side));
    var r := Sweep(o.side, o.price, o.remaining, s);
    SweepConserves(o.side, o.price, o.remaining, s, id);
    SweepKeepsTail(o.side, o.price, o.remaining, s);
    TradedFromFills(symbol, o, r.fills, id);
    if r.left > 0 {
      JoinSum(o.side, Queue(b, o.side), o.(remaining := r.left), QtyOf(id));
      JoinSum(o.side, Queue(b, o.side), o.(remaining := r.left), OneOf(id));
    }
  }

  function IdOn(t: Trade, side: Side): Uuid {
    if side == Buy then t.buyOrderId else t.sellOrderId
  }

  /** The i-th trade of a match: it involves the incoming order and the i-th resting order, at
      the resting price, and uses up one of the two. */
  lemma MatchTrade(symbol: string, b: Book, o: Order, i: int)
    requires Ordered(b) && o.remaining >= 0 && 0 <= i < |Match(symbol, b, o).trades|
    ensures var m := Match(symbol, b, o);
            var t := m.trades[i];
            var s := Queue(b, Opposite(o.side));
            && i < |s|
            && t.symbol == symbol && t.quantity > 0
            && IdOn(t, o.side) == o.id && IdOn(t, Opposite(o.side)) == s[i].id
            && (if o.side == Buy then t.buyUserId == o.userId && t.sellUserId == s[i].userId
                else t.sellUserId == o.userId && t.buyUserId == s[i].userId)
            && t.price == s[i].price && Crosses(o.side, o.price, t.price)
            && (m.order.remaining == 0 || i < |s| - |Queue(m.book, Opposite(o.side))|)
  {
    var s := Queue(b, Opposite(o.side));
    SweepIsGreedy(o.side, o.price, o.remaining, s);
    SweepKeepsTail(o.side, o.price, o.remaining, s);
  }

  /** With unique ids, each trade of a match leaves one of its two orders out of the book. */
  lemma MatchUsesUp(symbol: string, b: Book, o: Order, i: int)
    requires Ordered(b) && UniqueIds(b) && Copies(b, o.id) == 0
    requires o.remaining >= 0 && 0 <= i < |Match(symbol, b, o).trades|
    ensures var m := Match(symbol, b, o);
            Copies(m.book, m.trades[i].buyOrderId) == 0 || Copies(m.book, m.trades[i].sellOrderId) == 0
  {
    MatchTrade(symbol, b, o, i);
    var m := Match(symbol, b, o);
    if m.order.remaining == 0 {
      UsedUpIncoming(symbol, b, o);
    } else {
      UsedUpResting(symbol, b, o, i);
    }
  }

  lemma UsedUpIncoming(symbol: string, b: Book, o: Order)
    requires Ordered(b) && Copies(b, o.id) == 0 && o.remaining >= 0
    requires Match(symbol, b, o).order.remaining == 0
    ensures Copies(Match(symbol, b, o).book, o.id) == 0
  {
    SweepConserves(o.side, o.price, o.remaining, Queue(b, Opposite(o.side)), o.id);
    CopiesNonnegative(Match(symbol, b, o).book, o.id);
  }

  lemma UsedUpResting(symbol: string, b: Book, o: Order, i: int)
    requires Ordered(b) && UniqueIds(b) && Copies(b, o.id) == 0 && o.remaining >= 0
    requires var s, m := Queue(b, Opposite(o.side)), Match(symbol, b, o);
             0 <= i < |s| - |Queue(m.book, Opposite(o.side))|
    ensures Copies(Match(symbol, b, o).book, Queue(b, Opposite(o.side))[i].id) == 0
  {
    var own, s := Queue(b, o.side), Queue(b, Opposite(o.side));
    var r := Sweep(o.side, o.price, o.remaining, s);
    var id := s[i].id;
    assert Copies(b, id) <= 1;
    CopiesNonnegative(b, id);
    CountedAt(s, i);
    assert Sum(own, OneOf(id)) == 0;
    TailWithout(o.side, o.price, o.remaining, s, i);
    if r.left > 0 {
      JoinSum(o.side, own, o.(remaining := r.left), OneOf(id));
    }
  }

  lemma TailWithout(side: Side, limit: int, want: int, s: seq<Order>, i: int)
    requires Positive(s) && want >= 0
    requires 0 <= i < |s| - |Sweep(side, limit, want, s).queue|
    requires Sum(s, OneOf(s[i].id)) <= 1
    ensures Sum(Sweep(side, limit, want, s).queue, OneOf(s[i].id)) == 0
  {
    hide Sweep, Positive, Crosses;
    var r := Sweep(side, limit, want, s);
    var d := |s| - |r.queue|;
    SweepKeepsTail(side, limit, want, s);
    forall j | 0 <= j < |r.queue|
      ensures r.queue[j].id != s[i].id
    {
      assert r.queue[j].id == s[d + j].id;
      if s[d + j].id == s[i].id {
        CountedTwice(s, i, d + j);
      }
    }
    NotCounted(r.queue, s[i].id);
  }

  // ---- A cancel --------------------------------------------------------------------------

  lemma WithoutOk(side: Side, s: seq<Order>, k: int)
    requires QueueOk(side, s) && 0 <= k < |s|
    ensures QueueOk(side, Without(s, k))
  {
    var t := Without(s, k);
    forall i, j | 0 <= i < j < |t|
      ensures !Better(side, t[j].price, t[i].price)
    {
      var i', j' := if i < k then i else i + 1, if j < k then j else j + 1;
      assert t[i] == s[i'] && t[j] == s[j'];
    }
  }

  lemma CancelOrdered(b: Book, id: Uuid)
    requires Ordered(b)
    ensures Ordered(Cancel(b, id).book)
    ensures Uncrossed(b) ==> Uncrossed(Cancel(b, id).book)
    ensures Cancel(b, id).result.Some? ==> Cancel(b, id).result.value.remaining > 0
  {
    var i, j := Find(b.bids, id), Find(b.asks, id);
    if i < |b.bids| {
      WithoutOk(Buy, b.bids, i);
    } else if j < |b.asks| {
      WithoutOk(Sell, b.asks, j);
    }
  }

  /** This is the first order of the queue with the id. */
  ghost predicate IsFirst(s: seq<Order>, id: Uuid, i: int) {
    0 <= i < |s| && s[i].id == id && forall j :: 0 <= j < i ==> s[j].id != id
  }

  /** A cancel takes the first bid with the id, or the first ask if there is no such bid, and
      reports its side, price and remaining quantity. */
  lemma CancelTakesFirst(b: Book, id: Uuid, i: int)
    ensures IsFirst(b.bids, id, i) ==>
      Cancel(b, id) == Cancelling(Book(b.bids[..i] + b.bids[i + 1..], b.asks),
                                  Some(CancelResult(Buy, b.bids[i].price, b.bids[i].remaining)))
    ensures (forall j :: 0 <= j < |b.bids| ==> b.bids[j].id != id) && IsFirst(b.asks, id, i) ==>
      Cancel(b, id) == Cancelling(Book(b.bids, b.asks[..i] + b.asks[i + 1..]),
                                  Some(CancelResult(Sell, b.asks[i].price, b.asks[i].remaining)))
  {
  }

  /** A cancel removes the reported quantity of its own id and touches no other order. */
  lemma CancelConserves(b: Book, id: Uuid, x: Uuid)
    ensures var c := Cancel(b, id);
            && Resting(c.book, x) + (if c.result.Some? && x == id then c.result.value.remaining else 0) == Resting(b, x)
            && Copies(c.book, x) + (if c.result.Some? && x == id then 1 else 0) == Copies(b, x)
            && (c.result.None? ==> Copies(b, id) == 0 && c.book == b)
  {
    var i, j := Find(b.bids, id), Find(b.asks, id);
    Counted(b.bids, id);
    Counted(b.asks, id);
    CopiesNonnegative(b, id);
    if i < |b.bids| {
      WithoutSum(b.bids, i, QtyOf(x));
      WithoutSum(b.bids, i, OneOf(x));
    } else if j < |b.asks| {
      WithoutSum(b.asks, j, QtyOf(x));
      WithoutSum(b.asks, j, OneOf(x));
    }
  }

  /** Placing an order that does not trade and cancelling it restores the identical book. */
  lemma RestThenCancel(symbol: string, b: Book, o: Order)
    requires Copies(b, o.id) == 0 && o.remaining > 0
    requires Match(symbol, b, o).trades == []
    ensures Cancel(Match(symbol, b, o).book, o.id) == Cancelling(b, Some(CancelResult(o.side, o.price, o.remaining)))
  {
    NoTradeNoChange(o.side, o.price, o.remaining, Queue(b, Opposite(o.side)));
    Counted(b.bids, o.id);
    Counted(b.asks, o.id);
    CopiesNonnegative(b, o.id);
    JoinThenWithout(o.side, Queue(b, o.side), o);
  }

  lemma JoinThenWithout(side: Side, s: seq<Order>, o: Order)
    requires Find(s, o.id) == |s|
    ensures var t, k := Join(side, s, o), Slot(side, s, o.price);
            Find(t, o.id) == k && t[k] == o && Without(t, k) == s
  {
    Reinserted(s, Slot(side, s, o.price), o);
  }

  lemma Reinserted(s: seq<Order>, k: nat, o: Order)
    requires k <= |s| && Find(s, o.id) == |s|
    ensures var t := s[..k] + [o] + s[k..];
            Find(t, o.id) == k && t[k] == o && Without(t, k) == s
  {
    hide Find;
    var t := s[..k] + [o] + s[k..];
    Spliced(s, k, o);
    NotFound(s, o.id);
    FoundAt(t, k, o.id);
  }

  lemma Spliced(s: seq<Order>, k: nat, o: Order)
    requires k <= |s|
    ensures var t := s[..k] + [o] + s[k..];
            && t[k] == o && Without(t, k) == s
            && forall i :: 0 <= i < k ==> t[i] == s[i]
  {
    var t := s[..k] + [o] + s[k..];
    assert t[..k] == s[..k] && t[k + 1..] == s[k..] && s[..k] + s[k..] == s;
  }

  lemma NotFound(s: seq<Order>, id: Uuid)
    requires Find(s, id) == |s|
    ensures forall i :: 0 <= i < |s| ==> s[i].id != id
  {
  }

  lemma FoundAt(t: seq<Order>, k: nat, id: Uuid)
    requires k < |t| && t[k].id == id && forall i :: 0 <= i < k ==> t[i].id != id
    ensures Find(t, id) == k
  {
  }

  lemma NoTradeNoChange(side: Side, limit: int, want: int, s: seq<Order>)
    requires Sweep(side, limit, want, s).fills == []
    ensures Sweep(side, limit, want, s) == Sweeping([], want, s)
  {
  }
}
