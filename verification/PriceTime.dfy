/**
 Price-time priority, stated without price levels.

 One side of a book is a single queue of resting orders, best price first and oldest first
 within a price.  An incoming order sweeps the opposite queue from its head, and what is left
 of it joins its own queue behind every order that is at least as good.  The level lists of
 internal/engine/book.go are proved to be a representation of these queues in OrderBook.
 */
module PriceTime {
  import opened Domain

  /** p stands strictly ahead of q in the queue of this side: bids descend, asks ascend. */
  predicate Better(side: Side, p: int, q: int) {
    if side == Buy then p > q else p < q
  }

  /** An incoming order of this side and limit may trade against a resting price. */
  predicate Crosses(side: Side, limit: int, resting: int) {
    if side == Buy then limit >= resting else limit <= resting
  }

  ghost predicate Sorted(side: Side, s: seq<Order>) {
    forall i, j :: 0 <= i < j < |s| ==> !Better(side, s[j].price, s[i].price)
  }

  ghost predicate Positive(s: seq<Order>) {
    forall i :: 0 <= i < |s| ==> s[i].remaining > 0
  }

  // ---- Joining a queue -------------------------------------------------------------------

  /** k is where an order of this price joins: after everything at least as good. */
  ghost predicate IsSlot(side: Side, s: seq<Order>, price: int, k: int) {
    && 0 <= k <= |s|
    && (forall i :: 0 <= i < k ==> !Better(side, price, s[i].price))
    && (k < |s| ==> Better(side, price, s[k].price))
  }

  function Slot(side: Side, s: seq<Order>, price: int): (k: nat)
    ensures IsSlot(side, s, price, k)
  {
    if s == [] || Better(side, price, s[0].price) then 0
    else
      var k := Slot(side, s[1..], price);
      assert forall i :: 1 <= i < k + 1 ==> s[i] == s[1..][i - 1];
      k + 1
  }

  lemma SlotUnique(side: Side, s: seq<Order>, price: int, k: int)
    requires IsSlot(side, s, price, k)
    ensures k == Slot(side, s, price)
  {
  }

  /** The queue after o has joined it. */
  function Join(side: Side, s: seq<Order>, o: Order): seq<Order> {
    var k := Slot(side, s, o.price);
    s[..k] + [o] + s[k..]
  }

  /** Position by position, a join shifts what stands behind the slot. */
  lemma JoinAt(side: Side, s: seq<Order>, o: Order, i: int)
    requires 0 <= i <= |s|
    ensures var k := Slot(side, s, o.price);
            |Join(side, s, o)| == |s| + 1
            && Join(side, s, o)[i] == if i < k then s[i] else if i == k then o else s[i - 1]
  {
  }

  lemma JoinSorted(side: Side, s: seq<Order>, o: Order)
    requires Sorted(side, s)
    ensures Sorted(side, Join(side, s, o))
  {
    var k := Slot(side, s, o.price);
    var t := Join(side, s, o);
    forall i, j | 0 <= i < j < |t|
      ensures !Better(side, t[j].price, t[i].price)
    {
      if k < |s| && k < j {
        assert j > k + 1 ==> !Better(side, s[j - 1].price, s[k].price);
      }
    }
  }

  // ---- Sweeping the opposite queue -------------------------------------------------------

  datatype Fill = Fill(resting: Order, quantity: int)

  datatype Sweeping = Sweeping(fills: seq<Fill>, left: int, queue: seq<Order>)

  /** Take up to `want` from the head of the queue while the head crosses the limit. */
  function Sweep(side: Side, limit: int, want: int, s: seq<Order>): Sweeping
    decreases |s|
  {
    if want <= 0 || s == [] || !Crosses(side, limit, s[0].price) then
      Sweeping([], want, s)
    else
      var q := Min(want, s[0].remaining);
      if q == s[0].remaining then
        var r := Sweep(side, limit, want - q, s[1..]);
        Sweeping([Fill(s[0], q)] + r.fills, r.left, r.queue)
      else
        Sweeping([Fill(s[0], q)], want - q, [Reduced(s[0], q)] + s[1..])
  }

  function Reduced(o: Order, q: int): Order {
    o.(remaining := o.remaining - q)
  }

  function RemainingOf(o: Order): int {
    o.remaining
  }

  function QuantityOf(f: Fill): int {
    f.quantity
  }

  ghost function Liquidity(s: seq<Order>): int {
    Sum(s, RemainingOf)
  }

  ghost function Filled(fills: seq<Fill>): int {
    Sum(fills, QuantityOf)
  }

  /** The length of the longest prefix of s that crosses the limit. */
  ghost function CrossingPrefix(side: Side, limit: int, s: seq<Order>): (c: nat)
    ensures c <= |s|
    ensures forall i :: 0 <= i < c ==> Crosses(side, limit, s[i].price)
    ensures c < |s| ==> !Crosses(side, limit, s[c].price)
  {
    if s == [] || !Crosses(side, limit, s[0].price) then 0
    else 1 + CrossingPrefix(side, limit, s[1..])
  }

  /** In a sorted queue the crossing prefix is every crossing order. */
  lemma CrossingPrefixIsAll(side: Side, limit: int, s: seq<Order>, i: int)
    requires Sorted(Opposite(side), s)
    requires 0 <= i < |s|
    ensures Crosses(side, limit, s[i].price) <==> i < CrossingPrefix(side, limit, s)
  {
    var c := CrossingPrefix(side, limit, s);
    if c < i {
      assert !Better(Opposite(side), s[i].price, s[c].price);
    }
  }

  /**
   The price-time contract of a sweep, clause by clause.  Together the clauses leave no freedom:
   the n fills are the first n orders, all but the last taken whole, the amount taken is the
   smaller of the demand and the crossing liquidity, and the queue loses exactly that.
   */
  ghost predicate IsGreedy(side: Side, limit: int, want: int, s: seq<Order>, r: Sweeping) {
    var c := CrossingPrefix(side, limit, s);
    var n := |r.fills|;
    && n <= c
    && r.left == want - Min(want, Liquidity(s[..c]))
    && Filled(r.fills) == want - r.left
    && (forall i :: 0 <= i < n ==> r.fills[i].resting == s[i] && 0 < r.fills[i].quantity <= s[i].remaining)
    && (forall i :: 0 <= i < n - 1 ==> r.fills[i].quantity == s[i].remaining)
    && r.queue == (if n == 0 || r.fills[n - 1].quantity == s[n - 1].remaining
                   then s[n..]
                   else [Reduced(s[n - 1], r.fills[n - 1].quantity)] + s[n..])
  }

  lemma {:induction false} SweepIsGreedy(side: Side, limit: int, want: int, s: seq<Order>)
    requires Positive(s) && want >= 0
    ensures IsGreedy(side, limit, want, s, Sweep(side, limit, want, s))
    decreases |s|
  {
    hide IsGreedy, Crosses;
    if want <= 0 || s == [] || !Crosses(side, limit, s[0].price) {
      GreedyStop(side, limit, want, s);
    } else if want < s[0].remaining {
      GreedyPart(side, limit, want, s);
    } else {
      SweepIsGreedy(side, limit, want - s[0].remaining, s[1..]);
      GreedyStep(side, limit, want, s, Sweep(side, limit, want - s[0].remaining, s[1..]));
    }
  }

  lemma GreedyStop(side: Side, limit: int, want: int, s: seq<Order>)
    requires Positive(s) && want >= 0
    requires want == 0 || s == [] || !Crosses(side, limit, s[0].price)
    ensures IsGreedy(side, limit, want, s, Sweeping([], want, s))
  {
    LiquidityNonnegative(s[..CrossingPrefix(side, limit, s)]);
    assert s[0..] == s;
  }

  lemma GreedyPart(side: Side, limit: int, want: int, s: seq<Order>)
    requires s != [] && Positive(s) && Crosses(side, limit, s[0].price) && 0 < want < s[0].remaining
    ensures IsGreedy(side, limit, want, s, Sweeping([Fill(s[0], want)], 0, [Reduced(s[0], want)] + s[1..]))
  {
    CrossingLiquidity(side, limit, s);
    SumOne(Fill(s[0], want), QuantityOf);
  }

  /** A whole head in front of a greedy sweep of the rest is a greedy sweep. */
  lemma GreedyStep(side: Side, limit: int, want: int, s: seq<Order>, r: Sweeping)
    requires Positive(s) && s != [] && Crosses(side, limit, s[0].price) && want >= s[0].remaining
    requires IsGreedy(side, limit, want - s[0].remaining, s[1..], r)
    ensures IsGreedy(side, limit, want, s, Sweeping([Fill(s[0], s[0].remaining)] + r.fills, r.left, r.queue))
  {
    hide Crosses, Reduced, Liquidity;
    var fills := [Fill(s[0], s[0].remaining)] + r.fills;
    SumCons(fills, QuantityOf);
    assert fills[1..] == r.fills;
    CrossingLiquidity(side, limit, s);
    forall i | 0 <= i < |fills|
      ensures fills[i].resting == s[i] && 0 < fills[i].quantity <= s[i].remaining
      ensures i < |fills| - 1 ==> fills[i].quantity == s[i].remaining
    {
      if i > 0 {
        assert fills[i] == r.fills[i - 1] && s[i] == s[1..][i - 1];
      }
    }
  }

  lemma CrossingLiquidity(side: Side, limit: int, s: seq<Order>)
    requires Positive(s) && s != [] && Crosses(side, limit, s[0].price)
    ensures var c := CrossingPrefix(side, limit, s);
            var c' := CrossingPrefix(side, limit, s[1..]);
            c == c' + 1 && Liquidity(s[..c]) == s[0].remaining + Liquidity(s[1..][..c'])
            && Liquidity(s[1..][..c']) >= 0
  {
    var c := CrossingPrefix(side, limit, s);
    SumCons(s[..c], RemainingOf);
    assert s[..c][1..] == s[1..][..c - 1];
    LiquidityNonnegative(s[1..][..c - 1]);
  }

  lemma {:induction false} LiquidityNonnegative(s: seq<Order>)
    requires Positive(s)
    ensures Liquidity(s) >= 0
    ensures s != [] ==> Liquidity(s) > 0
  {
    if s != [] {
      LiquidityNonnegative(s[..|s| - 1]);
    }
  }

  // ---- The book --------------------------------------------------------------------------

  datatype Book = Book(bids: seq<Order>, asks: seq<Order>)

  function Queue(b: Book, side: Side): seq<Order> {
    if side == Buy then b.bids else b.asks
  }

  function WithQueue(b: Book, side: Side, s: seq<Order>): Book {
    if side == Buy then b.(bids := s) else b.(asks := s)
  }

  /** The trade of an incoming order against one fill: always at the resting price. */
  function TradeOf(symbol: string, o: Order, f: Fill): Trade {
    if o.side == Buy
    then Trade(o.id, f.resting.id, o.userId, f.resting.userId, symbol, f.resting.price, f.quantity)
    else Trade(f.resting.id, o.id, f.resting.userId, o.userId, symbol, f.resting.price, f.quantity)
  }

  function TradesOf(symbol: string, o: Order, fills: seq<Fill>): seq<Trade> {
    seq(|fills|, i requires 0 <= i < |fills| => TradeOf(symbol, o, fills[i]))
  }

  datatype Matching = Matching(book: Book, trades: seq<Trade>, order: Order)

  /** Match an incoming order: sweep the opposite queue, then rest what is left. */
  function Match(symbol: string, b: Book, o: Order): Matching {
    var r := Sweep(o.side, o.price, o.remaining, Queue(b, Opposite(o.side)));
    var o' := o.(remaining := r.left);
    var swept := WithQueue(b, Opposite(o.side), r.queue);
    var book := if r.left > 0
                then WithQueue(swept, o.side, Join(o.side, Queue(b, o.side), o'))
                else swept;
    Matching(book, TradesOf(symbol, o, r.fills), o')
  }

  datatype CancelResult = CancelResult(side: Side, price: int, remaining: int)

  /** The first position of an order id, or the length of the queue. */
  function Find(s: seq<Order>, id: Uuid): (k: nat)
    ensures k <= |s|
    ensures k < |s| ==> s[k].id == id
    ensures forall i :: 0 <= i < k ==> s[i].id != id
  {
    if s == [] || s[0].id == id then 0 else 1 + Find(s[1..], id)
  }

  function Without(s: seq<Order>, k: int): seq<Order>
    requires 0 <= k < |s|
  {
    s[..k] + s[k + 1..]
  }

  datatype Cancelling = Cancelling(book: Book, result: Option<CancelResult>)

  /** Remove the first order with this id, looking at the bids before the asks. */
  function Cancel(b: Book, id: Uuid): Cancelling {
    var i := Find(b.bids, id);
    if i < |b.bids| then
      Cancelling(b.(bids := Without(b.bids, i)), Some(CancelResult(Buy, b.bids[i].price, b.bids[i].remaining)))
    else
      var j := Find(b.asks, id);
      if j < |b.asks| then
        Cancelling(b.(asks := Without(b.asks, j)), Some(CancelResult(Sell, b.asks[j].price, b.asks[j].remaining)))
      else
        Cancelling(b, None)
  }
}
