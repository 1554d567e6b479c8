/**
 The order book of internal/engine/book.go: two lists of price levels, each level a FIFO of
 orders, edited in place by nested loops.

 `Flat` reads a list of levels as one queue.  Every method is proved to do to the flat queues
 what PriceTime says, and to keep the lists well formed; a well-formed list is determined by
 its flat queue, so nothing about the levels is left open.
 */
module OrderBooks {
  import opened Domain
  import opened PriceTime

  datatype PriceLevel = PriceLevel(price: int, orders: seq<Order>)

  function Flat(levels: seq<PriceLevel>): seq<Order> {
    if levels == [] then [] else levels[0].orders + Flat(levels[1..])
  }

  ghost predicate LevelOk(l: PriceLevel) {
    && Positive(l.orders)
    && forall i :: 0 <= i < |l.orders| ==> l.orders[i].price == l.price
  }

  /** Levels are strictly ordered, never empty, and hold live orders of their own price. */
  ghost predicate WellFormed(side: Side, levels: seq<PriceLevel>) {
    && (forall i :: 0 <= i < |levels| ==> LevelOk(levels[i]) && levels[i].orders != [])
    && (forall i, j :: 0 <= i < j < |levels| ==> Better(side, levels[i].price, levels[j].price))
  }

  lemma {:induction false} FlatAppend(a: seq<PriceLevel>, b: seq<PriceLevel>)
    ensures Flat(a + b) == Flat(a) + Flat(b)
  {
    if a == [] {
      assert a + b == b;
    } else {
      FlatAppend(a[1..], b);
      assert (a + b)[1..] == a[1..] + b;
    }
  }

  /** The flat queue around position i of the list. */
  lemma FlatSplit(levels: seq<PriceLevel>, i: int)
    requires 0 <= i < |levels|
    ensures Flat(levels) == Flat(levels[..i]) + levels[i].orders + Flat(levels[i + 1..])
  {
    assert levels == levels[..i] + levels[i..];
    FlatAppend(levels[..i], levels[i..]);
    assert levels[i..][1..] == levels[i + 1..];
  }

  /** Every order of the flat queue sits in some level, at that level's price. */
  lemma {:induction false} FlatWitness(side: Side, levels: seq<PriceLevel>, k: int) returns (i: nat)
    requires WellFormed(side, levels)
    requires 0 <= k < |Flat(levels)|
    ensures i < |levels| && Flat(levels)[k] in levels[i].orders
    ensures Flat(levels)[k].price == levels[i].price && Flat(levels)[k].remaining > 0
  {
    if k < |levels[0].orders| {
      i := 0;
    } else {
      var j := FlatWitness(side, levels[1..], k - |levels[0].orders|);
      i := j + 1;
    }
  }

  lemma {:induction false} FlatSorted(side: Side, levels: seq<PriceLevel>)
    requires WellFormed(side, levels)
    ensures Sorted(side, Flat(levels)) && Positive(Flat(levels))
  {
    if levels != [] {
      FlatSorted(side, levels[1..]);
      var head, tail := levels[0].orders, Flat(levels[1..]);
      forall j | 0 <= j < |tail|
        ensures Better(side, levels[0].price, tail[j].price)
      {
        var i := FlatWitness(side, levels[1..], j);
        assert tail[j].price == levels[i + 1].price;
      }
    }
  }

  /** A well-formed list of levels is determined by its flat queue. */
  lemma {:induction false} FlatInjective(side: Side, a: seq<PriceLevel>, b: seq<PriceLevel>)
    requires WellFormed(side, a) && WellFormed(side, b)
    requires Flat(a) == Flat(b)
    ensures a == b
  {
    if a != [] && b != [] {
      var f := Flat(a);
      assert f[0] == a[0].orders[0] && f[0] == b[0].orders[0];
      HeadLevelMaximal(side, a);
      HeadLevelMaximal(side, b);
      var m, n := |a[0].orders|, |b[0].orders|;
      assert m == n;
      assert a[0].orders == f[..m] && b[0].orders == f[..m];
      assert Flat(a[1..]) == f[m..] && Flat(b[1..]) == f[m..];
      FlatInjective(side, a[1..], b[1..]);
      assert a == [a[0]] + a[1..] && b == [b[0]] + b[1..];
    }
  }

  /** The head level is the longest run of equal prices at the front of the queue. */
  lemma HeadLevelMaximal(side: Side, levels: seq<PriceLevel>)
    requires WellFormed(side, levels) && levels != []
    ensures var f, m := Flat(levels), |levels[0].orders|;
            && m <= |f|
            && (forall i :: 0 <= i < m ==> f[i].price == levels[0].price)
            && (m < |f| ==> f[m].price != levels[0].price)
  {
    var f, m := Flat(levels), |levels[0].orders|;
    assert forall i :: 0 <= i < m ==> f[i] == levels[0].orders[i];
    if m < |f| {
      assert f[m] == Flat(levels[1..])[0];
      var i := FlatWitness(side, levels[1..], 0);
      assert f[m].price == levels[i + 1].price;
    }
  }

  /** A prefix of strictly better levels, then nothing or a strictly worse level: the slot. */
  lemma SlotAtLevel(side: Side, levels: seq<PriceLevel>, i: int, price: int)
    requires WellFormed(side, levels) && 0 <= i <= |levels|
    requires forall k :: 0 <= k < i ==> !Better(side, price, levels[k].price)
    requires i < |levels| ==> Better(side, price, levels[i].price)
    ensures Slot(side, Flat(levels), price) == |Flat(levels[..i])|
    ensures Flat(levels) == Flat(levels[..i]) + Flat(levels[i..])
  {
    var a, b := Flat(levels[..i]), Flat(levels[i..]);
    assert levels == levels[..i] + levels[i..];
    FlatAppend(levels[..i], levels[i..]);
    forall k | 0 <= k < |a|
      ensures !Better(side, price, a[k].price)
    {
      var j := FlatWitness(side, levels[..i], k);
    }
    if i < |levels| {
      assert b[0] == levels[i].orders[0];
    }
    SlotUnique(side, Flat(levels), price, |a|);
  }

  lemma FlatOne(l: PriceLevel)
    ensures Flat([l]) == l.orders
  {
    assert Flat([l]) == l.orders + Flat([l][1..]) && Flat([l][1..]) == [];
  }

  /** Opening a new level at position i joins the queue. */
  lemma JoinAsNewLevel(side: Side, levels: seq<PriceLevel>, i: int, o: Order)
    requires WellFormed(side, levels) && 0 <= i <= |levels| && o.remaining > 0
    requires forall k :: 0 <= k < i ==> Better(side, levels[k].price, o.price)
    requires i < |levels| ==> Better(side, o.price, levels[i].price)
    ensures var l := levels[..i] + [PriceLevel(o.price, [o])] + levels[i..];
            WellFormed(side, l) && Flat(l) == Join(side, Flat(levels), o)
  {
    var mid := [PriceLevel(o.price, [o])];
    InsertWellFormed(side, levels, i, PriceLevel(o.price, [o]));
    SlotAtLevel(side, levels, i, o.price);
    FlatAppend(levels[..i] + mid, levels[i..]);
    FlatAppend(levels[..i], mid);
    FlatOne(mid[0]);
  }

  lemma InsertWellFormed(side: Side, levels: seq<PriceLevel>, i: int, l: PriceLevel)
    requires WellFormed(side, levels) && 0 <= i <= |levels| && LevelOk(l) && l.orders != []
    requires forall k :: 0 <= k < i ==> Better(side, levels[k].price, l.price)
    requires i < |levels| ==> Better(side, l.price, levels[i].price)
    ensures WellFormed(side, levels[..i] + [l] + levels[i..])
  {
    var r := levels[..i] + [l] + levels[i..];
    forall a, b | 0 <= a < b < |r|
      ensures Better(side, r[a].price, r[b].price)
    {
      if b > i {
        assert r[b] == levels[b - 1];
        assert i < b - 1 ==> Better(side, levels[i].price, levels[b - 1].price);
      }
    }
  }

  /** Appending to the level of the same price joins the queue. */
  lemma JoinInLevel(side: Side, levels: seq<PriceLevel>, i: int, o: Order)
    requires WellFormed(side, levels) && 0 <= i < |levels| && o.remaining > 0
    requires levels[i].price == o.price
    ensures var l := levels[i := PriceLevel(o.price, levels[i].orders + [o])];
            WellFormed(side, l) && Flat(l) == Join(side, Flat(levels), o)
  {
    var before, orders, after := Flat(levels[..i]), levels[i].orders, Flat(levels[i + 1..]);
    ReplaceFlat(levels, i, PriceLevel(o.price, orders + [o]));
    SlotAfterLevel(side, levels, i);
    assert before + (orders + [o]) + after == (before + orders) + [o] + after;
  }

  /** An order at the price of level i joins right behind that level. */
  lemma SlotAfterLevel(side: Side, levels: seq<PriceLevel>, i: int)
    requires WellFormed(side, levels) && 0 <= i < |levels|
    ensures Slot(side, Flat(levels), levels[i].price) == |Flat(levels[..i])| + |levels[i].orders|
  {
    assert forall k :: 0 <= k < i ==> Better(side, levels[k].price, levels[i].price);
    SlotAtLevel(side, levels, i + 1, levels[i].price);
    assert levels[..i + 1] == levels[..i] + [levels[i]];
    FlatAppend(levels[..i], [levels[i]]);
    FlatOne(levels[i]);
  }

  lemma ReplaceFlat(levels: seq<PriceLevel>, i: int, l: PriceLevel)
    requires 0 <= i < |levels|
    ensures Flat(levels) == Flat(levels[..i]) + levels[i].orders + Flat(levels[i + 1..])
    ensures Flat(levels[i := l]) == Flat(levels[..i]) + l.orders + Flat(levels[i + 1..])
  {
    var r := levels[i := l];
    FlatSplit(levels, i);
    FlatSplit(r, i);
    assert r[..i] == levels[..i] && r[i + 1..] == levels[i + 1..];
  }

  /** Removing one order, and its level when that leaves it empty. */
  function RemoveAt(levels: seq<PriceLevel>, i: int, k: int): seq<PriceLevel>
    requires 0 <= i < |levels| && 0 <= k < |levels[i].orders|
  {
    var l := PriceLevel(levels[i].price, Without(levels[i].orders, k));
    if l.orders == [] then levels[..i] + levels[i + 1..] else levels[i := l]
  }

  lemma RemoveAtFlat(side: Side, levels: seq<PriceLevel>, i: int, k: int, id: Uuid)
    requires WellFormed(side, levels)
    requires 0 <= i < |levels| && 0 <= k < |levels[i].orders| && levels[i].orders[k].id == id
    requires forall j :: 0 <= j < i ==> AbsentIn(levels[j].orders, id)
    requires AbsentIn(levels[i].orders[..k], id)
    ensures WellFormed(side, RemoveAt(levels, i, k))
    ensures var f, p := Flat(levels), Find(Flat(levels), id);
            p < |f| && f[p] == levels[i].orders[k] && Flat(RemoveAt(levels, i, k)) == Without(f, p)
  {
    var l := PriceLevel(levels[i].price, Without(levels[i].orders, k));
    var before, after := Flat(levels[..i]), Flat(levels[i + 1..]);
    RemoveAtWellFormed(side, levels, i, k);
    AbsentFlat(levels[..i], id);
    ReplaceFlat(levels, i, l);
    WithoutInside(before, levels[i].orders, after, k, id);
    if l.orders == [] {
      FlatAppend(levels[..i], levels[i + 1..]);
      assert before + l.orders + after == before + after;
    }
  }

  lemma RemoveAtWellFormed(side: Side, levels: seq<PriceLevel>, i: int, k: int)
    requires WellFormed(side, levels) && 0 <= i < |levels| && 0 <= k < |levels[i].orders|
    ensures WellFormed(side, RemoveAt(levels, i, k))
  {
    assert LevelOk(PriceLevel(levels[i].price, Without(levels[i].orders, k)));
  }

  lemma WithoutInside(a: seq<Order>, b: seq<Order>, c: seq<Order>, k: int, id: Uuid)
    requires 0 <= k < |b| && b[k].id == id && AbsentIn(a, id) && AbsentIn(b[..k], id)
    ensures var f := a + b + c;
            Find(f, id) == |a| + k && f[|a| + k] == b[k] && Without(f, |a| + k) == a + Without(b, k) + c
  {
    var f := a + b + c;
    forall j | 0 <= j < |a| + k
      ensures f[j].id != id
    {
      if j >= |a| {
        assert f[j] == b[..k][j - |a|];
      }
    }
    assert f[|a| + k] == b[k];
    assert Without(f, |a| + k) == a + Without(b, k) + c;
  }

  ghost predicate AbsentIn(s: seq<Order>, id: Uuid) {
    forall j :: 0 <= j < |s| ==> s[j].id != id
  }

  lemma {:induction false} AbsentFlat(levels: seq<PriceLevel>, id: Uuid)
    requires forall j :: 0 <= j < |levels| ==> AbsentIn(levels[j].orders, id)
    ensures AbsentIn(Flat(levels), id)
  {
    if levels != [] {
      assert AbsentIn(levels[0].orders, id);
      assert forall j :: 0 <= j < |levels[1..]| ==> levels[1..][j] == levels[j + 1];
      AbsentFlat(levels[1..], id);
    }
  }

  ghost function Prepended(fills: seq<Fill>, r: Sweeping): Sweeping {
    Sweeping(fills + r.fills, r.left, r.queue)
  }

  /** One iteration of the inner matching loop is one step of the sweep. */
  lemma SweepOnce(side: Side, limit: int, want: int, level: PriceLevel, rest: seq<Order>)
    requires want > 0 && LevelOk(level) && level.orders != [] && Crosses(side, limit, level.price)
    ensures var o := level.orders[0];
            var q := Min(want, o.remaining);
            var orders := if q == o.remaining then level.orders[1..] else level.orders[0 := Reduced(o, q)];
            && 0 < q <= want
            && LevelOk(PriceLevel(level.price, orders))
            && Sweep(side, limit, want, level.orders + rest)
               == Prepended([Fill(o, q)], Sweep(side, limit, want - q, orders + rest))
  {
    var o := level.orders[0];
    var q := Min(want, o.remaining);
    var s := level.orders + rest;
    assert s[0] == o;
    if q == o.remaining {
      assert s[1..] == level.orders[1..] + rest;
    } else {
      assert [Reduced(o, q)] + s[1..] == level.orders[0 := Reduced(o, q)] + rest;
    }
  }

  /** The inner loop of matchBuy and matchSell: trade against the best level until it or the
      incoming order is used up.  `rest` is the queue behind that level. */
  method FillFromLevel(symbol: string, incoming: Order, level: PriceLevel, ghost rest: seq<Order>)
    returns (trades: seq<Trade>, level': PriceLevel, incoming': Order, ghost fills: seq<Fill>)
    requires incoming.remaining > 0 && LevelOk(level) && level.orders != []
    requires Crosses(incoming.side, incoming.price, level.price)
    ensures incoming' == incoming.(remaining := incoming'.remaining) && 0 <= incoming'.remaining < incoming.remaining
    ensures LevelOk(level') && level'.price == level.price
    ensures incoming'.remaining == 0 || level'.orders == []
    ensures trades == TradesOf(symbol, incoming, fills)
    ensures Sweep(incoming.side, incoming.price, incoming.remaining, level.orders + rest)
         == Prepended(fills, Sweep(incoming.side, incoming.price, incoming'.remaining, level'.orders + rest))
  {
    hide Sweep, Prepended, Crosses;
    trades, level', incoming', fills := [], level, incoming, [];
    assert Sweep(incoming.side, incoming.price, incoming.remaining, level.orders + rest)
        == Prepended([], Sweep(incoming.side, incoming.price, incoming.remaining, level.orders + rest))
            by { PrependNone(Sweep(incoming.side, incoming.price, incoming.remaining, level.orders + rest)); }
    while incoming'.remaining > 0 && |level'.orders| > 0
      invariant incoming' == incoming.(remaining := incoming'.remaining)
      invariant 0 <= incoming'.remaining <= incoming.remaining
      invariant incoming'.remaining == incoming.remaining ==> level'.orders != []
      invariant LevelOk(level') && level'.price == level.price
      invariant trades == TradesOf(symbol, incoming, fills)
      invariant Sweep(incoming.side, incoming.price, incoming.remaining, level.orders + rest)
             == Prepended(fills, Sweep(incoming.side, incoming.price, incoming'.remaining, level'.orders + rest))
      decreases incoming'.remaining
    {
      var resting := level'.orders[0];
      var tradeQty := Min(incoming'.remaining, resting.remaining);
      SweepOnce(incoming.side, incoming.price, incoming'.remaining, level', rest);
      var fill := Fill(resting, tradeQty);
      var trade := if incoming.side == Buy
                   then Trade(incoming.id, resting.id, incoming.userId, resting.userId, symbol, level'.price, tradeQty)
                   else Trade(resting.id, incoming.id, resting.userId, incoming.userId, symbol, level'.price, tradeQty);
      assert TradesOf(symbol, incoming, [fill]) == [trade];
      TradesConcat(symbol, incoming, incoming, fills, [fill]);
      incoming' := incoming'.(remaining := incoming'.remaining - tradeQty);
      resting := resting.(remaining := resting.remaining - tradeQty);
      if resting.remaining == 0 {
        level' := level'.(orders := level'.orders[1..]);
      } else {
        level' := level'.(orders := level'.orders[0 := resting]);
      }
      PrependTwice(fills, [fill], Sweep(incoming.side, incoming.price, incoming'.remaining, level'.orders + rest));
      trades, fills := trades + [trade], fills + [fill];
    }
  }

  lemma HeadOfQueue(side: Side, levels: seq<PriceLevel>)
    requires WellFormed(side, levels) && levels != []
    ensures Flat(levels) == levels[0].orders + Flat(levels[1..])
    ensures Flat(levels) != [] && Flat(levels)[0].price == levels[0].price
  {
    assert Flat(levels)[0] == levels[0].orders[0];
  }

  /** Trades depend on the incoming order only through its identity and side. */
  lemma TradesConcat(symbol: string, o: Order, o': Order, a: seq<Fill>, b: seq<Fill>)
    requires o' == o.(remaining := o'.remaining)
    ensures TradesOf(symbol, o, a + b) == TradesOf(symbol, o, a) + TradesOf(symbol, o', b)
  {
  }

  lemma PrependNone(r: Sweeping)
    ensures Prepended([], r) == r
  {
  }

  lemma PrependTwice(a: seq<Fill>, b: seq<Fill>, r: Sweeping)
    ensures Prepended(a, Prepended(b, r)) == Prepended(a + b, r)
  {
    assert a + (b + r.fills) == a + b + r.fills;
  }

  /** A sweep that cannot go on is over: the fills gathered so far are all of them. */
  lemma SweepOver(side: Side, limit: int, want: int, s: seq<Order>, fills: seq<Fill>, whole: Sweeping)
    requires whole == Prepended(fills, Sweep(side, limit, want, s))
    requires want <= 0 || s == [] || !Crosses(side, limit, s[0].price)
    ensures whole == Sweeping(fills, want, s)
  {
  }

  /** The head level after a pass of the inner loop: gone when empty, shortened otherwise. */
  lemma HeadReplaced(side: Side, levels: seq<PriceLevel>, l: PriceLevel)
    requires WellFormed(side, levels) && levels != [] && LevelOk(l) && l.price == levels[0].price
    ensures WellFormed(side, levels[1..])
    ensures l.orders == [] ==> l.orders + Flat(levels[1..]) == Flat(levels[1..])
    ensures l.orders != [] ==> WellFormed(side, levels[0 := l])
    ensures Flat(levels[0 := l]) == l.orders + Flat(levels[1..])
  {
    assert levels[0 := l][1..] == levels[1..];
  }

  /** The order book object. */
  class OrderBook {
    const symbol: string
    var bids: seq<PriceLevel>
    var asks: seq<PriceLevel>

    ghost predicate Valid()
      reads this
    {
      WellFormed(Buy, bids) && WellFormed(Sell, asks)
    }

    ghost function View(): Book
      reads this
    {
      Book(Flat(bids), Flat(asks))
    }

    constructor (symbol: string)
      ensures Valid() && this.symbol == symbol && View() == Book([], [])
    {
      this.symbol := symbol;
      bids, asks := [], [];
    }

    method AddBid(o: Order)
      requires Valid() && o.remaining > 0
      modifies this`bids
      ensures Valid()
      ensures View() == old(View()).(bids := Join(Buy, old(View()).bids, o))
    {
      var i := 0;
      while i < |bids|
        invariant 0 <= i <= |bids| && bids == old(bids)
        invariant forall k :: 0 <= k < i ==> bids[k].price > o.price
      {
        if bids[i].price == o.price {
          JoinInLevel(Buy, bids, i, o);
          bids := bids[i := PriceLevel(o.price, bids[i].orders + [o])];
          return;
        }
        if o.price > bids[i].price {
          JoinAsNewLevel(Buy, bids, i, o);
          bids := bids[..i] + [PriceLevel(o.price, [o])] + bids[i..];
          return;
        }
        i := i + 1;
      }
      JoinAsNewLevel(Buy, bids, |bids|, o);
      assert bids[..|bids|] + [PriceLevel(o.price, [o])] + bids[|bids|..] == bids + [PriceLevel(o.price, [o])];
      bids := bids + [PriceLevel(o.price, [o])];
    }

    method AddAsk(o: Order)
      requires Valid() && o.remaining > 0
      modifies this`asks
      ensures Valid()
      ensures View() == old(View()).(asks := Join(Sell, old(View()).asks, o))
    {
      var i := 0;
      while i < |asks|
        invariant 0 <= i <= |asks| && asks == old(asks)
        invariant forall k :: 0 <= k < i ==> asks[k].price < o.price
      {
        if asks[i].price == o.price {
          JoinInLevel(Sell, asks, i, o);
          asks := asks[i := PriceLevel(o.price, asks[i].orders + [o])];
          return;
        }
        if o.price < asks[i].price {
          JoinAsNewLevel(Sell, asks, i, o);
          asks := asks[..i] + [PriceLevel(o.price, [o])] + asks[i..];
          return;
        }
        i := i + 1;
      }
      JoinAsNewLevel(Sell, asks, |asks|, o);
      assert asks[..|asks|] + [PriceLevel(o.price, [o])] + asks[|asks|..] == asks + [PriceLevel(o.price, [o])];
      asks := asks + [PriceLevel(o.price, [o])];
    }

    /** Match an incoming order; `done` is the order as the caller sees it afterwards. */
    method MatchIncoming(incoming: Order) returns (trades: seq<Trade>, done: Order)
      requires Valid()
      modifies this
      ensures Valid()
      ensures Matching(View(), trades, done) == Match(symbol, old(View()), incoming)
    {
      if incoming.side == Buy {
        trades, done := MatchBuy(incoming);
      } else {
        trades, done := MatchSell(incoming);
      }
    }

    method MatchBuy(buy: Order) returns (trades: seq<Trade>, done: Order)
      requires Valid() && buy.side == Buy
      modifies this
      ensures Valid()
      ensures Matching(View(), trades, done) == Match(symbol, old(View()), buy)
    {
      trades := [];
      done := buy;
      ghost var fills: seq<Fill> := [];
      ghost var whole := Sweep(Buy, buy.price, buy.remaining, Flat(asks));
      while done.remaining > 0 && |asks| > 0
        invariant WellFormed(Sell, asks) && bids == old(bids)
        invariant done == buy.(remaining := done.remaining)
        invariant whole == Prepended(fills, Sweep(Buy, buy.price, done.remaining, Flat(asks)))
        invariant trades == TradesOf(symbol, buy, fills)
        decreases done.remaining
      {
        var bestAsk := asks[0];
        HeadOfQueue(Sell, asks);
        if buy.price < bestAsk.price {
          break;
        }
        var more, bestAsk', done', taken := FillFromLevel(symbol, done, bestAsk, Flat(asks[1..]));
        TradesConcat(symbol, buy, done, fills, taken);
        PrependTwice(fills, taken, Sweep(Buy, buy.price, done'.remaining, bestAsk'.orders + Flat(asks[1..])));
        trades, fills, done := trades + more, fills + taken, done';
        HeadReplaced(Sell, asks, bestAsk');
        if |bestAsk'.orders| == 0 {
          asks := asks[1..];
        } else {
          asks := asks[0 := bestAsk'];
        }
      }
      SweepOver(Buy, buy.price, done.remaining, Flat(asks), fills, whole);
      if done.remaining > 0 {
        AddBid(done);
      }
    }

    method MatchSell(sell: Order) returns (trades: seq<Trade>, done: Order)
      requires Valid() && sell.side == Sell
      modifies this
      ensures Valid()
      ensures Matching(View(), trades, done) == Match(symbol, old(View()), sell)
    {
      trades := [];
      done := sell;
      ghost var fills: seq<Fill> := [];
      ghost var whole := Sweep(Sell, sell.price, sell.remaining, Flat(bids));
      while done.remaining > 0 && |bids| > 0
        invariant WellFormed(Buy, bids) && asks == old(asks)
        invariant done == sell.(remaining := done.remaining)
        invariant whole == Prepended(fills, Sweep(Sell, sell.price, done.remaining, Flat(bids)))
        invariant trades == TradesOf(symbol, sell, fills)
        decreases done.remaining
      {
        var bestBid := bids[0];
        HeadOfQueue(Buy, bids);
        if sell.price > bestBid.price {
          break;
        }
        var more, bestBid', done', taken := FillFromLevel(symbol, done, bestBid, Flat(bids[1..]));
        TradesConcat(symbol, sell, done, fills, taken);
        PrependTwice(fills, taken, Sweep(Sell, sell.price, done'.remaining, bestBid'.orders + Flat(bids[1..])));
        trades, fills, done := trades + more, fills + taken, done';
        HeadReplaced(Buy, bids, bestBid');
        if |bestBid'.orders| == 0 {
          bids := bids[1..];
        } else {
          bids := bids[0 := bestBid'];
        }
      }
      SweepOver(Sell, sell.price, done.remaining, Flat(bids), fills, whole);
      if done.remaining > 0 {
        AddAsk(done);
      }
    }

    method CancelOrder(id: Uuid) returns (r: Option<CancelResult>)
      requires Valid()
      modifies this
      ensures Valid()
      ensures Cancelling(View(), r) == Cancel(old(View()), id)
    {
      var i := 0;
      while i < |bids|
        invariant 0 <= i <= |bids| && bids == old(bids) && asks == old(asks)
        invariant forall j :: 0 <= j < i ==> AbsentIn(bids[j].orders, id)
      {
        var k, removed := IndexInLevel(bids[i], id);
        if removed {
          RemoveAtFlat(Buy, bids, i, k, id);
          r := Some(CancelResult(Buy, bids[i].price, bids[i].orders[k].remaining));
          bids := RemoveAt(bids, i, k);
          return;
        }
        i := i + 1;
      }
      AbsentFlat(bids, id);
      i := 0;
      while i < |asks|
        invariant 0 <= i <= |asks| && bids == old(bids) && asks == old(asks)
        invariant forall j :: 0 <= j < i ==> AbsentIn(asks[j].orders, id)
      {
        var k, removed := IndexInLevel(asks[i], id);
        if removed {
          RemoveAtFlat(Sell, asks, i, k, id);
          r := Some(CancelResult(Sell, asks[i].price, asks[i].orders[k].remaining));
          asks := RemoveAt(asks, i, k);
          return;
        }
        i := i + 1;
      }
      AbsentFlat(asks, id);
      r := None;
    }
  }

  /** The search of removeFromLevel: the first order of the level with this id. */
  method IndexInLevel(level: PriceLevel, id: Uuid) returns (k: nat, found: bool)
    ensures found ==> k < |level.orders| && level.orders[k].id == id && AbsentIn(level.orders[..k], id)
    ensures !found ==> AbsentIn(level.orders, id)
  {
    k := 0;
    while k < |level.orders|
      invariant k <= |level.orders|
      invariant AbsentIn(level.orders[..k], id)
    {
      if level.orders[k].id == id {
        return k, true;
      }
      k := k + 1;
    }
    found := false;
  }
}
