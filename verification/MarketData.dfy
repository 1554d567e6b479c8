/**
 The aggregated book of internal/marketdata/service.go: per side an unsorted list of price
 levels, kept up to date from the engine's events alone.
 */
module MarketData {
  import opened Domain
  import opened PriceTime
  import opened BookFacts
  import opened EngineRun

  const MAX_RECENT_TRADES := 100

  datatype BookLevel = BookLevel(price: int, quantity: int)

  datatype BookView = BookView(bids: seq<BookLevel>, asks: seq<BookLevel>)

  datatype RecentTrade = RecentTrade(price: int, quantity: int)

  // ---- Editing one side ------------------------------------------------------------------

  /** The position of a price, or the number of levels. */
  function LevelAt(levels: seq<BookLevel>, price: int): (k: nat)
    ensures k <= |levels|
    ensures k < |levels| ==> levels[k].price == price
    ensures forall i :: 0 <= i < k ==> levels[i].price != price
  {
    if levels == [] || levels[0].price == price then 0 else 1 + LevelAt(levels[1..], price)
  }

  function AddLevel(levels: seq<BookLevel>, price: int, qty: int): seq<BookLevel> {
    var k := LevelAt(levels, price);
    if k == |levels| then levels + [BookLevel(price, qty)]
    else levels[k := BookLevel(price, levels[k].quantity + qty)]
  }

  /** Levels at or below the dust threshold, which is far less than one tick, disappear. */
  function DeductLevel(levels: seq<BookLevel>, price: int, qty: int): seq<BookLevel> {
    var k := LevelAt(levels, price);
    if k == |levels| then levels
    else if levels[k].quantity - qty <= 0 then levels[..k] + levels[k + 1..]
    else levels[k := BookLevel(price, levels[k].quantity - qty)]
  }

  ghost predicate LevelsOk(levels: seq<BookLevel>) {
    && (forall i :: 0 <= i < |levels| ==> levels[i].quantity > 0)
    && (forall i, j :: 0 <= i < j < |levels| ==> levels[i].price != levels[j].price)
  }

  ghost function LevelQty(p: int): BookLevel -> int {
    (l: BookLevel) => if l.price == p then l.quantity else 0
  }

  ghost function OrderQty(p: int): Order -> int {
    (o: Order) => if o.price == p then o.remaining else 0
  }

  /** The levels show, price by price, exactly the quantity that rests in the queue. */
  ghost predicate Shows(levels: seq<BookLevel>, s: seq<Order>) {
    LevelsOk(levels) && forall p :: Sum(levels, LevelQty(p)) == Sum(s, OrderQty(p))
  }

  /** With distinct prices, the quantity at a price is that of its one level. */
  lemma {:induction false} LevelQtyAt(levels: seq<BookLevel>, p: int)
    requires LevelsOk(levels)
    ensures var k := LevelAt(levels, p);
            Sum(levels, LevelQty(p)) == if k == |levels| then 0 else levels[k].quantity
  {
    var k := LevelAt(levels, p);
    if k == |levels| {
      NoLevelNoQty(levels, p);
    } else {
      SumAround(levels, k, LevelQty(p));
      NoLevelNoQty(levels[..k], p);
      NoLevelNoQty(levels[k + 1..], p);
    }
  }

  lemma {:induction false} NoLevelNoQty(levels: seq<BookLevel>, p: int)
    requires forall i :: 0 <= i < |levels| ==> levels[i].price != p
    ensures Sum(levels, LevelQty(p)) == 0
  {
    if levels != [] {
      NoLevelNoQty(levels[..|levels| - 1], p);
    }
  }

  /** Two lists that show the same queue have the same levels, in some order. */
  lemma ShowsDetermines(a: seq<BookLevel>, b: seq<BookLevel>, s: seq<Order>, l: BookLevel)
    requires Shows(a, s) && Shows(b, s)
    ensures l in a <==> l in b
  {
    LevelQtyAt(a, l.price);
    LevelQtyAt(b, l.price);
    assert Sum(a, LevelQty(l.price)) == Sum(b, LevelQty(l.price));
    var i, j := LevelAt(a, l.price), LevelAt(b, l.price);
    if l in a {
      assert i < |a| && a[i] == l;
    }
    if l in b {
      assert j < |b| && b[j] == l;
    }
  }

  lemma AddLevelQty(levels: seq<BookLevel>, price: int, qty: int, p: int)
    requires LevelsOk(levels) && qty > 0
    ensures LevelsOk(AddLevel(levels, price, qty))
    ensures Sum(AddLevel(levels, price, qty), LevelQty(p))
         == Sum(levels, LevelQty(p)) + (if p == price then qty else 0)
  {
    var k := LevelAt(levels, price);
    if k == |levels| {
      SumAppend(levels, [BookLevel(price, qty)], LevelQty(p));
      SumOne(BookLevel(price, qty), LevelQty(p));
    } else {
      ReplaceQty(levels, k, levels[k].quantity + qty, p);
    }
  }

  function PricesOf(levels: seq<BookLevel>): seq<int> {
    seq(|levels|, i requires 0 <= i < |levels| => levels[i].price)
  }

  /** A new price is appended behind all others; nothing else moves. */
  lemma AddLevelPlaces(levels: seq<BookLevel>, price: int, qty: int)
    ensures PricesOf(AddLevel(levels, price, qty))
         == if price in PricesOf(levels) then PricesOf(levels) else PricesOf(levels) + [price]
  {
    var k := LevelAt(levels, price);
    assert k < |levels| ==> PricesOf(levels)[k] == price;
  }

  /** A deduction removes at most the level at its price and leaves the others in their order. */
  lemma DeductLevelPlaces(levels: seq<BookLevel>, price: int, qty: int, k: int)
    requires 0 <= k < |levels| && levels[k].price == price && forall i :: 0 <= i < k ==> levels[i].price != price
    ensures PricesOf(DeductLevel(levels, price, qty))
         == if levels[k].quantity <= qty then PricesOf(levels)[..k] + PricesOf(levels)[k + 1..] else PricesOf(levels)
  {
    var d := levels[..k] + levels[k + 1..];
    assert LevelAt(levels, price) == k;
    if levels[k].quantity <= qty {
      assert DeductLevel(levels, price, qty) == d;
      assert PricesOf(d) == PricesOf(levels)[..k] + PricesOf(levels)[k + 1..];
    }
  }

  /** A deduction takes the quantity from its price, as far as there is any, and only there. */
  lemma DeductLevelQty(levels: seq<BookLevel>, price: int, qty: int, p: int)
    requires LevelsOk(levels) && qty > 0
    ensures LevelsOk(DeductLevel(levels, price, qty))
    ensures var had := Sum(levels, LevelQty(p));
            Sum(DeductLevel(levels, price, qty), LevelQty(p)) == if p == price then had - Min(had, qty) else had
  {
    var k := LevelAt(levels, price);
    DeductLevelOk(levels, price, qty);
    LevelQtyAt(levels, price);
    if k == |levels| {
    } else if levels[k].quantity - qty <= 0 {
      RemoveQty(levels, k, p);
    } else {
      ReplaceQty(levels, k, levels[k].quantity - qty, p);
    }
    hide LevelsOk, Sum;
  }

  lemma DeductLevelOk(levels: seq<BookLevel>, price: int, qty: int)
    requires LevelsOk(levels) && qty > 0
    ensures LevelsOk(DeductLevel(levels, price, qty))
  {
    var k := LevelAt(levels, price);
    if k < |levels| {
      RemoveOk(levels, k);
      if levels[k].quantity - qty > 0 {
        ReplaceOk(levels, k, levels[k].quantity - qty);
      }
    }
    hide LevelsOk;
  }

  lemma RemoveOk(levels: seq<BookLevel>, k: int)
    requires LevelsOk(levels) && 0 <= k < |levels|
    ensures LevelsOk(levels[..k] + levels[k + 1..])
  {
    var r := levels[..k] + levels[k + 1..];
    assert forall i :: 0 <= i < |r| ==> r[i] == levels[if i < k then i else i + 1];
  }

  lemma ReplaceOk(levels: seq<BookLevel>, k: int, qty: int)
    requires LevelsOk(levels) && 0 <= k < |levels| && qty > 0
    ensures LevelsOk(levels[k := BookLevel(levels[k].price, qty)])
  {
  }

  lemma RemoveQty(levels: seq<BookLevel>, k: int, p: int)
    requires 0 <= k < |levels|
    ensures Sum(levels[..k] + levels[k + 1..], LevelQty(p))
         == Sum(levels, LevelQty(p)) - (if levels[k].price == p then levels[k].quantity else 0)
  {
    SumAround(levels, k, LevelQty(p));
    SumAppend(levels[..k], levels[k + 1..], LevelQty(p));
  }

  /** A deduction is a no-op exactly when the side shows nothing at that price. */
  lemma DeductIsNoOp(levels: seq<BookLevel>, price: int, qty: int)
    requires LevelsOk(levels) && qty > 0
    ensures DeductLevel(levels, price, qty) == levels <==> Sum(levels, LevelQty(price)) == 0
  {
    LevelQtyAt(levels, price);
    DeductLevelQty(levels, price, qty, price);
  }

  lemma ReplaceQty(levels: seq<BookLevel>, k: int, qty: int, p: int)
    requires 0 <= k < |levels|
    ensures Sum(levels[k := BookLevel(levels[k].price, qty)], LevelQty(p))
         == Sum(levels, LevelQty(p)) + (if levels[k].price == p then qty - levels[k].quantity else 0)
  {
    var r := levels[k := BookLevel(levels[k].price, qty)];
    SumAround(levels, k, LevelQty(p));
    SumAround(r, k, LevelQty(p));
    assert r[..k] == levels[..k] && r[k + 1..] == levels[k + 1..];
  }

  // ---- The event handlers, for one symbol ------------------------------------------------

  function SideOf(v: BookView, side: Side): seq<BookLevel> {
    if side == Buy then v.bids else v.asks
  }

  function WithSide(v: BookView, side: Side, levels: seq<BookLevel>): BookView {
    if side == Buy then v.(bids := levels) else v.(asks := levels)
  }

  function OnEvent(v: BookView, e: Event): BookView {
    match e
    case TradeMatched(m) =>
      BookView(DeductLevel(v.bids, m.trade.price, m.trade.quantity),
               DeductLevel(v.asks, m.trade.price, m.trade.quantity))
    case OrderRested(o) =>
      WithSide(v, o.side, AddLevel(SideOf(v, o.side), o.price, o.remaining))
    case OrderCancelled(_, _, side, price, remaining) =>
      if remaining <= 0 then v else WithSide(v, side, DeductLevel(SideOf(v, side), price, remaining))
  }

  function Replay(v: BookView, events: seq<Event>): BookView {
    if events == [] then v
    else OnEvent(Replay(v, events[..|events| - 1]), events[|events| - 1])
  }

  lemma {:induction false} ReplayAppend(v: BookView, a: seq<Event>, b: seq<Event>)
    ensures Replay(v, a + b) == Replay(Replay(v, a), b)
  {
    hide OnEvent;
    if b == [] {
      assert a + b == a;
    } else {
      ReplayAppend(v, a, b[..|b| - 1]);
      assert (a + b)[..|a + b| - 1] == a + b[..|b| - 1];
    }
  }

  lemma ReplayOne(v: BookView, e: Event)
    ensures Replay(v, [e]) == OnEvent(v, e)
  {
    assert [e][..0] == [];
  }

  ghost predicate Mirrors(v: BookView, b: Book) {
    Shows(v.bids, b.bids) && Shows(v.asks, b.asks)
  }

  // ---- The view agrees with the book -----------------------------------------------------

  /** No level stands at the price of any order of s. */
  ghost predicate NoLevelFor(levels: seq<BookLevel>, s: seq<Order>) {
    forall i, j :: 0 <= i < |levels| && 0 <= j < |s| ==> levels[i].price != s[j].price
  }

  ghost predicate SidesShow(v: BookView, side: Side, own: seq<BookLevel>, s: seq<Order>) {
    SideOf(v, side) == own && Shows(SideOf(v, Opposite(side)), s)
  }

  /** One fill: the resting side loses the traded quantity, the other side has no such level. */
  lemma TradeShows(v: BookView, side: Side, s: seq<Order>, q: int, m: Matched)
    requires SidesShow(v, side, SideOf(v, side), s) && NoLevelFor(SideOf(v, side), s)
    requires Positive(s) && s != [] && 0 < q <= s[0].remaining
    requires m.trade.price == s[0].price && m.trade.quantity == q
    ensures var s' := if q == s[0].remaining then s[1..] else [Reduced(s[0], q)] + s[1..];
            SidesShow(OnEvent(v, TradeMatched(m)), side, SideOf(v, side), s')
  {
    var s' := if q == s[0].remaining then s[1..] else [Reduced(s[0], q)] + s[1..];
    var levels := SideOf(v, Opposite(side));
    forall p
      ensures Sum(DeductLevel(levels, s[0].price, q), LevelQty(p)) == Sum(s', OrderQty(p))
    {
      DeductLevelQty(levels, s[0].price, q, p);
      SumCons(s, OrderQty(p));
      SumNonnegative(s, OrderQty(p));
      if q < s[0].remaining {
        SumCons(s', OrderQty(p));
        assert s'[1..] == s[1..];
      }
    }
    DeductLevelQty(levels, s[0].price, q, 0);
  }

  /** The view after the trades of a sweep: what is left of the queue is shown. */
  lemma {:induction false} SweepShows(v: BookView, symbol: string, o: Order, want: int, s: seq<Order>, n: int)
    requires SidesShow(v, o.side, SideOf(v, o.side), s) && NoLevelFor(SideOf(v, o.side), s) && Positive(s)
    ensures var r := Sweep(o.side, o.price, want, s);
            var events := Published(Numbered(n, TradesOf(symbol, o, r.fills)));
            SidesShow(Replay(v, events), o.side, SideOf(v, o.side), r.queue)
    decreases |s|
  {
    hide Sum, LevelsOk, SidesShow, NoLevelFor, Published, Positive, OnEvent, Crosses, Replay;
    if want > 0 && s != [] && Crosses(o.side, o.price, s[0].price) {
      var q := Min(want, s[0].remaining);
      var v' := OnEvent(v, TradeMatched(Matched(n + 1, TradeOf(symbol, o, Fill(s[0], q)))));
      TailIsPositive(s);
      HeadShows(v, symbol, o, s, q, n);
      if q == s[0].remaining {
        SweepShows(v', symbol, o, want - q, s[1..], n + 1);
        FirstFill(v, symbol, o, [Fill(s[0], q)] + Sweep(o.side, o.price, want - q, s[1..]).fills, n);
      } else {
        FirstFill(v, symbol, o, [Fill(s[0], q)], n);
        NoFill(v', symbol, o, n + 1);
      }
    } else {
      NoFill(v, symbol, o, n);
    }
  }

  lemma TailIsPositive(s: seq<Order>)
    requires Positive(s) && s != []
    ensures s[0].remaining > 0 && Positive(s[1..])
  {
  }

  /** The first fill of a sweep, as the view sees it. */
  lemma HeadShows(v: BookView, symbol: string, o: Order, s: seq<Order>, q: int, n: int)
    requires SidesShow(v, o.side, SideOf(v, o.side), s) && NoLevelFor(SideOf(v, o.side), s) && Positive(s)
    requires s != [] && 0 < q <= s[0].remaining
    ensures var v' := OnEvent(v, TradeMatched(Matched(n + 1, TradeOf(symbol, o, Fill(s[0], q)))));
            var s' := if q == s[0].remaining then s[1..] else [Reduced(s[0], q)] + s[1..];
            SidesShow(v', o.side, SideOf(v, o.side), s') && SideOf(v', o.side) == SideOf(v, o.side)
    ensures NoLevelFor(SideOf(v, o.side), s[1..])
  {
    hide LevelsOk, OnEvent, Sum, Shows;
    var m := Matched(n + 1, TradeOf(symbol, o, Fill(s[0], q)));
    assert m.trade.price == s[0].price && m.trade.quantity == q;
    TradeShows(v, o.side, s, q, m);
  }

  /** Replaying the trades of some fills replays the first one first. */
  lemma FirstFill(v: BookView, symbol: string, o: Order, fills: seq<Fill>, n: int)
    requires fills != []
    ensures Replay(v, Published(Numbered(n, TradesOf(symbol, o, fills))))
         == Replay(OnEvent(v, TradeMatched(Matched(n + 1, TradeOf(symbol, o, fills[0])))),
                   Published(Numbered(n + 1, TradesOf(symbol, o, fills[1..]))))
  {
    hide OnEvent, Replay, TradeOf;
    var m := Matched(n + 1, TradeOf(symbol, o, fills[0]));
    var tail := Published(Numbered(n + 1, TradesOf(symbol, o, fills[1..])));
    assert Published(Numbered(n, TradesOf(symbol, o, fills))) == [TradeMatched(m)] + tail;
    ReplayAppend(v, [TradeMatched(m)], tail);
    ReplayOne(v, TradeMatched(m));
  }

  lemma NoFill(v: BookView, symbol: string, o: Order, n: int)
    ensures Replay(v, Published(Numbered(n, TradesOf(symbol, o, [])))) == v
  {
    assert Published(Numbered(n, TradesOf(symbol, o, []))) == [];
  }

  lemma RestShows(levels: seq<BookLevel>, s: seq<Order>, o: Order)
    requires Shows(levels, s) && o.remaining > 0
    ensures Shows(AddLevel(levels, o.price, o.remaining), Join(o.side, s, o))
  {
    forall p
      ensures Sum(AddLevel(levels, o.price, o.remaining), LevelQty(p)) == Sum(Join(o.side, s, o), OrderQty(p))
    {
      AddLevelQty(levels, o.price, o.remaining, p);
      JoinSum(o.side, s, o, OrderQty(p));
    }
    AddLevelQty(levels, o.price, o.remaining, 0);
  }

  lemma RemovalShows(levels: seq<BookLevel>, s: seq<Order>, k: int)
    requires Shows(levels, s) && Positive(s) && 0 <= k < |s|
    ensures Shows(DeductLevel(levels, s[k].price, s[k].remaining), Without(s, k))
  {
    forall p
      ensures Sum(DeductLevel(levels, s[k].price, s[k].remaining), LevelQty(p)) == Sum(Without(s, k), OrderQty(p))
    {
      DeductLevelQty(levels, s[k].price, s[k].remaining, p);
      WithoutSum(s, k, OrderQty(p));
      SumNonnegative(s, OrderQty(p));
    }
    DeductLevelQty(levels, s[k].price, s[k].remaining, 0);
  }

  /** A side's levels stand only at prices of its own resting orders. */
  lemma LevelsHaveOrders(levels: seq<BookLevel>, own: seq<Order>, s: seq<Order>)
    requires Shows(levels, own)
    requires forall i, j :: 0 <= i < |own| && 0 <= j < |s| ==> own[i].price != s[j].price
    ensures NoLevelFor(levels, s)
  {
    forall i, j | 0 <= i < |levels| && 0 <= j < |s|
      ensures levels[i].price != s[j].price
    {
      var p := s[j].price;
      if levels[i].price == p {
        SumNonnegative(levels, LevelQty(p));
        NoOrderNoQty(own, p);
      }
    }
  }

  lemma {:induction false} NoOrderNoQty(s: seq<Order>, p: int)
    requires forall i :: 0 <= i < |s| ==> s[i].price != p
    ensures Sum(s, OrderQty(p)) == 0
  {
    if s != [] {
      NoOrderNoQty(s[..|s| - 1], p);
    }
  }

  lemma PlaceMirrors(symbol: string, sh: Shard, o: Order, v: BookView)
    requires Ordered(sh.book) && Uncrossed(sh.book) && Mirrors(v, sh.book)
    ensures var sh' := HandlePlace(symbol, sh, o);
            Mirrors(Replay(v, sh'.log[|sh.log|..]), sh'.book)
  {
    var m := Match(symbol, sh.book, o);
    var own, s := Queue(sh.book, o.side), Queue(sh.book, Opposite(o.side));
    var trades := Published(Numbered(sh.seqNo, m.trades));
    var rested := if m.order.remaining > 0 then [OrderRested(m.order)] else [];
    assert HandlePlace(symbol, sh, o).log[|sh.log|..] == trades + rested;
    LevelsHaveOrders(SideOf(v, o.side), own, s);
    SweepShows(v, symbol, o, o.remaining, s, sh.seqNo);
    ReplayAppend(v, trades, rested);
    if m.order.remaining > 0 {
      ReplayOne(Replay(v, trades), OrderRested(m.order));
      RestShows(SideOf(v, o.side), own, m.order);
    }
  }

  lemma CancelMirrors(sh: Shard, c: CancelInfo, v: BookView)
    requires Ordered(sh.book) && Mirrors(v, sh.book)
    ensures var sh' := HandleCancel(sh, c);
            Mirrors(Replay(v, sh'.log[|sh.log|..]), sh'.book)
  {
    var sh' := HandleCancel(sh, c);
    var i, j := Find(sh.book.bids, c.orderId), Find(sh.book.asks, c.orderId);
    if sh'.log == sh.log {
      assert sh'.log[|sh.log|..] == [];
    } else {
      assert sh'.log[|sh.log|..] == [sh'.log[|sh.log|]];
      ReplayOne(v, sh'.log[|sh.log|]);
      if i < |sh.book.bids| {
        RemovalShows(v.bids, sh.book.bids, i);
      } else {
        RemovalShows(v.asks, sh.book.asks, j);
      }
    }
  }

  /** After every run, a view that has handled the events in publish order mirrors the book. */
  lemma {:induction false} RunMirrors(symbol: string, cmds: seq<Command>)
    requires AllAdmissible(cmds)
    ensures Mirrors(Replay(BookView([], []), Run(symbol, FRESH, cmds).log), Run(symbol, FRESH, cmds).book)
  {
    if cmds != [] {
      var k := |cmds| - 1;
      RunMirrors(symbol, cmds[..k]);
      RunBook(symbol, FRESH, cmds[..k]);
      var sh, sh' := Run(symbol, FRESH, cmds[..k]), Run(symbol, FRESH, cmds);
      var v := Replay(BookView([], []), sh.log);
      assert sh'.log == sh.log + sh'.log[|sh.log|..];
      ReplayAppend(BookView([], []), sh.log, sh'.log[|sh.log|..]);
      match cmds[k]
      case PlaceCommand(Some(o)) => PlaceMirrors(symbol, sh, o, v);
      case CancelCommand(Some(c)) => CancelMirrors(sh, c, v);
      case _ =>
    }
  }

  // ---- The service object ----------------------------------------------------------------

  function ViewFor(books: map<string, BookView>, symbol: string): BookView {
    if symbol in books then books[symbol] else BookView([], [])
  }

  method AddLevelInPlace(levels: seq<BookLevel>, price: int, qty: int) returns (r: seq<BookLevel>)
    ensures r == AddLevel(levels, price, qty)
  {
    var i := 0;
    while i < |levels|
      invariant 0 <= i <= |levels|
      invariant forall k :: 0 <= k < i ==> levels[k].price != price
    {
      if levels[i].price == price {
        return levels[i := levels[i].(quantity := levels[i].quantity + qty)];
      }
      i := i + 1;
    }
    r := levels + [BookLevel(price, qty)];
  }

  method DeductLevelInPlace(levels: seq<BookLevel>, price: int, qty: int) returns (r: seq<BookLevel>)
    ensures r == DeductLevel(levels, price, qty)
  {
    var i := 0;
    while i < |levels|
      invariant 0 <= i <= |levels|
      invariant forall k :: 0 <= k < i ==> levels[k].price != price
    {
      if levels[i].price == price {
        r := levels[i := levels[i].(quantity := levels[i].quantity - qty)];
        if r[i].quantity <= 0 {
          r := r[..i] + r[i + 1..];
        }
        return;
      }
      i := i + 1;
    }
    r := levels;
  }

  function Newest(trades: seq<RecentTrade>): seq<RecentTrade> {
    if |trades| > MAX_RECENT_TRADES then trades[..MAX_RECENT_TRADES] else trades
  }

  /** The recent trades after these trades have been handled one after the other. */
  function RecentAfter(trades: seq<Trade>): seq<RecentTrade> {
    if trades == [] then []
    else
      var t := trades[|trades| - 1];
      Newest([RecentTrade(t.price, t.quantity)] + RecentAfter(trades[..|trades| - 1]))
  }

  /** They are the last trades, at most 100 of them, the newest first. */
  lemma {:induction false} RecentIsNewestFirst(trades: seq<Trade>)
    ensures |RecentAfter(trades)| == Min(|trades|, 100)
    ensures forall i :: 0 <= i < |RecentAfter(trades)| ==>
      var t := trades[|trades| - 1 - i]; RecentAfter(trades)[i] == RecentTrade(t.price, t.quantity)
  {
    if trades != [] {
      var k := |trades| - 1;
      RecentIsNewestFirst(trades[..k]);
      var before := RecentAfter(trades[..k]);
      forall i | 0 <= i < |RecentAfter(trades)|
        ensures var t := trades[k - i]; RecentAfter(trades)[i] == RecentTrade(t.price, t.quantity)
      {
        if i > 0 {
          assert before[i - 1] == RecentTrade(trades[..k][k - i].price, trades[..k][k - i].quantity);
        }
      }
    }
  }

  class Service {
    var books: map<string, BookView>
    var trades: map<string, seq<RecentTrade>>

    constructor ()
      ensures books == map[] && trades == map[]
    {
      books, trades := map[], map[];
    }

    method OnOrderCancelled(e: Event)
      requires e.OrderCancelled?
      modifies this`books
      ensures ViewFor(books, e.symbol) == OnEvent(ViewFor(old(books), e.symbol), e)
      ensures forall s :: s != e.symbol ==> ViewFor(books, s) == ViewFor(old(books), s)
    {
      if e.remaining <= 0 {
        return;
      }
      var book := ViewFor(books, e.symbol);
      var levels := DeductLevelInPlace(SideOf(book, e.side), e.price, e.remaining);
      books := books[e.symbol := WithSide(book, e.side, levels)];
    }

    method OnOrderRested(e: Event)
      requires e.OrderRested?
      modifies this`books
      ensures ViewFor(books, e.order.symbol) == OnEvent(ViewFor(old(books), e.order.symbol), e)
      ensures forall s :: s != e.order.symbol ==> ViewFor(books, s) == ViewFor(old(books), s)
    {
      var book := ViewFor(books, e.order.symbol);
      var levels := AddLevelInPlace(SideOf(book, e.order.side), e.order.price, e.order.remaining);
      books := books[e.order.symbol := WithSide(book, e.order.side, levels)];
    }

    method OnTradeMatched(e: Event)
      requires e.TradeMatched?
      modifies this
      ensures var t := e.matched.trade;
              && ViewFor(books, t.symbol) == OnEvent(ViewFor(old(books), t.symbol), e)
              && (forall s :: s != t.symbol ==> ViewFor(books, s) == ViewFor(old(books), s))
              && trades == old(trades)[t.symbol := Newest([RecentTrade(t.price, t.quantity)]
                                                        + (if t.symbol in old(trades) then old(trades)[t.symbol]
                                                            else []))]
    {
      var t := e.matched.trade;
      var book := ViewFor(books, t.symbol);
      var asks := DeductLevelInPlace(book.asks, t.price, t.quantity);
      var bids := DeductLevelInPlace(book.bids, t.price, t.quantity);
      books := books[t.symbol := BookView(bids, asks)];
      var recent := [RecentTrade(t.price, t.quantity)] + (if t.symbol in trades then trades[t.symbol] else []);
      if |recent| > MAX_RECENT_TRADES {
        recent := recent[..MAX_RECENT_TRADES];
      }
      trades := trades[t.symbol := recent];
    }
  }
}
