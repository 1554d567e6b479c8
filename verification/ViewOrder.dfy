/**
 The event bus starts one goroutine per handler and event, so the market-data view may handle the
 events of a run in any order.  Only the order of the events at one price matters: the view at a
 price is a tally of those events alone.
 */
module ViewOrder {
  import opened Domain
  import opened PriceTime
  import opened BookFacts
  import opened EngineRun
  import opened MarketData

  // ---- One price -------------------------------------------------------------------------

  /** The quantities that the view shows at one price. */
  datatype Tally = Tally(bid: int, ask: int)

  function PriceOf(e: Event): int {
    match e
    case TradeMatched(m) => m.trade.price
    case OrderRested(o) => o.price
    case OrderCancelled(_, _, _, price, _) => price
  }

  function Less(had: int, qty: int): int {
    had - Min(had, qty)
  }

  /** What an event at this price does there: a deduction never takes more than there is. */
  function TallyOne(t: Tally, e: Event): Tally {
    match e
    case TradeMatched(m) => Tally(Less(t.bid, m.trade.quantity), Less(t.ask, m.trade.quantity))
    case OrderRested(o) => if o.side == Buy then t.(bid := t.bid + o.remaining) else t.(ask := t.ask + o.remaining)
    case OrderCancelled(_, _, side, _, remaining) =>
      if remaining <= 0 then t
      else if side == Buy then t.(bid := Less(t.bid, remaining)) else t.(ask := Less(t.ask, remaining))
  }

  function Tallied(events: seq<Event>): Tally {
    if events == [] then Tally(0, 0)
    else TallyOne(Tallied(events[..|events| - 1]), events[|events| - 1])
  }

  /** The events at a price, in the order in which they are handled. */
  function AtPrice(events: seq<Event>, p: int): seq<Event> {
    if events == [] then []
    else
      var e := events[|events| - 1];
      AtPrice(events[..|events| - 1], p) + (if PriceOf(e) == p then [e] else [])
  }

  /** The tally of the events at a price. */
  function TallyAt(events: seq<Event>, p: int): Tally {
    Tallied(AtPrice(events, p))
  }

  /** Trades and rested orders are of a positive quantity. */
  ghost predicate EventOk(e: Event) {
    (e.TradeMatched? ==> e.matched.trade.quantity > 0) && (e.OrderRested? ==> e.order.remaining > 0)
  }

  ghost predicate EventsOk(events: seq<Event>) {
    forall i :: 0 <= i < |events| ==> EventOk(events[i])
  }

  // ---- The view is the tally of each price -----------------------------------------------

  ghost function ShownAt(v: BookView, p: int): Tally {
    Tally(Sum(v.bids, LevelQty(p)), Sum(v.asks, LevelQty(p)))
  }

  ghost predicate ViewOk(v: BookView) {
    LevelsOk(v.bids) && LevelsOk(v.asks)
  }

  lemma EventTally(v: BookView, e: Event, p: int)
    requires ViewOk(v) && EventOk(e)
    ensures ViewOk(OnEvent(v, e))
    ensures ShownAt(OnEvent(v, e), p) == if PriceOf(e) == p then TallyOne(ShownAt(v, p), e) else ShownAt(v, p)
  {
    hide LevelsOk, AddLevel, DeductLevel, Sum;
    match e
    case TradeMatched(m) =>
      DeductLevelQty(v.bids, m.trade.price, m.trade.quantity, p);
      DeductLevelQty(v.asks, m.trade.price, m.trade.quantity, p);
    case OrderRested(o) =>
      AddLevelQty(SideOf(v, o.side), o.price, o.remaining, p);
    case OrderCancelled(_, _, side, price, remaining) =>
      if remaining > 0 {
        DeductLevelQty(SideOf(v, side), price, remaining, p);
      }
  }

  /** Price by price, an initially empty view shows the tally of the events at that price. */
  lemma {:induction false} ViewIsTally(events: seq<Event>, p: int)
    requires EventsOk(events)
    ensures ViewOk(Replay(BookView([], []), events))
    ensures ShownAt(Replay(BookView([], []), events), p) == Tallied(AtPrice(events, p))
  {
    hide OnEvent, TallyOne;
    if events != [] {
      var k := |events| - 1;
      ViewIsTally(events[..k], p);
      EventTally(Replay(BookView([], []), events[..k]), events[k], p);
      TallyNext(AtPrice(events[..k], p), events[k]);
      hide ShownAt, Tallied;
      assert PriceOf(events[k]) != p ==> AtPrice(events, p) == AtPrice(events[..k], p);
    }
  }

  lemma TallyNext(events: seq<Event>, e: Event)
    ensures Tallied(events + [e]) == TallyOne(Tallied(events), e)
  {
    assert (events + [e])[..|events|] == events;
  }

  // ---- Any order of the events of a run --------------------------------------------------

  lemma {:induction false} RunEventsOk(symbol: string, cmds: seq<Command>)
    requires AllAdmissible(cmds)
    ensures EventsOk(Run(symbol, FRESH, cmds).log)
  {
    if cmds != [] {
      var k := |cmds| - 1;
      var sh := Run(symbol, FRESH, cmds[..k]);
      RunEventsOk(symbol, cmds[..k]);
      RunBook(symbol, FRESH, cmds[..k]);
      match cmds[k]
      case PlaceCommand(Some(o)) =>
        hide Match;
        forall i | 0 <= i < |Match(symbol, sh.book, o).trades|
          ensures Match(symbol, sh.book, o).trades[i].quantity > 0
        {
          MatchTrade(symbol, sh.book, o, i);
        }
      case _ =>
    }
  }

  /** A view that handled any events, in whatever order, agrees with the book after a run if and
      only if at every price they tally as the run's own events do. */
  lemma MirrorsIff(symbol: string, cmds: seq<Command>, events: seq<Event>)
    requires AllAdmissible(cmds) && EventsOk(events)
    ensures Mirrors(Replay(BookView([], []), events), Run(symbol, FRESH, cmds).book)
        <==> forall p :: TallyAt(events, p) == TallyAt(Run(symbol, FRESH, cmds).log, p)
  {
    hide Run, EventsOk, Replay, AllAdmissible, LevelsOk, Sum;
    var sh := Run(symbol, FRESH, cmds);
    var v, w := Replay(BookView([], []), events), Replay(BookView([], []), sh.log);
    RunEventsOk(symbol, cmds);
    RunMirrors(symbol, cmds);
    forall p
      ensures ViewOk(v) && ViewOk(w)
      ensures ShownAt(v, p) == TallyAt(events, p)
      ensures ShownAt(w, p) == TallyAt(sh.log, p)
    {
      ViewIsTally(events, p);
      ViewIsTally(sh.log, p);
    }
    ViewIsTally(events, 0);
    SameShown(v, w, sh.book);
    hide Mirrors, ShownAt, ViewOk, TallyAt;
    if Mirrors(v, sh.book) {
      forall p
        ensures TallyAt(events, p) == TallyAt(sh.log, p)
      {
        assert ShownAt(v, p) == ShownAt(w, p);
      }
    } else {
      var p :| ShownAt(v, p) != ShownAt(w, p);
      assert TallyAt(events, p) != TallyAt(sh.log, p);
    }
  }

  lemma SameShown(v: BookView, w: BookView, b: Book)
    requires ViewOk(v) && Mirrors(w, b)
    ensures Mirrors(v, b) <==> forall p :: ShownAt(v, p) == ShownAt(w, p)
  {
    hide LevelsOk, Sum;
    if forall p :: ShownAt(v, p) == ShownAt(w, p) {
      forall p
        ensures Sum(v.bids, LevelQty(p)) == Sum(b.bids, OrderQty(p))
                && Sum(v.asks, LevelQty(p)) == Sum(b.asks, OrderQty(p))
      {
        assert ShownAt(v, p) == ShownAt(w, p);
      }
    }
  }

  lemma {:induction false} AtPriceMembers(events: seq<Event>, e: Event)
    ensures e in AtPrice(events, PriceOf(e)) <==> e in events
  {
    if events != [] {
      AtPriceMembers(events[..|events| - 1], e);
      assert events == events[..|events| - 1] + [events[|events| - 1]];
    }
  }

  /** The events of different prices may overtake each other freely: every reordering of a run's
      events that keeps the order at each price leaves a view that agrees with the book. */
  lemma ReorderedMirrors(symbol: string, cmds: seq<Command>, events: seq<Event>)
    requires AllAdmissible(cmds)
    requires forall p :: AtPrice(events, p) == AtPrice(Run(symbol, FRESH, cmds).log, p)
    ensures Mirrors(Replay(BookView([], []), events), Run(symbol, FRESH, cmds).book)
  {
    hide Run, AtPrice, AllAdmissible, Mirrors, Replay, EventOk;
    var log := Run(symbol, FRESH, cmds).log;
    RunEventsOk(symbol, cmds);
    forall i | 0 <= i < |events|
      ensures EventOk(events[i])
    {
      AtPriceMembers(events, events[i]);
      AtPriceMembers(log, events[i]);
    }
    MirrorsIff(symbol, cmds, events);
  }

  // ---- The quantity lost to clamping -----------------------------------------------------

  function SideOfTally(t: Tally, side: Side): int {
    if side == Buy then t.bid else t.ask
  }

  /** What an event adds to a side at its price. */
  function Gain(e: Event, side: Side): int {
    if e.OrderRested? && e.order.side == side then e.order.remaining else 0
  }

  /** What an event would take from a side at its price, if there were enough. */
  function Drain(e: Event, side: Side): int {
    match e
    case TradeMatched(m) => m.trade.quantity
    case OrderRested(_) => 0
    case OrderCancelled(_, _, on, _, remaining) => if on == side && remaining > 0 then remaining else 0
  }

  /** How much of the deductions of a side found nothing to deduct from. */
  function Short(events: seq<Event>, side: Side): int {
    if events == [] then 0
    else
      var k := |events| - 1;
      var had, drain := SideOfTally(Tallied(events[..k]), side), Drain(events[k], side);
      Short(events[..k], side) + (if drain > had then drain - had else 0)
  }

  ghost function NetOf(side: Side): Event -> int {
    (e: Event) => Gain(e, side) - Drain(e, side)
  }

  /** A tally is what was added less what should have been deducted, plus what could not be. */
  lemma {:induction false} TallyBalance(events: seq<Event>, side: Side)
    requires EventsOk(events)
    ensures SideOfTally(Tallied(events), side) == Sum(events, NetOf(side)) + Short(events, side)
    ensures SideOfTally(Tallied(events), side) >= 0
  {
    if events != [] {
      var k := |events| - 1;
      assert EventOk(events[k]);
      TallyBalance(events[..k], side);
      TallyStep(Tallied(events[..k]), events[k], side);
      hide TallyOne, Gain, Drain;
    }
  }

  lemma TallyStep(t: Tally, e: Event, side: Side)
    requires EventOk(e) && SideOfTally(t, side) >= 0
    ensures var had, drain := SideOfTally(t, side), Drain(e, side);
            && SideOfTally(TallyOne(t, e), side) == had + Gain(e, side) - Min(had, drain)
            && (drain > 0 ==> Gain(e, side) == 0)
            && Gain(e, side) >= 0 && drain >= 0
  {
  }

  // ---- Any permutation of the events of a run --------------------------------------------

  ghost function NetAt(side: Side, p: int): Event -> int {
    (e: Event) => if PriceOf(e) == p then NetOf(side)(e) else 0
  }

  lemma {:induction false} SumAtPrice(events: seq<Event>, side: Side, p: int)
    ensures Sum(AtPrice(events, p), NetOf(side)) == Sum(events, NetAt(side, p))
  {
    hide PriceOf;
    if events != [] {
      var k := |events| - 1;
      var e := events[k];
      SumAtPrice(events[..k], side, p);
      SumAppend(AtPrice(events[..k], p), if PriceOf(e) == p then [e] else [], NetOf(side));
      SumOne(e, NetOf(side));
      assert NetAt(side, p)(e) == if PriceOf(e) == p then NetOf(side)(e) else 0;
    }
  }

  lemma OneRemoved<X>(b: seq<X>, j: int)
    requires 0 <= j < |b|
    ensures multiset(b) == multiset(b[..j] + b[j + 1..]) + multiset{b[j]}
  {
    assert b == b[..j] + [b[j]] + b[j + 1..];
  }

  lemma RemoveSame<X>(m: multiset<X>, n: multiset<X>, x: X)
    requires m + multiset{x} == n + multiset{x}
    ensures m == n
  {
    assert (m + multiset{x}) - multiset{x} == m;
    assert (n + multiset{x}) - multiset{x} == n;
  }

  /** A sum does not depend on order. */
  lemma {:induction false} SumPermuted<X>(a: seq<X>, b: seq<X>, f: X -> int)
    requires multiset(a) == multiset(b)
    ensures Sum(a, f) == Sum(b, f)
  {
    if a == [] {
      assert |b| == |multiset(b)| == 0;
    } else {
      var k := |a| - 1;
      var x := a[k];
      assert a == a[..k] + [x];
      assert x in multiset(b);
      var j :| 0 <= j < |b| && b[j] == x;
      var rest := b[..j] + b[j + 1..];
      OneRemoved(b, j);
      assert multiset(a) == multiset(a[..k]) + multiset{x};
      RemoveSame(multiset(a[..k]), multiset(rest), x);
      SumPermuted(a[..k], rest, f);
      SumAround(b, j, f);
      SumAppend(b[..j], b[j + 1..], f);
    }
  }

  /** The shortfall of a side at a price. */
  function ShortAt(events: seq<Event>, p: int, side: Side): int {
    Short(AtPrice(events, p), side)
  }

  /** The exact condition for any permutation: the view agrees with the book if and only if at
      every price and side it lost just as much to clamping as it does in publish order. */
  lemma PermutedMirrorsIff(symbol: string, cmds: seq<Command>, events: seq<Event>)
    requires AllAdmissible(cmds) && multiset(events) == multiset(Run(symbol, FRESH, cmds).log)
    ensures Mirrors(Replay(BookView([], []), events), Run(symbol, FRESH, cmds).book)
        <==> forall p, side :: ShortAt(events, p, side) == ShortAt(Run(symbol, FRESH, cmds).log, p, side)
  {
    hide Run, Mirrors, Replay, AllAdmissible, EventOk, SideOfTally, TallyAt, ShortAt;
    var log := Run(symbol, FRESH, cmds).log;
    RunEventsOk(symbol, cmds);
    PermutedOk(log, events);
    MirrorsIff(symbol, cmds, events);
    forall p, side: Side
      ensures SideOfTally(TallyAt(events, p), side) - ShortAt(events, p, side)
           == SideOfTally(TallyAt(log, p), side) - ShortAt(log, p, side)
    {
      SameNet(events, log, p, side);
    }
    ShortDecides(events, log);
  }

  /** Permuted events have the same net effect on every side at every price. */
  lemma SameNet(events: seq<Event>, log: seq<Event>, p: int, side: Side)
    requires EventsOk(events) && EventsOk(log) && multiset(events) == multiset(log)
    ensures SideOfTally(TallyAt(events, p), side) - ShortAt(events, p, side)
         == SideOfTally(TallyAt(log, p), side) - ShortAt(log, p, side)
  {
    SumAtPrice(events, side, p);
    SumAtPrice(log, side, p);
    SumPermuted(events, log, NetAt(side, p));
    AtPriceOk(events, p);
    AtPriceOk(log, p);
    TallyBalance(AtPrice(events, p), side);
    TallyBalance(AtPrice(log, p), side);
    hide EventsOk, SideOfTally;
  }

  /** With equal nets, equal tallies and equal shortfalls are the same thing. */
  lemma ShortDecides(events: seq<Event>, log: seq<Event>)
    requires forall p, side: Side ::
      SideOfTally(TallyAt(events, p), side) - ShortAt(events, p, side)
      == SideOfTally(TallyAt(log, p), side) - ShortAt(log, p, side)
    ensures (forall p :: TallyAt(events, p) == TallyAt(log, p))
       <==> forall p, side :: ShortAt(events, p, side) == ShortAt(log, p, side)
  {
    hide TallyAt, ShortAt, SideOfTally;
    if forall p, side :: ShortAt(events, p, side) == ShortAt(log, p, side) {
      forall p
        ensures TallyAt(events, p) == TallyAt(log, p)
      {
        assert ShortAt(events, p, Buy) == ShortAt(log, p, Buy);
        assert ShortAt(events, p, Sell) == ShortAt(log, p, Sell);
        TallySides(TallyAt(events, p), TallyAt(log, p));
      }
    } else {
      var p, side :| ShortAt(events, p, side) != ShortAt(log, p, side);
      assert SideOfTally(TallyAt(events, p), side) != SideOfTally(TallyAt(log, p), side);
    }
  }

  lemma TallySides(t: Tally, u: Tally)
    ensures t == u <==> SideOfTally(t, Buy) == SideOfTally(u, Buy) && SideOfTally(t, Sell) == SideOfTally(u, Sell)
  {
  }

  lemma PermutedOk(a: seq<Event>, b: seq<Event>)
    requires EventsOk(a) && multiset(a) == multiset(b)
    ensures EventsOk(b)
  {
    hide EventOk;
    forall i | 0 <= i < |b|
      ensures EventOk(b[i])
    {
      assert b[i] in multiset(a);
    }
  }

  lemma {:induction false} AtPriceOk(events: seq<Event>, p: int)
    requires EventsOk(events)
    ensures EventsOk(AtPrice(events, p))
  {
    hide EventOk, PriceOf;
    if events != [] {
      AtPriceOk(events[..|events| - 1], p);
      assert EventOk(events[|events| - 1]);
    }
  }

  // ---- Later events ----------------------------------------------------------------------

  lemma {:induction false} LogGrows(symbol: string, sh: Shard, a: seq<Command>, b: seq<Command>)
    ensures Run(symbol, sh, a).log <= Run(symbol, sh, a + b).log
  {
    hide Handle;
    if b == [] {
      assert a + b == a;
    } else {
      LogGrows(symbol, sh, a, b[..|b| - 1]);
      assert (a + b)[..|a + b| - 1] == a + b[..|b| - 1];
      HandleGrows(symbol, Run(symbol, sh, a + b[..|b| - 1]), b[|b| - 1]);
    }
  }

  lemma HandleGrows(symbol: string, sh: Shard, c: Command)
    ensures sh.log <= Handle(symbol, sh, c).log
  {
    hide Match, Cancel;
  }

  /** For every continuation: a view that handled the events of a run in some order and everything
      later in publish order agrees again if and only if by then its shortfall at every price and
      side is that of the publish order, the difference having been absorbed by later clamping. */
  lemma RecoversIff(symbol: string, cmds: seq<Command>, more: seq<Command>, events: seq<Event>)
    requires AllAdmissible(cmds + more) && multiset(events) == multiset(Run(symbol, FRESH, cmds).log)
    ensures Run(symbol, FRESH, cmds).log <= Run(symbol, FRESH, cmds + more).log
    ensures var log := Run(symbol, FRESH, cmds + more).log;
            var handled := events + log[|Run(symbol, FRESH, cmds).log|..];
            Mirrors(Replay(BookView([], []), handled), Run(symbol, FRESH, cmds + more).book)
            <==> forall p, side :: ShortAt(handled, p, side) == ShortAt(log, p, side)
  {
    hide Run, Mirrors, Replay, AllAdmissible, ShortAt;
    LogGrows(symbol, FRESH, cmds, more);
    var first, log := Run(symbol, FRESH, cmds).log, Run(symbol, FRESH, cmds + more).log;
    var handled := events + log[|first|..];
    assert log == first + log[|first|..];
    assert multiset(handled) == multiset(log);
    PermutedMirrorsIff(symbol, cmds + more, handled);
  }

  // ---- Why the order at one price matters ------------------------------------------------

  /** A sell rests and a larger buy at its price trades with it and rests.  A view that handles
      the buy's OrderRested before the TradeMatched deducts the trade from the resting buy as
      well, and then shows less of it than the book holds. */
  lemma OvertakenTrade(symbol: string, a: Order, b: Order)
    requires a.side == Sell && b.side == Buy && a.price == b.price
    requires 0 < a.quantity == a.remaining && a.quantity < b.quantity == b.remaining
    ensures var sh := Run(symbol, FRESH, [PlaceCommand(Some(a)), PlaceCommand(Some(b))]);
            && |sh.log| == 3
            && !Mirrors(Replay(BookView([], []), [sh.log[0], sh.log[2], sh.log[1]]), sh.book)
  {
    var cmds := [PlaceCommand(Some(a)), PlaceCommand(Some(b))];
    var rest := b.(remaining := b.remaining - a.remaining);
    var t := TradeOf(symbol, b, Fill(a, a.remaining));
    hide Run, Sweep, Join;
    var sh := Run(symbol, FRESH, cmds);
    TwoOrders(symbol, a, b);
    var events := [OrderRested(a), OrderRested(rest), TradeMatched(Matched(1, t))];
    var v := Replay(BookView([], []), events);
    hide Replay, Tallied, AtPrice, OnEvent, LevelsOk;
    ViewIsTally(events, b.price);
    ThreeTallies(events, b.price);
    assert Sum(v.bids, LevelQty(b.price)) == Less(rest.remaining, a.remaining);
    SumOne(rest, OrderQty(b.price));
    assert Sum(sh.book.bids, OrderQty(b.price)) == rest.remaining;
  }

  lemma TwoOrders(symbol: string, a: Order, b: Order)
    requires a.side == Sell && b.side == Buy && a.price == b.price && 0 < a.remaining < b.remaining
    ensures var sh := Run(symbol, FRESH, [PlaceCommand(Some(a)), PlaceCommand(Some(b))]);
            var rest := b.(remaining := b.remaining - a.remaining);
            && sh.log == [OrderRested(a), TradeMatched(Matched(1, TradeOf(symbol, b, Fill(a, a.remaining)))),
                 OrderRested(rest)]
            && sh.book == Book([rest], [])
  {
    var cmds := [PlaceCommand(Some(a)), PlaceCommand(Some(b))];
    assert cmds[..1] == [PlaceCommand(Some(a))] && cmds[..1][..0] == [];
    FirstOrder(symbol, a);
    SecondOrder(symbol, a, b);
    hide HandlePlace;
    assert Run(symbol, FRESH, cmds[..1]) == HandlePlace(symbol, FRESH, a);
  }

  lemma FirstOrder(symbol: string, a: Order)
    requires a.side == Sell && a.remaining > 0
    ensures HandlePlace(symbol, FRESH, a) == Shard(Book([], [a]), 0, [OrderRested(a)])
  {
  }

  lemma SecondOrder(symbol: string, a: Order, b: Order)
    requires a.side == Sell && b.side == Buy && a.price == b.price && 0 < a.remaining < b.remaining
    ensures var rest := b.(remaining := b.remaining - a.remaining);
            var trade := Matched(1, TradeOf(symbol, b, Fill(a, a.remaining)));
            var before := Shard(Book([], [a]), 0, [OrderRested(a)]);
            HandlePlace(symbol, before, b) == Shard(Book([rest], []), 1,
                [OrderRested(a), TradeMatched(trade), OrderRested(rest)])
  {
    assert [a][1..] == [];
    assert Sweep(Buy, b.price, b.remaining, [a]) == Sweeping([Fill(a, a.remaining)], b.remaining - a.remaining, []);
    var m := Match(symbol, Book([], [a]), b);
    assert m.trades == [TradeOf(symbol, b, Fill(a, a.remaining))];
    assert Published(Numbered(0, m.trades)) == [TradeMatched(Matched(1, m.trades[0]))];
  }

  lemma ThreeTallies(events: seq<Event>, p: int)
    requires |events| == 3 && forall i :: 0 <= i < 3 ==> PriceOf(events[i]) == p
    ensures Tallied(AtPrice(events, p)) == TallyOne(TallyOne(TallyOne(Tally(0, 0), events[0]), events[1]), events[2])
  {
    hide TallyOne;
    var a, b, c := events[0], events[1], events[2];
    assert events == [a, b, c];
    assert [a, b, c][..2] == [a, b] && [a, b][..1] == [a] && [a][..0] == [];
    assert AtPrice([a], p) == [a];
    assert AtPrice([a, b], p) == [a, b];
    assert AtPrice(events, p) == [a, b, c];
    TallyNext([], a);
    TallyNext([a], b);
    TallyNext([a, b], c);
    assert [] + [a] == [a];
    assert [a] + [b] == [a, b];
    assert [a, b] + [c] == [a, b, c];
  }

  /** If the buy is then cancelled, the deduction of what the book still held of it is clamped, and
      view and book agree again. */
  lemma CancelHeals(symbol: string, a: Order, b: Order)
    requires a.side == Sell && b.side == Buy && a.price == b.price && a.id != b.id
    requires 0 < a.quantity == a.remaining && a.quantity < b.quantity == b.remaining
    ensures var sh := Run(symbol, FRESH,
            [PlaceCommand(Some(a)), PlaceCommand(Some(b)), CancelCommand(Some(CancelInfo(b.id, symbol)))]);
            && |sh.log| == 4
            && Mirrors(Replay(BookView([], []), [sh.log[0], sh.log[2], sh.log[1], sh.log[3]]), sh.book)
  {
    var cancel := CancelInfo(b.id, symbol);
    var cmds := [PlaceCommand(Some(a)), PlaceCommand(Some(b)), CancelCommand(Some(cancel))];
    var rest := b.(remaining := b.remaining - a.remaining);
    var t := TradeOf(symbol, b, Fill(a, a.remaining));
    hide Run, Sweep, Join, OnEvent, LevelsOk;
    TwoOrders(symbol, a, b);
    ThirdCancels(symbol, a, b, cancel);
    var sh := Run(symbol, FRESH, cmds);
    var events := [OrderRested(a), OrderRested(rest), TradeMatched(Matched(1, t)),
                   OrderCancelled(b.id, symbol, Buy, b.price, rest.remaining)];
    hide Replay, Tallied, AtPrice;
    forall p
      ensures ViewOk(Replay(BookView([], []), events))
      ensures ShownAt(Replay(BookView([], []), events), p) == Tally(0, 0)
    {
      ViewIsTally(events, p);
      if p == b.price {
        FourTallies(events, p);
      } else {
        NoneAtPrice(events, p);
      }
    }
    hide Sum;
    ViewIsTally(events, b.price);
    EmptyMirrors(Replay(BookView([], []), events));
  }

  lemma EmptyMirrors(v: BookView)
    requires ViewOk(v) && forall p :: ShownAt(v, p) == Tally(0, 0)
    ensures Mirrors(v, Book([], []))
  {
    forall p
      ensures Sum(v.bids, LevelQty(p)) == 0 && Sum(v.asks, LevelQty(p)) == 0
    {
      assert ShownAt(v, p) == Tally(0, 0);
    }
  }

  lemma {:induction false} NoneAtPrice(events: seq<Event>, p: int)
    requires forall i :: 0 <= i < |events| ==> PriceOf(events[i]) != p
    ensures Tallied(AtPrice(events, p)) == Tally(0, 0)
  {
    if events != [] {
      var k := |events| - 1;
      NoneAtPrice(events[..k], p);
      assert PriceOf(events[k]) != p;
      assert AtPrice(events, p) == AtPrice(events[..k], p);
    }
  }

  lemma FourTallies(events: seq<Event>, p: int)
    requires |events| == 4 && forall i :: 0 <= i < 4 ==> PriceOf(events[i]) == p
    ensures Tallied(AtPrice(events, p))
         == TallyOne(TallyOne(TallyOne(TallyOne(Tally(0, 0), events[0]), events[1]), events[2]), events[3])
  {
    hide TallyOne;
    ThreeTallies(events[..3], p);
    TallyNext(AtPrice(events[..3], p), events[3]);
  }

  lemma ThirdCancels(symbol: string, a: Order, b: Order, c: CancelInfo)
    requires a.side == Sell && b.side == Buy && a.price == b.price && 0 < a.remaining < b.remaining && c.orderId == b.id
    ensures var first := Run(symbol, FRESH, [PlaceCommand(Some(a)), PlaceCommand(Some(b))]);
            var sh := Run(symbol, FRESH, [PlaceCommand(Some(a)), PlaceCommand(Some(b)), CancelCommand(Some(c))]);
            && sh.log == first.log + [OrderCancelled(b.id, c.symbol, Buy, b.price, b.remaining - a.remaining)]
            && sh.book == Book([], [])
  {
    var cmds := [PlaceCommand(Some(a)), PlaceCommand(Some(b)), CancelCommand(Some(c))];
    assert cmds[..2] == [PlaceCommand(Some(a)), PlaceCommand(Some(b))];
    TwoOrders(symbol, a, b);
    var rest := b.(remaining := b.remaining - a.remaining);
    hide HandlePlace;
    assert Find([rest], b.id) == 0;
    assert PriceTime.Without([rest], 0) == [];
  }
}
