/** Rounding costs an order at most half a unit per trade, and half a unit on its reserve. */
module Rounding {
  import opened Domain
  import opened PriceTime
  import opened BookFacts
  import opened EngineRun
  import opened Numeric

  const SCALE: int := 10_000_000_000

  /** The stored product is within half a unit of the exact one. */
  lemma MulUnitsError(p: int, q: int)
    ensures 2 * (p * q) - SCALE <= 2 * SCALE * MulUnits(p, q) <= 2 * (p * q) + SCALE
  {
    var r := Times(Dec(p), Dec(q));
    var u := Units(r);
    ExactProduct(p, q);
    assert -0.5 <= u as real - r * 10_000_000_000.0 <= 0.5;
    assert r * 10_000_000_000.0 * 10_000_000_000.0 == (p * q) as real;
    hide Units, Times, Dec;
    var e := u as real - r * 10_000_000_000.0;
    assert 2.0 * 10_000_000_000.0 * u as real == 2.0 * (p * q) as real + 2.0 * 10_000_000_000.0 * e;
  }

  lemma ExactProduct(p: int, q: int)
    ensures Times(Dec(p), Dec(q)) * 10_000_000_000.0 * 10_000_000_000.0 == (p * q) as real
  {
    assert Dec(p) * 10_000_000_000.0 == p as real;
    assert Dec(q) * 10_000_000_000.0 == q as real;
    RealProduct(p, q);
    Regroup(Dec(p), Dec(q));
  }

  lemma RealProduct(p: int, q: int)
    ensures p as real * q as real == (p * q) as real
  {
  }

  lemma Regroup(a: real, b: real)
    ensures Times(a, b) * 10_000_000_000.0 * 10_000_000_000.0 == Times(a * 10_000_000_000.0, b * 10_000_000_000.0)
  {
  }

  // ---- The trades of one buy order -------------------------------------------------------

  /** What settling a match debits from this buy order's quote balance. */
  ghost function ChargeOf(id: Uuid): Matched -> int {
    (m: Matched) => if m.trade.buyOrderId == id then MulUnits(m.trade.price, m.trade.quantity) else 0
  }

  ghost function BoughtOf(id: Uuid): Matched -> int {
    (m: Matched) => if m.trade.buyOrderId == id then m.trade.quantity else 0
  }

  ghost function FillsOf(id: Uuid): Matched -> int {
    (m: Matched) => if m.trade.buyOrderId == id then 1 else 0
  }

  /** Every trade of this buy order is of a positive quantity and at most at the limit. */
  ghost predicate WithinLimit(ms: seq<Matched>, id: Uuid, limit: int) {
    forall i :: 0 <= i < |ms| && ms[i].trade.buyOrderId == id ==> ms[i].trade.price <= limit && ms[i].trade.quantity > 0
  }

  lemma {:induction false} ChargesBounded(ms: seq<Matched>, id: Uuid, limit: int)
    requires WithinLimit(ms, id, limit)
    ensures 2 * SCALE * Sum(ms, ChargeOf(id)) <= 2 * (limit * Sum(ms, BoughtOf(id))) + SCALE * Sum(ms, FillsOf(id))
  {
    if ms != [] {
      var k := |ms| - 1;
      ChargesBounded(ms[..k], id, limit);
      var t := ms[k].trade;
      if t.buyOrderId == id {
        MulUnitsError(t.price, t.quantity);
        Scaled(t.price, limit, t.quantity);
        Distribute(limit, Sum(ms[..k], BoughtOf(id)), t.quantity);
      }
      hide MulUnits;
    }
  }

  lemma Scaled(p: int, limit: int, q: int)
    requires p <= limit && q >= 0
    ensures p * q <= limit * q
  {
  }

  lemma Distribute(a: int, b: int, c: int)
    ensures a * (b + c) == a * b + a * c
  {
  }

  // ---- In every run of the engine --------------------------------------------------------

  lemma {:induction false} BoughtIsTraded(log: seq<Event>, id: Uuid)
    requires forall i :: 0 <= i < |Matches(log)| ==> Matches(log)[i].trade.quantity > 0
    ensures Sum(Matches(log), BoughtOf(id)) <= Sum(log, EventTraded(id))
  {
    if log != [] {
      var k := |log| - 1;
      var e := log[k];
      var init := Matches(log[..k]);
      if e.TradeMatched? {
        assert Matches(log) == init + [e.matched];
        assert Matches(log)[|init|] == e.matched;
        SumAppend(init, [e.matched], BoughtOf(id));
        SumOne(e.matched, BoughtOf(id));
        assert TradedOf(id)(e.matched.trade) >= BoughtOf(id)(e.matched);
      } else {
        assert Matches(log) == init;
      }
      assert forall i :: 0 <= i < |init| ==> init[i] == Matches(log)[i];
      BoughtIsTraded(log[..k], id);
    }
  }

  /** With fresh ids, an id's only placement is all that was placed of it. */
  lemma OnlyPlacement(cmds: seq<Command>, i: nat, o: Order)
    requires FreshIds(cmds) && i < |cmds| && cmds[i] == PlaceCommand(Some(o))
    ensures Sum(cmds, PlacedQty(o.id)) == o.quantity
    ensures forall b :: WasPlaced(cmds, b) && b.id == o.id ==> b == o.(remaining := b.remaining)
  {
    var f := PlacedOne(o.id);
    assert Sum(cmds, f) <= 1;
    SumAround(cmds, i, f);
    SumNonnegative(cmds[..i], f);
    SumNonnegative(cmds[i + 1..], f);
    forall j | 0 <= j < |cmds| && j != i
      ensures f(cmds[j]) == 0
    {
      if j < i {
        assert cmds[..i][j] == cmds[j];
      } else {
        assert cmds[i + 1..][j - i - 1] == cmds[j];
      }
    }
    PlacedElsewhere(cmds[..i], o.id);
    PlacedElsewhere(cmds[i + 1..], o.id);
    SumAround(cmds, i, PlacedQty(o.id));
    forall b | WasPlaced(cmds, b) && b.id == o.id
      ensures b == o.(remaining := b.remaining)
    {
      var j :| 0 <= j < |cmds| && IsPlacementOf(cmds[j], b);
      assert f(cmds[j]) == 1;
    }
  }

  lemma {:induction false} PlacedElsewhere(cmds: seq<Command>, id: Uuid)
    requires forall j :: 0 <= j < |cmds| ==> PlacedOne(id)(cmds[j]) == 0
    ensures Sum(cmds, PlacedQty(id)) == 0
  {
    if cmds != [] {
      PlacedElsewhere(cmds[..|cmds| - 1], id);
    }
  }

  lemma TradesWithinLimit(cmds: seq<Command>, ms: seq<Matched>, o: Order)
    requires AllWithinLimits(cmds, ms)
    requires forall b :: WasPlaced(cmds, b) && b.id == o.id ==> b == o.(remaining := b.remaining)
    ensures WithinLimit(ms, o.id, o.price)
    ensures forall i :: 0 <= i < |ms| ==> ms[i].trade.quantity > 0
  {
    hide WasPlaced;
    forall i | 0 <= i < |ms|
      ensures ms[i].trade.quantity > 0
      ensures ms[i].trade.buyOrderId == o.id ==> ms[i].trade.price <= o.price
    {
      assert WithinLimits(cmds, ms[i].trade);
      var b: Order, s: Order :| WasPlaced(cmds, b) && WasPlaced(cmds, s) && Accepts(ms[i].trade, b, s);
    }
  }

  lemma CancelledNonnegative(symbol: string, cmds: seq<Command>, id: Uuid)
    requires AllAdmissible(cmds)
    ensures Sum(Run(symbol, FRESH, cmds).log, EventCancelled(id)) >= 0
  {
    if cmds != [] {
      var k := |cmds| - 1;
      var sh := Run(symbol, FRESH, cmds[..k]);
      CancelledNonnegative(symbol, cmds[..k], id);
      RunBook(symbol, FRESH, cmds[..k]);
      match cmds[k]
      case PlaceCommand(Some(o)) =>
        var m := Match(symbol, sh.book, o);
        var rested := if m.order.remaining > 0 then [OrderRested(m.order)] else [];
        NumberedSums(sh.seqNo, m.trades, id);
        LogSums(sh.log, Published(Numbered(sh.seqNo, m.trades)), rested, EventCancelled(id));
      case CancelCommand(Some(c)) =>
        CancelOrdered(sh.book, c.orderId);
        var sh' := HandleCancel(sh, c);
        if sh' != sh {
          assert sh'.log[..|sh'.log| - 1] == sh.log;
        }
      case _ =>
    }
  }

  /** What the engine buys for an order never exceeds what was placed. */
  lemma BoughtWithinQuantity(symbol: string, cmds: seq<Command>, i: nat, o: Order)
    requires AllAdmissible(cmds) && FreshIds(cmds) && i < |cmds| && cmds[i] == PlaceCommand(Some(o))
    ensures Sum(Matches(Run(symbol, FRESH, cmds).log), BoughtOf(o.id)) <= o.quantity
    ensures WithinLimit(Matches(Run(symbol, FRESH, cmds).log), o.id, o.price)
  {
    hide Run, AllAdmissible, FreshIds, AllWithinLimits, AllPlaced, WasPlaced, WithinLimit, Matches;
    var sh := Run(symbol, FRESH, cmds);
    OnlyPlacement(cmds, i, o);
    RunWithinLimits(symbol, cmds);
    RunBook(symbol, FRESH, cmds) by { FreshOk(); }
    RunConserves(symbol, cmds, o.id);
    CancelledNonnegative(symbol, cmds, o.id);
    TradesWithinLimit(cmds, Matches(sh.log), o);
    BoughtIsTraded(sh.log, o.id);
    SumNonnegative(sh.book.bids, QtyOf(o.id));
    SumNonnegative(sh.book.asks, QtyOf(o.id));
  }

  lemma FreshOk()
    ensures Ordered(FRESH.book) && Uncrossed(FRESH.book)
  {
  }

  /** The rounding bound.  In every run of the engine, the quote units that the trades of a buy
      order are charged, each rounded on its own, exceed the rounded worth of what was bought, at
      the limit, by at most half a unit per trade and half a unit for that product; and for a
      limit that is not negative they exceed the rounded reserve of the order by no more. */
  lemma ChargedWithinReserve(symbol: string, cmds: seq<Command>, i: nat, o: Order)
    requires AllAdmissible(cmds) && FreshIds(cmds) && i < |cmds| && cmds[i] == PlaceCommand(Some(o))
    ensures var ms := Matches(Run(symbol, FRESH, cmds).log);
            var charged, n := Sum(ms, ChargeOf(o.id)), Sum(ms, FillsOf(o.id));
            && 2 * charged <= 2 * MulUnits(o.price, Sum(ms, BoughtOf(o.id))) + n + 1
            && (o.price >= 0 ==> 2 * charged <= 2 * MulUnits(o.price, o.quantity) + n + 1)
  {
    hide Run, AllAdmissible, FreshIds, MulUnits, Matches, WithinLimit;
    var ms := Matches(Run(symbol, FRESH, cmds).log);
    BoughtWithinQuantity(symbol, cmds, i, o);
    ChargesBounded(ms, o.id, o.price);
    MulUnitsError(o.price, Sum(ms, BoughtOf(o.id)));
    if o.price >= 0 {
      MulUnitsMonotone(o.price, Sum(ms, BoughtOf(o.id)), o.quantity);
    }
  }
}
