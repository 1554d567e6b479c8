/**
 Greedy matching is optimal: for the quantity it takes, a buy pays as little as any other way
 of taking that quantity from the resting orders could, and a sell earns as much.
 */
module Optimality {
  import opened Domain
  import opened PriceTime

  /** A way of taking quantity from every resting order of s, possibly nothing. */
  ghost predicate IsTaking(s: seq<Order>, t: seq<Fill>) {
    && |t| == |s|
    && forall i :: 0 <= i < |s| ==> t[i].resting == s[i] && 0 <= t[i].quantity <= s[i].remaining
  }

  function ValueOf(f: Fill): int {
    f.quantity * f.resting.price
  }

  /** What the taker pays (buy) or earns (sell). */
  ghost function Value(t: seq<Fill>): int {
    Sum(t, ValueOf)
  }

  /** a is at least as good a deal as b for a taker of this side. */
  ghost predicate NoWorse(side: Side, a: int, b: int) {
    if side == Buy then a <= b else a >= b
  }

  lemma GreedyIsOptimal(side: Side, limit: int, want: int, s: seq<Order>, t: seq<Fill>)
    requires Sorted(Opposite(side), s) && Positive(s) && want >= 0
    requires IsTaking(s, t)
    requires Filled(t) == Filled(Sweep(side, limit, want, s).fills)
    ensures NoWorse(side, Value(Sweep(side, limit, want, s).fills), Value(t))
    ensures forall f :: f in Sweep(side, limit, want, s).fills ==> Crosses(side, limit, f.resting.price)
  {
    hide Sweep, Completed, Sorted, Settled;
    var fills := Sweep(side, limit, want, s).fills;
    SweepIsGreedy(side, limit, want, s);
    var n := |fills|;
    if n > 0 {
      var g := Completed(s, fills);
      CompletedTaking(s, fills);
      GreedySettles(side, s, fills);
      PivotBound(side, s, g, t, s[n - 1].price);
    } else {
      ZeroTaking(t);
    }
  }

  /** With all fills but the last whole, every order is settled relative to the last price. */
  lemma GreedySettles(side: Side, s: seq<Order>, fills: seq<Fill>)
    requires Sorted(Opposite(side), s) && Positive(s) && 0 < |fills| <= |s|
    requires forall i :: 0 <= i < |fills| ==> fills[i].resting == s[i] && 0 < fills[i].quantity <= s[i].remaining
    requires forall i :: 0 <= i < |fills| - 1 ==> fills[i].quantity == s[i].remaining
    ensures |Completed(s, fills)| == |s|
    ensures forall i :: 0 <= i < |s| ==> Settled(side, Completed(s, fills)[i], s[|fills| - 1].price)
  {
    hide Sum;
    var n := |fills|;
    CompletedTaking(s, fills);
    forall i | 0 <= i < |s|
      ensures Settled(side, Completed(s, fills)[i], s[n - 1].price)
    {
      if i < n - 1 {
        assert !Better(Opposite(side), s[n - 1].price, s[i].price);
      } else if i > n - 1 {
        assert !Better(Opposite(side), s[i].price, s[n - 1].price);
      }
    }
  }

  /** Relative to a pivot price, a resting order is taken whole, left alone, or at the pivot. */
  ghost predicate Settled(side: Side, f: Fill, pivot: int) {
    || f.resting.price == pivot
    || (f.quantity == f.resting.remaining && Better(Opposite(side), f.resting.price, pivot))
    || (f.quantity == 0 && Better(Opposite(side), pivot, f.resting.price))
  }

  lemma {:induction false} PivotBound(side: Side, s: seq<Order>, g: seq<Fill>, t: seq<Fill>, pivot: int)
    requires IsTaking(s, g) && IsTaking(s, t)
    requires forall i :: 0 <= i < |s| ==> Settled(side, g[i], pivot)
    ensures NoWorse(side, Value(g) - pivot * Filled(g), Value(t) - pivot * Filled(t))
  {
    if s != [] {
      var k := |s| - 1;
      PivotBound(side, s[..k], g[..k], t[..k], pivot);
      PivotTerm(side, g[k], t[k], pivot);
      var a, b, c, d := Filled(g[..k]), g[k].quantity, Filled(t[..k]), t[k].quantity;
      Distribute(pivot, a, b);
      Distribute(pivot, c, d);
      hide ValueOf, Settled;
    }
  }

  lemma Distribute(a: int, b: int, c: int)
    ensures a * (b + c) == a * b + a * c
  {
  }

  lemma PivotTerm(side: Side, g: Fill, t: Fill, pivot: int)
    requires g.resting == t.resting && Settled(side, g, pivot)
    requires 0 <= t.quantity <= t.resting.remaining
    ensures NoWorse(side, ValueOf(g) - pivot * g.quantity, ValueOf(t) - pivot * t.quantity)
  {
    var d, e := t.quantity - g.quantity, g.resting.price - pivot;
    assert ValueOf(t) - pivot * t.quantity - (ValueOf(g) - pivot * g.quantity) == d * e by {
      assert ValueOf(t) == t.quantity * (pivot + e) && ValueOf(g) == g.quantity * (pivot + e);
    }
    if side == Buy {
      assert d * e >= 0;
    } else {
      assert d * e <= 0;
    }
  }

  /** An empty taking for each of these orders. */
  function NoTaking(s: seq<Order>): (t: seq<Fill>)
    ensures |t| == |s| && forall i :: 0 <= i < |s| ==> t[i] == Fill(s[i], 0)
  {
    seq(|s|, i requires 0 <= i < |s| => Fill(s[i], 0))
  }

  /** The fills, extended with an empty taking for every order that was not reached. */
  ghost function Completed(s: seq<Order>, fills: seq<Fill>): seq<Fill>
    requires |fills| <= |s|
  {
    fills + NoTaking(s[|fills|..])
  }

  lemma CompletedTaking(s: seq<Order>, fills: seq<Fill>)
    requires |fills| <= |s| && Positive(s)
    requires forall i :: 0 <= i < |fills| ==> fills[i].resting == s[i] && 0 < fills[i].quantity <= s[i].remaining
    ensures var t := Completed(s, fills);
            && IsTaking(s, t) && Value(t) == Value(fills) && Filled(t) == Filled(fills)
            && forall i :: 0 <= i < |s| ==> t[i] == if i < |fills| then fills[i] else Fill(s[i], 0)
  {
    hide Sum;
    var rest := NoTaking(s[|fills|..]);
    SumAppend(fills, rest, ValueOf);
    SumAppend(fills, rest, QuantityOf);
    AllZero(rest);
  }

  lemma {:induction false} AllZero(t: seq<Fill>)
    requires forall i :: 0 <= i < |t| ==> t[i].quantity == 0
    ensures Value(t) == 0 && Filled(t) == 0
  {
    if t != [] {
      AllZero(t[..|t| - 1]);
    }
  }

  /** Taking nothing in total takes nothing anywhere. */
  lemma {:induction false} ZeroTaking(t: seq<Fill>)
    requires forall i :: 0 <= i < |t| ==> t[i].quantity >= 0
    ensures Filled(t) >= 0
    ensures Filled(t) == 0 ==> Value(t) == 0
  {
    if t != [] {
      ZeroTaking(t[..|t| - 1]);
      if Filled(t) == 0 {
        assert t[|t| - 1].quantity == 0;
      }
    }
  }
}
