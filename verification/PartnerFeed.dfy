/**
 The partner mirror of internal/partnerfeed: every tick compares the tracked partner orders
 with a depth snapshot, cancels the levels that disappeared or drifted, and places new ones.
 Every call to the outside (drawing an id, placing, cancelling) may fail.
 */
module PartnerFeed {
  import opened Domain

  datatype Level = Level(price: real, qty: real)

  datatype Snapshot = Snapshot(bids: seq<Level>, asks: seq<Level>)

  datatype RestingOrder = RestingOrder(orderId: nat, qty: real)

  type SideMap = map<string, RestingOrder>

  datatype PartnerOrder = PartnerOrder(symbol: string, side: Side, price: real, qty: real)

  /** Where an order is tracked. */
  datatype Slot = Slot(symbol: string, side: Side, key: string)

  function TopLevels(src: seq<Level>, n: nat): seq<Level> {
    if |src| <= n then src else src[..n]
  }

  function Abs(r: real): real {
    if r < 0.0 then -r else r
  }

  predicate MaterialDrift(prev: real, next: real) {
    if prev == 0.0 then next != 0.0 else Abs(next - prev) / prev > 0.10
  }

  /** For a positive quantity, no material drift means within ten percent either way. */
  lemma NoDriftIsTenPercent(prev: real, next: real)
    requires prev > 0.0
    ensures !MaterialDrift(prev, next) <==> 0.9 * prev <= next <= 1.1 * prev
  {
    var d := Abs(next - prev) / prev;
    Quotient(Abs(next - prev), prev);
  }

  /** A tracked quantity of zero drifts from any other, and a negative one never drifts. */
  lemma DriftElsewhere(prev: real, next: real)
    requires prev <= 0.0
    ensures MaterialDrift(prev, next) <==> prev == 0.0 && next != 0.0
  {
    if prev < 0.0 {
      NonPositiveQuotient(Abs(next - prev), prev);
    }
  }

  lemma NonPositiveQuotient(a: real, b: real)
    requires a >= 0.0 && b < 0.0
    ensures a / b <= 0.0
  {
    var q := a / b;
    assert q * b == a;
    if q > 0.0 {
      NegativeProduct(q, b);
    }
  }

  lemma NegativeProduct(a: real, b: real)
    requires a > 0.0 && b < 0.0
    ensures a * b < 0.0
  {
  }

  /** The top levels are the first n of the snapshot, or all of them. */
  lemma TopIsPrefix(src: seq<Level>, n: nat)
    ensures TopLevels(src, n) == src[..Min(n, |src|)]
  {
  }

  lemma Quotient(a: real, b: real)
    requires b > 0.0
    ensures a / b > 0.10 <==> a > 0.10 * b
  {
    assert a / b * b == a;
    Scaled(a / b, 0.10, b);
    Scaled(0.10, a / b, b);
  }

  lemma Scaled(a: real, b: real, c: real)
    requires c > 0.0
    ensures a <= b ==> a * c <= b * c
  {
    if a <= b {
      assert 0.0 <= (b - a) * c;
    }
  }

  // ---- The wanted levels -----------------------------------------------------------------

  predicate ValidLevel(l: Level) {
    l.price > 0.0 && l.qty > 0.0
  }

  function Jittered(qty: real, factor: real): real {
    qty * factor
  }

  /** The wanted quantity of each key; of two levels with one key the later wins. */
  function Want(levels: seq<Level>, levelKey: real -> string, jitter: nat -> real): map<string, real> {
    if levels == [] then map[]
    else
      var k := |levels| - 1;
      var w := Want(levels[..k], levelKey, jitter);
      if ValidLevel(levels[k]) then w[levelKey(levels[k].price) := Jittered(levels[k].qty, jitter(k))] else w
  }

  /** The wanted keys are exactly the keys of the valid levels, and no more than there are levels. */
  lemma {:induction false} WantKeys(levels: seq<Level>, levelKey: real -> string, jitter: nat -> real)
    ensures forall key :: key in Want(levels, levelKey, jitter) <==>
      exists i :: 0 <= i < |levels| && ValidLevel(levels[i]) && levelKey(levels[i].price) == key
    ensures |Want(levels, levelKey, jitter)| <= |levels|
  {
    if levels != [] {
      var k := |levels| - 1;
      var init := levels[..k];
      WantKeys(init, levelKey, jitter);
      var w, w' := Want(init, levelKey, jitter), Want(levels, levelKey, jitter);
      forall key
        ensures key in w' <==>
          exists i :: 0 <= i < |levels| && ValidLevel(levels[i]) && levelKey(levels[i].price) == key
      {
        if key in w {
          var i :| 0 <= i < |init| && ValidLevel(init[i]) && levelKey(init[i].price) == key;
          assert levels[i] == init[i];
        }
        if i :| 0 <= i < |levels| && ValidLevel(levels[i]) && levelKey(levels[i].price) == key {
          if i < k {
            assert init[i] == levels[i];
          }
        }
      }
      assert w'.Keys <= w.Keys + {levelKey(levels[k].price)};
      SubsetSize(w'.Keys, w.Keys + {levelKey(levels[k].price)});
    }
  }

  /** At most Depth levels are wanted on a side. */
  lemma AtMostDepth(src: seq<Level>, depth: nat, levelKey: real -> string, jitter: nat -> real)
    ensures |Want(TopLevels(src, depth), levelKey, jitter)| <= depth
  {
    WantKeys(TopLevels(src, depth), levelKey, jitter);
  }

  /** The level at position i is the last valid one with its key. */
  ghost predicate IsLast(levels: seq<Level>, levelKey: real -> string, i: int) {
    && 0 <= i < |levels| && ValidLevel(levels[i])
    && forall j :: i < j < |levels| && ValidLevel(levels[j]) ==> levelKey(levels[j].price) != levelKey(levels[i].price)
  }

  /** The last valid level of a key says how much is wanted there: its own quantity, jittered. */
  lemma {:induction false} WantedQuantity(levels: seq<Level>, levelKey: real -> string, jitter: nat -> real, i: nat)
    requires IsLast(levels, levelKey, i)
    ensures levelKey(levels[i].price) in Want(levels, levelKey, jitter)
    ensures Want(levels, levelKey, jitter)[levelKey(levels[i].price)] == levels[i].qty * jitter(i)
  {
    var k := |levels| - 1;
    if i < k {
      var init := levels[..k];
      assert init[i] == levels[i];
      assert forall j :: i < j < k ==> init[j] == levels[j];
      WantedQuantity(init, levelKey, jitter, i);
    }
  }

  /** The key belongs to a valid level among the first depth ones. */
  ghost predicate Mirrored(src: seq<Level>, depth: nat, levelKey: real -> string, key: string) {
    exists i :: 0 <= i < depth && i < |src| && src[i].price > 0.0 && src[i].qty > 0.0 && levelKey(src[i].price) == key
  }

  /** What is wanted of a side: the keys of the valid levels among its first depth ones. */
  lemma TopKeys(src: seq<Level>, depth: nat, levelKey: real -> string, jitter: nat -> real)
    ensures forall key :: key in Want(TopLevels(src, depth), levelKey, jitter) <==> Mirrored(src, depth, levelKey, key)
  {
    var top := TopLevels(src, depth);
    WantKeys(top, levelKey, jitter);
    TopIsPrefix(src, depth);
    forall key
      ensures key in Want(top, levelKey, jitter) <==> Mirrored(src, depth, levelKey, key)
    {
      if key in Want(top, levelKey, jitter) {
        var i :| 0 <= i < |top| && ValidLevel(top[i]) && levelKey(top[i].price) == key;
        assert src[i] == top[i];
      }
      if Mirrored(src, depth, levelKey, key) {
        var i :| 0 <= i < depth && i < |src| && src[i].price > 0.0 && src[i].qty > 0.0 && levelKey(src[i].price) == key;
        assert top[i] == src[i];
      }
    }
  }

  lemma {:induction false} SubsetSize(a: set<string>, b: set<string>)
    requires a <= b
    ensures |a| <= |b|
  {
    if a != {} {
      var x :| x in a;
      SubsetSize(a - {x}, b - {x});
    }
  }

  // ---- The engine as the mirror sees it --------------------------------------------------

  /** `accepts` says which of the numbered calls succeed; `live` are the partner orders that
      were placed and not cancelled; `refused` are those whose cancel failed. */
  class Submitter {
    const accepts: nat -> bool
    var calls: nat
    var drawn: nat
    var live: map<nat, PartnerOrder>
    ghost var refused: set<nat>

    constructor (accepts: nat -> bool)
      ensures this.accepts == accepts && calls == 0 && drawn == 0 && live == map[] && refused == {}
    {
      this.accepts := accepts;
      calls, drawn, live, refused := 0, 0, map[], {};
    }

    /** Every call since the given one has succeeded. */
    ghost predicate AllAccepted(from: nat)
      reads this
    {
      forall n: nat :: from <= n < calls ==> accepts(n)
    }

    method NewId() returns (id: Option<nat>)
      modifies this
      ensures calls == old(calls) + 1 && live == old(live) && refused == old(refused)
      ensures id == if accepts(old(calls)) then Some(old(drawn)) else None
      ensures drawn == if id.Some? then old(drawn) + 1 else old(drawn)
    {
      id := None;
      if accepts(calls) {
        id := Some(drawn);
        drawn := drawn + 1;
      }
      calls := calls + 1;
    }

    method SubmitPlace(id: nat, o: PartnerOrder) returns (ok: bool)
      modifies this
      ensures calls == old(calls) + 1 && drawn == old(drawn) && refused == old(refused)
      ensures ok == accepts(old(calls))
      ensures live == if ok then old(live)[id := o] else old(live)
    {
      ok := accepts(calls);
      calls := calls + 1;
      if ok {
        live := live[id := o];
      }
    }

    method SubmitCancel(id: nat) returns (ok: bool)
      modifies this
      ensures calls == old(calls) + 1 && drawn == old(drawn)
      ensures ok == accepts(old(calls))
      ensures live == if ok then old(live) - {id} else old(live)
      ensures refused == if ok then old(refused) else old(refused) + {id}
    {
      ok := accepts(calls);
      calls := calls + 1;
      if ok {
        live := live - {id};
      } else {
        refused := refused + {id};
      }
    }
  }

  /** What one tick of one symbol sees: perhaps a snapshot, and the jitter drawn per level. */
  datatype TickInput = TickInput(symbol: string, snapshot: Option<Snapshot>, jitter: nat -> real)

  /** The last tick of the symbol that saw a snapshot, or -1. */
  function LastSeen(ticks: seq<TickInput>, symbol: string): (j: int)
    ensures -1 <= j < |ticks|
    ensures j >= 0 ==> ticks[j].symbol == symbol && ticks[j].snapshot.Some?
    ensures forall i :: j < i < |ticks| ==> ticks[i].symbol != symbol || ticks[i].snapshot.None?
  {
    if ticks == [] then -1
    else
      var k := |ticks| - 1;
      if ticks[k].symbol == symbol && ticks[k].snapshot.Some? then k else LastSeen(ticks[..k], symbol)
  }

  lemma LastSeenNext(ticks: seq<TickInput>, i: nat, symbol: string)
    requires i < |ticks|
    ensures LastSeen(ticks[..i + 1], symbol)
         == if ticks[i].symbol == symbol && ticks[i].snapshot.Some? then i else LastSeen(ticks[..i], symbol)
  {
    assert ticks[..i + 1][..i] == ticks[..i];
  }

  // ---- What is tracked -------------------------------------------------------------------

  /** The nested maps of bookState. */
  datatype Tables = Tables(bids: map<string, SideMap>, asks: map<string, SideMap>) {
    /** The tracked orders of one side of one symbol. */
    function At(symbol: string, side: Side): SideMap {
      var m := if side == Buy then bids else asks;
      if symbol in m then m[symbol] else map[]
    }

    function With(symbol: string, side: Side, s: SideMap): Tables {
      if side == Buy then this.(bids := bids[symbol := s]) else this.(asks := asks[symbol := s])
    }

    predicate Has(slot: Slot) {
      slot.key in At(slot.symbol, slot.side)
    }

    function Get(slot: Slot): RestingOrder
      requires Has(slot)
    {
      At(slot.symbol, slot.side)[slot.key]
    }

    /** Only this side of this symbol differs. */
    ghost predicate SameElsewhere(other: Tables, symbol: string, side: Side) {
      forall s, d :: s != symbol || d != side ==> At(s, d) == other.At(s, d)
    }
  }

  /** What the mirror knows: where each order is tracked. */
  datatype Mirror = Mirror(
    tables: Tables, slots: map<nat, Slot>, live: map<nat, PartnerOrder>, refused: set<nat>, drawn: nat)

  ghost function PlacedAs(t: Tables, slot: Slot, parse: string -> real): PartnerOrder
    requires t.Has(slot)
  {
    PartnerOrder(slot.symbol, slot.side, parse(slot.key), t.Get(slot).qty)
  }

  /** An order is tracked in one slot only, exactly as it was placed; the live orders are the
      tracked ones and those whose cancel was refused. */
  ghost predicate Mirrors(m: Mirror, parse: string -> real) {
    && (forall slot :: m.tables.Has(slot) ==>
         var id := m.tables.Get(slot).orderId; id in m.slots && m.slots[id] == slot)
    && (forall id :: id in m.slots ==> m.tables.Has(m.slots[id]) && m.tables.Get(m.slots[id]).orderId == id)
    && (forall id :: id in m.live <==> id in m.slots || id in m.refused)
    && (forall id :: id in m.slots ==> id !in m.refused && m.live[id] == PlacedAs(m.tables, m.slots[id], parse))
    && (forall id :: id in m.live ==> id < m.drawn)
  }

  lemma CancelMirrors(m: Mirror, parse: string -> real, slot: Slot, ok: bool)
    requires Mirrors(m, parse) && m.tables.Has(slot)
    ensures var id := m.tables.Get(slot).orderId;
            var t := m.tables.With(slot.symbol, slot.side, m.tables.At(slot.symbol, slot.side) - {slot.key});
            Mirrors(Mirror(t, m.slots - {id}, if ok then m.live - {id} else m.live,
                           if ok then m.refused else m.refused + {id}, m.drawn), parse)
  {
    hide Tables.Has, Tables.Get, Tables.With, Tables.At;
    WithoutKey(m.tables, slot);
  }

  lemma WithoutKey(t: Tables, slot: Slot)
    requires t.Has(slot)
    ensures var t' := t.With(slot.symbol, slot.side, t.At(slot.symbol, slot.side) - {slot.key});
            && (forall x: Slot :: t'.Has(x) <==> t.Has(x) && x != slot)
            && (forall x: Slot :: t'.Has(x) ==> t'.Get(x) == t.Get(x))
  {
    hide Tables.With, Tables.At;
    var s := t.At(slot.symbol, slot.side) - {slot.key};
    forall x: Slot
      ensures t.With(slot.symbol, slot.side, s).At(x.symbol, x.side)
           == if x.symbol == slot.symbol && x.side == slot.side then s else t.At(x.symbol, x.side)
    {
      WithAt(t, slot.symbol, slot.side, s, x.symbol, x.side);
    }
  }

  lemma WithKey(t: Tables, slot: Slot, r: RestingOrder)
    ensures var t' := t.With(slot.symbol, slot.side, t.At(slot.symbol, slot.side)[slot.key := r]);
            && (forall x: Slot :: t'.Has(x) <==> t.Has(x) || x == slot)
            && (forall x: Slot :: t'.Has(x) ==> t'.Get(x) == if x == slot then r else t.Get(x))
  {
    hide Tables.With, Tables.At;
    var s := t.At(slot.symbol, slot.side)[slot.key := r];
    forall x: Slot
      ensures t.With(slot.symbol, slot.side, s).At(x.symbol, x.side)
           == if x.symbol == slot.symbol && x.side == slot.side then s else t.At(x.symbol, x.side)
    {
      WithAt(t, slot.symbol, slot.side, s, x.symbol, x.side);
    }
  }

  lemma PlaceMirrors(m: Mirror, parse: string -> real, slot: Slot, qty: real)
    requires Mirrors(m, parse) && !m.tables.Has(slot)
    ensures var t := m.tables.With(slot.symbol, slot.side,
            m.tables.At(slot.symbol, slot.side)[slot.key := RestingOrder(m.drawn, qty)]);
            Mirrors(Mirror(t, m.slots[m.drawn := slot],
                           m.live[m.drawn := PartnerOrder(slot.symbol, slot.side, parse(slot.key), qty)], m.refused,
                               m.drawn + 1), parse)
  {
    hide Tables.Has, Tables.Get, Tables.With, Tables.At;
    WithKey(m.tables, slot, RestingOrder(m.drawn, qty));
  }

  lemma DrawMirrors(m: Mirror, parse: string -> real)
    requires Mirrors(m, parse)
    ensures Mirrors(m.(drawn := m.drawn + 1), parse)
  {
  }

  lemma WithAt(t: Tables, symbol: string, side: Side, m: SideMap, s: string, d: Side)
    ensures t.With(symbol, side, m).At(s, d) == if s == symbol && d == side then m else t.At(s, d)
  {
  }

  lemma WithOnly(t: Tables, symbol: string, side: Side, m: SideMap)
    ensures t.With(symbol, side, m).SameElsewhere(t, symbol, side) && t.With(symbol, side, m).At(symbol, side) == m
  {
  }

  // ---- One side against what is wanted ---------------------------------------------------

  /** Some keys are still to be looked at; every other key is kept iff wanted and not drifted. */
  ghost predicate Pruned(was: SideMap, now: SideMap, want: map<string, real>, todo: set<string>) {
    && todo <= now.Keys <= was.Keys
    && (forall key :: key in now ==> now[key] == was[key])
    && (forall key :: key in was && key !in todo ==>
          (key in now <==> key in want && !MaterialDrift(was[key].qty, want[key])))
  }

  lemma PruneOne(was: SideMap, now: SideMap, want: map<string, real>, todo: set<string>, key: string)
    requires Pruned(was, now, want, todo) && key in todo
    ensures var stale := key !in want || MaterialDrift(now[key].qty, want[key]);
            Pruned(was, if stale then now - {key} else now, want, todo - {key})
  {
    hide MaterialDrift;
  }

  /** Old orders are untouched, new ones have the wanted quantity, and when nothing failed all
      wanted keys but those still to be looked at are there. */
  ghost predicate Topped(was: SideMap, now: SideMap, want: map<string, real>, todo: set<string>, whole: bool) {
    && was.Keys <= now.Keys <= want.Keys && todo <= want.Keys
    && (forall key :: key in now ==> if key in was then now[key] == was[key] else now[key].qty == want[key])
    && (whole ==> forall key :: key in want ==> key in now || key in todo)
  }

  lemma TopOne(was: SideMap, now: SideMap, want: map<string, real>, todo: set<string>, whole: bool, key: string,
               now': SideMap, whole': bool, id: nat)
    requires Topped(was, now, want, todo, whole) && key in todo && (whole' ==> whole)
    requires if key in now then now' == now
             else now' == now[key := RestingOrder(id, want[key])] || (now' == now && !whole')
    ensures Topped(was, now', want, todo - {key}, whole')
  {
  }

  lemma PrunedStart(was: SideMap, want: map<string, real>)
    ensures Pruned(was, was, want, was.Keys)
  {
  }

  lemma PrunedHas(was: SideMap, now: SideMap, want: map<string, real>, todo: set<string>, key: string)
    requires Pruned(was, now, want, todo) && key in todo
    ensures key in now
  {
  }

  lemma ToppedStart(was: SideMap, want: map<string, real>)
    requires was.Keys <= want.Keys
    ensures Topped(was, was, want, want.Keys, true)
  {
  }

  /** One side after a snapshot: everything tracked is wanted and within the drift; what was
      wanted and had not drifted is untouched, anything else has exactly the wanted quantity;
      and when no call failed every wanted level is tracked. */
  ghost predicate Synced(was: SideMap, now: SideMap, want: map<string, real>, whole: bool) {
    && (forall key :: key in now ==> key in want && !MaterialDrift(now[key].qty, want[key]))
    && (forall key :: key in now ==>
          if key in was && !MaterialDrift(was[key].qty, want[key]) then now[key] == was[key]
            else now[key].qty == want[key])
    && (forall key :: key in was && key in want ==> MaterialDrift(was[key].qty, want[key]) || key in now)
    && (whole ==> now.Keys == want.Keys)
  }

  lemma SyncedKeys(was: SideMap, now: SideMap, want: map<string, real>, whole: bool)
    requires Synced(was, now, want, whole)
    ensures now.Keys <= want.Keys && (whole ==> now.Keys == want.Keys)
    ensures Follows(now, want, whole)
  {
  }

  /** The side is as a snapshot wanted it: nothing else is tracked, nothing has drifted, and when
      no call failed everything wanted is tracked. */
  ghost predicate Follows(now: SideMap, want: map<string, real>, whole: bool) {
    && (forall key :: key in now ==> key in want && !MaterialDrift(now[key].qty, want[key]))
    && (whole ==> now.Keys == want.Keys)
  }

  lemma FollowsWeaken(now: SideMap, want: map<string, real>, whole: bool, whole': bool)
    requires Follows(now, want, whole) && (whole' ==> whole)
    ensures Follows(now, want, whole')
  {
  }

  lemma SyncedWeaken(was: SideMap, now: SideMap, want: map<string, real>, whole: bool, whole': bool)
    requires Synced(was, now, want, whole) && (whole' ==> whole)
    ensures Synced(was, now, want, whole')
  {
  }

  lemma KeptIsWanted(was: SideMap, kept: SideMap, want: map<string, real>)
    requires Pruned(was, kept, want, {})
    ensures kept.Keys <= want.Keys
  {
  }

  lemma SyncedFrom(was: SideMap, kept: SideMap, now: SideMap, want: map<string, real>, placed: bool, whole: bool)
    requires Pruned(was, kept, want, {}) && Topped(kept, now, want, {}, placed) && (whole ==> placed)
    ensures Synced(was, now, want, whole)
  {
    forall q: real
      ensures !MaterialDrift(q, q)
    {
    }
    hide MaterialDrift;
  }

  /** The map of wanted quantities, built level by level. */
  method WantedLevels(levels: seq<Level>, levelKey: real -> string, jitter: nat -> real)
    returns (want: map<string, real>)
    ensures want == Want(levels, levelKey, jitter)
  {
    want := map[];
    var i := 0;
    while i < |levels|
      invariant 0 <= i <= |levels|
      invariant want == Want(levels[..i], levelKey, jitter)
    {
      WantNext(levels, levelKey, jitter, i);
      if levels[i].price > 0.0 && levels[i].qty > 0.0 {
        want := want[levelKey(levels[i].price) := Jittered(levels[i].qty, jitter(i))];
      }
      i := i + 1;
    }
    assert levels[..i] == levels;
  }

  lemma WantNext(levels: seq<Level>, levelKey: real -> string, jitter: nat -> real, i: nat)
    requires i < |levels|
    ensures Want(levels[..i + 1], levelKey, jitter)
         == if ValidLevel(levels[i])
            then Want(levels[..i], levelKey, jitter)[levelKey(levels[i].price) := Jittered(levels[i].qty, jitter(i))]
            else Want(levels[..i], levelKey, jitter)
  {
    assert levels[..i + 1][..i] == levels[..i];
  }

  // ---- A sequence of ticks ---------------------------------------------------------------

  /** The mirror of the symbol is as this tick wanted it. */
  ghost predicate FollowsTick(now: Tables, t: TickInput, depth: nat, levelKey: real -> string, whole: bool)
    requires t.snapshot.Some?
  {
    && Follows(now.At(t.symbol, Buy), Want(TopLevels(t.snapshot.value.bids, depth), levelKey, t.jitter), whole)
    && Follows(now.At(t.symbol, Sell), Want(TopLevels(t.snapshot.value.asks, depth), levelKey, t.jitter), whole)
  }

  /** Every symbol is as its last snapshot wanted it, and one without a snapshot is as it was. */
  ghost predicate AllFollow(start: Tables, now: Tables, ticks: seq<TickInput>, depth: nat, levelKey: real -> string,
                            whole: bool)
  {
    forall s ::
      if LastSeen(ticks, s) < 0 then now.At(s, Buy) == start.At(s, Buy) && now.At(s, Sell) == start.At(s, Sell)
      else FollowsTick(now, ticks[LastSeen(ticks, s)], depth, levelKey, whole)
  }

  lemma NothingYet(start: Tables, depth: nat, levelKey: real -> string, whole: bool)
    ensures AllFollow(start, start, [], depth, levelKey, whole)
  {
  }

  /** What Tick promises of one symbol. */
  ghost predicate Ticked(was: Tables, now: Tables, t: TickInput, depth: nat, levelKey: real -> string, whole: bool) {
    && (forall s, d :: s != t.symbol || t.snapshot.None? ==> now.At(s, d) == was.At(s, d))
    && (t.snapshot.Some? ==>
          && Synced(was.At(t.symbol, Buy), now.At(t.symbol, Buy),
                    Want(TopLevels(t.snapshot.value.bids, depth), levelKey, t.jitter), whole)
          && Synced(was.At(t.symbol, Sell), now.At(t.symbol, Sell),
                    Want(TopLevels(t.snapshot.value.asks, depth), levelKey, t.jitter), whole))
  }

  lemma OneMore(start: Tables, was: Tables, now: Tables, ticks: seq<TickInput>, i: nat, depth: nat,
                levelKey: real -> string, before: bool, during: bool, whole: bool)
    requires i < |ticks| && (whole ==> before && during)
    requires AllFollow(start, was, ticks[..i], depth, levelKey, before)
    requires Ticked(was, now, ticks[i], depth, levelKey, during)
    ensures AllFollow(start, now, ticks[..i + 1], depth, levelKey, whole)
  {
    hide Synced, Follows, Want, TopLevels;
    var t := ticks[i];
    forall s
      ensures if LastSeen(ticks[..i + 1], s) < 0
              then now.At(s, Buy) == start.At(s, Buy) && now.At(s, Sell) == start.At(s, Sell)
              else FollowsTick(now, ticks[..i + 1][LastSeen(ticks[..i + 1], s)], depth, levelKey, whole)
    {
      LastSeenNext(ticks, i, s);
      if t.symbol == s && t.snapshot.Some? {
        NowFollows(was, now, t, depth, levelKey, during, whole);
      } else if LastSeen(ticks[..i], s) >= 0 {
        var u := ticks[LastSeen(ticks[..i], s)];
        StillFollows(was, now, u, depth, levelKey, before, whole);
      }
    }
  }

  lemma NowFollows(was: Tables, now: Tables, t: TickInput, depth: nat, levelKey: real -> string, during: bool,
                    whole: bool)
    requires t.snapshot.Some? && (whole ==> during) && Ticked(was, now, t, depth, levelKey, during)
    ensures FollowsTick(now, t, depth, levelKey, whole)
  {
    hide Synced, Follows, Want, TopLevels, Tables.At;
    var wantBids := Want(TopLevels(t.snapshot.value.bids, depth), levelKey, t.jitter);
    var wantAsks := Want(TopLevels(t.snapshot.value.asks, depth), levelKey, t.jitter);
    SyncedKeys(was.At(t.symbol, Buy), now.At(t.symbol, Buy), wantBids, during);
    SyncedKeys(was.At(t.symbol, Sell), now.At(t.symbol, Sell), wantAsks, during);
    FollowsWeaken(now.At(t.symbol, Buy), wantBids, during, whole);
    FollowsWeaken(now.At(t.symbol, Sell), wantAsks, during, whole);
  }

  lemma StillFollows(was: Tables, now: Tables, t: TickInput, depth: nat, levelKey: real -> string, before: bool,
                      whole: bool)
    requires t.snapshot.Some? && (whole ==> before) && FollowsTick(was, t, depth, levelKey, before)
    requires now.At(t.symbol, Buy) == was.At(t.symbol, Buy) && now.At(t.symbol, Sell) == was.At(t.symbol, Sell)
    ensures FollowsTick(now, t, depth, levelKey, whole)
  {
    hide Follows, Want, TopLevels, Tables.At;
    var bids, asks := TopLevels(t.snapshot.value.bids, depth), TopLevels(t.snapshot.value.asks, depth);
    FollowsWeaken(now.At(t.symbol, Buy), Want(bids, levelKey, t.jitter), before, whole);
    FollowsWeaken(now.At(t.symbol, Sell), Want(asks, levelKey, t.jitter), before, whole);
  }

  // ---- The mirror ------------------------------------------------------------------------

  class Bot {
    const depth: nat
    const levelKey: real -> string
    const parseLevelKey: string -> real
    const engine: Submitter
    var bids: map<string, SideMap>
    var asks: map<string, SideMap>
    /** Where each tracked order is tracked. */
    ghost var slots: map<nat, Slot>

    constructor (depth: nat, levelKey: real -> string, parseLevelKey: string -> real, engine: Submitter)
      requires engine.calls == 0 && engine.live == map[] && engine.refused == {}
      ensures this.depth == depth && this.levelKey == levelKey && this.parseLevelKey == parseLevelKey
              && this.engine == engine
      ensures Valid() && bids == map[] && asks == map[]
    {
      this.depth, this.levelKey, this.parseLevelKey, this.engine := depth, levelKey, parseLevelKey, engine;
      bids, asks, slots := map[], map[], map[];
    }

    function View(): Tables
      reads this
    {
      Tables(bids, asks)
    }

    /** The tracked orders of one side of one symbol. */
    function At(symbol: string, side: Side): SideMap
      reads this
    {
      View().At(symbol, side)
    }

    ghost function State(): Mirror
      reads this, engine
    {
      Mirror(View(), slots, engine.live, engine.refused, engine.drawn)
    }

    ghost predicate Valid()
      reads this, engine
    {
      Mirrors(State(), parseLevelKey) && (engine.AllAccepted(0) ==> engine.refused == {})
    }

    /** The nested map of the source: writing one side of one symbol. */
    method Store(symbol: string, side: Side, m: SideMap)
      modifies this`bids, this`asks
      ensures View() == old(View()).With(symbol, side, m)
    {
      if side == Buy {
        bids := bids[symbol := m];
      } else {
        asks := asks[symbol := m];
      }
    }

    /** Cancel a tracked order; it is forgotten even when the cancel is refused. */
    method CancelLevel(symbol: string, side: Side, key: string)
      requires Valid() && key in At(symbol, side)
      modifies this, engine
      ensures Valid()
      ensures View().SameElsewhere(old(View()), symbol, side)
      ensures At(symbol, side) == old(At(symbol, side)) - {key}
      ensures engine.calls == old(engine.calls) + 1 && engine.drawn == old(engine.drawn)
    {
      hide Mirrors, Tables.With;
      var id := At(symbol, side)[key].orderId;
      ghost var before := State();
      var ok := engine.SubmitCancel(id);
      CancelMirrors(before, parseLevelKey, Slot(symbol, side, key), ok);
      Store(symbol, side, At(symbol, side) - {key});
      slots := slots - {id};
      WithOnly(old(View()), symbol, side, old(At(symbol, side)) - {key});
      assert engine.AllAccepted(0) ==> ok;
    }

    /** Place and track a level; nothing is tracked when no id could be drawn or the engine
        refused the order. */
    method PlaceLevel(symbol: string, side: Side, key: string, qty: real)
      requires Valid() && key !in At(symbol, side)
      modifies this, engine
      ensures Valid()
      ensures engine.calls > old(engine.calls)
      ensures View().SameElsewhere(old(View()), symbol, side)
      ensures || At(symbol, side) == old(At(symbol, side))[key := RestingOrder(old(engine.drawn), qty)]
              || (At(symbol, side) == old(At(symbol, side)) && !engine.AllAccepted(old(engine.calls)))
    {
      hide Mirrors, Tables.With;
      ghost var before := State();
      PlaceMirrors(before, parseLevelKey, Slot(symbol, side, key), qty);
      DrawMirrors(before, parseLevelKey);
      var id := engine.NewId();
      if id.None? {
        return;
      }
      var ok := engine.SubmitPlace(id.value, PartnerOrder(symbol, side, parseLevelKey(key), qty));
      if !ok {
        return;
      }
      Store(symbol, side, At(symbol, side)[key := RestingOrder(id.value, qty)]);
      slots := slots[id.value := Slot(symbol, side, key)];
      WithOnly(old(View()), symbol, side, old(At(symbol, side))[key := RestingOrder(id.value, qty)]);
    }

    method Sync(symbol: string, side: Side, levels: seq<Level>, jitter: nat -> real)
      requires Valid()
      modifies this, engine
      ensures Valid() && engine.calls >= old(engine.calls)
      ensures View().SameElsewhere(old(View()), symbol, side)
      ensures Synced(old(At(symbol, side)), At(symbol, side), Want(levels, levelKey, jitter),
              engine.AllAccepted(old(engine.calls)))
    {
      hide Mirrors, Pruned, Topped, Synced;
      ghost var was, first := At(symbol, side), engine.calls;
      var want := WantedLevels(levels, levelKey, jitter);
      CancelStale(symbol, side, want);
      ghost var kept, second := At(symbol, side), engine.calls;
      KeptIsWanted(was, kept, want);
      PlaceMissing(symbol, side, want);
      assert engine.AllAccepted(first) ==> engine.AllAccepted(second);
      SyncedFrom(was, kept, At(symbol, side), want, engine.AllAccepted(second), engine.AllAccepted(first));
    }

    method CancelStale(symbol: string, side: Side, want: map<string, real>)
      requires Valid()
      modifies this, engine
      ensures Valid() && engine.calls >= old(engine.calls)
      ensures View().SameElsewhere(old(View()), symbol, side)
      ensures Pruned(old(At(symbol, side)), At(symbol, side), want, {})
    {
      hide Mirrors, MaterialDrift, Pruned;
      ghost var was := At(symbol, side);
      var todo := At(symbol, side).Keys;
      assert Pruned(was, was, want, was.Keys) by { PrunedStart(was, want); }
      while todo != {}
        invariant Valid() && engine.calls >= old(engine.calls)
        invariant View().SameElsewhere(old(View()), symbol, side)
        invariant Pruned(was, At(symbol, side), want, todo)
        decreases |todo|
      {
        var key :| key in todo;
        PruneOne(was, At(symbol, side), want, todo, key);
        PrunedHas(was, At(symbol, side), want, todo, key);
        if key !in want || MaterialDrift(At(symbol, side)[key].qty, want[key]) {
          CancelLevel(symbol, side, key);
        }
        todo := todo - {key};
      }
    }

    method PlaceMissing(symbol: string, side: Side, want: map<string, real>)
      requires Valid() && At(symbol, side).Keys <= want.Keys
      modifies this, engine
      ensures Valid() && engine.calls >= old(engine.calls)
      ensures View().SameElsewhere(old(View()), symbol, side)
      ensures Topped(old(At(symbol, side)), At(symbol, side), want, {}, engine.AllAccepted(old(engine.calls)))
    {
      hide Mirrors, Topped;
      ghost var was := At(symbol, side);
      ghost var first := engine.calls;
      var todo := want.Keys;
      assert Topped(was, was, want, todo, true) by { ToppedStart(was, want); }
      while todo != {}
        invariant Valid() && engine.calls >= first
        invariant View().SameElsewhere(old(View()), symbol, side)
        invariant Topped(was, At(symbol, side), want, todo, engine.AllAccepted(first)) && todo <= want.Keys
        decreases |todo|
      {
        ghost var now, whole, id, calls := At(symbol, side), engine.AllAccepted(first), engine.drawn, engine.calls;
        var key :| key in todo;
        if key !in At(symbol, side) {
          PlaceLevel(symbol, side, key, want[key]);
          assert engine.AllAccepted(first) ==> engine.AllAccepted(calls) && whole;
        }
        TopOne(was, now, want, todo, whole, key, At(symbol, side), engine.AllAccepted(first), id);
        todo := todo - {key};
      }
    }

    method Tick(symbol: string, snapshot: Option<Snapshot>, jitter: nat -> real)
      requires Valid()
      modifies this, engine
      ensures Valid() && engine.calls >= old(engine.calls)
      ensures Ticked(old(View()), View(), TickInput(symbol, snapshot, jitter), depth, levelKey,
                     engine.AllAccepted(old(engine.calls)))
      ensures snapshot.Some? ==> forall key ::
        && (key in At(symbol, Buy) ==> Mirrored(snapshot.value.bids, depth, levelKey, key))
        && (key in At(symbol, Sell) ==> Mirrored(snapshot.value.asks, depth, levelKey, key))
      ensures snapshot.Some? && engine.AllAccepted(old(engine.calls)) ==> forall key ::
        && (key in At(symbol, Buy) <==> Mirrored(snapshot.value.bids, depth, levelKey, key))
        && (key in At(symbol, Sell) <==> Mirrored(snapshot.value.asks, depth, levelKey, key))
    {
      hide Mirrors, Synced, Mirrored, Want, TopLevels;
      if snapshot.None? {
        return;
      }
      ghost var first, wasBids, wasAsks := engine.calls, At(symbol, Buy), At(symbol, Sell);
      ghost var wantBids := Want(TopLevels(snapshot.value.bids, depth), levelKey, jitter);
      ghost var wantAsks := Want(TopLevels(snapshot.value.asks, depth), levelKey, jitter);
      Sync(symbol, Buy, TopLevels(snapshot.value.bids, depth), jitter);
      ghost var bidsWhole, second := engine.AllAccepted(first), engine.calls;
      Sync(symbol, Sell, TopLevels(snapshot.value.asks, depth), jitter);
      assert engine.AllAccepted(first) ==> bidsWhole && engine.AllAccepted(second);
      SyncedWeaken(wasBids, At(symbol, Buy), wantBids, bidsWhole, engine.AllAccepted(first));
      SyncedWeaken(wasAsks, At(symbol, Sell), wantAsks, engine.AllAccepted(second), engine.AllAccepted(first));
      SyncedKeys(wasBids, At(symbol, Buy), wantBids, engine.AllAccepted(first));
      SyncedKeys(wasAsks, At(symbol, Sell), wantAsks, engine.AllAccepted(first));
      TopKeys(snapshot.value.bids, depth, levelKey, jitter);
      TopKeys(snapshot.value.asks, depth, levelKey, jitter);
    }

    /** The ticker loop, over any sequence of snapshots: in the end every symbol is as its last
        snapshot wanted it, and one without a snapshot is as it was. */
    method Start(ticks: seq<TickInput>)
      requires Valid()
      modifies this, engine
      ensures Valid() && engine.calls >= old(engine.calls)
      ensures AllFollow(old(View()), View(), ticks, depth, levelKey, engine.AllAccepted(old(engine.calls)))
    {
      hide Mirrors, Synced, AllFollow, Mirrored, Want, TopLevels;
      ghost var start, first := View(), engine.calls;
      NothingYet(start, depth, levelKey, true);
      assert ticks[..0] == [];
      for i := 0 to |ticks|
        invariant Valid() && engine.calls >= first
        invariant AllFollow(start, View(), ticks[..i], depth, levelKey, engine.AllAccepted(first))
      {
        ghost var was, whole, calls := View(), engine.AllAccepted(first), engine.calls;
        Tick(ticks[i].symbol, ticks[i].snapshot, ticks[i].jitter);
        assert engine.AllAccepted(first) ==> whole && engine.AllAccepted(calls);
        OneMore(start, was, View(), ticks, i, depth, levelKey, whole, engine.AllAccepted(calls),
                engine.AllAccepted(first));
      }
      assert ticks[..|ticks|] == ticks;
    }
  }

  /** While no call has failed, the live partner orders are exactly the tracked ones, each
      placed for the slot and the quantity it is tracked with, and each tracked once. */
  lemma MirrorIsExact(bot: Bot, id: nat)
    requires bot.Valid() && bot.engine.AllAccepted(0)
    ensures id in bot.engine.live <==> exists slot :: bot.View().Has(slot) && bot.View().Get(slot).orderId == id
    ensures forall slot :: bot.View().Has(slot) ==>
      var r := bot.View().Get(slot);
      r.orderId in bot.engine.live && bot.engine.live[r.orderId] == PlacedAs(bot.View(), slot, bot.parseLevelKey)
    ensures forall a, b ::
      bot.View().Has(a) && bot.View().Has(b) && bot.View().Get(a).orderId == bot.View().Get(b).orderId ==> a == b
  {
    if id in bot.engine.live {
      assert bot.View().Has(bot.slots[id]);
    }
  }
}
