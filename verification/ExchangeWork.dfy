/** The worker's step keeps the invariant of the exchange. */
module ExchangeWork {
  import opened Domain
  import opened PriceTime
  import opened BookFacts
  import opened EngineRun
  import opened Records
  import opened MatchKeys
  import opened Exchange
  import opened ExchangeInv
  import L = LedgerRun

  lemma WorkKeepsInv(symbol: string, s: State)
    requires Inv(symbol, s) && s.channel != []
    ensures Inv(symbol, Act(symbol, s, Work))
  {
    assert CommandOk(symbol, s.db, s.shard, s.channel[0]);
    hide BookOk, PendingOk, MatchesOk, KeysOk, AccountOk, RowsOk, CreatedOk, SplitSymbol, Unseen;
    match s.channel[0]
    case PlaceCommand(Some(o)) => WorkPlaceKeepsInv(symbol, s, o);
    case CancelCommand(Some(c)) => WorkCancelKeepsInv(symbol, s, c);
  }

  // ---- A placement -----------------------------------------------------------------------

  /** The worker's next command is this placement. */
  ghost predicate PlaceNext(symbol: string, s: State, o: Order) {
    && s.channel != [] && s.channel[0] == PlaceCommand(Some(o))
    && Ours(symbol, s.db, o.id) && o == EngineOrder(o.id, s.db.orders[o.id]) && o.remaining > 0
    && Unseen(s.shard, o.id)
  }

  lemma WorkPlaceKeepsInv(symbol: string, s: State, o: Order)
    requires Inv(symbol, s) && s.channel != [] && s.channel[0] == PlaceCommand(Some(o))
    ensures Inv(symbol, Act(symbol, s, Work))
  {
    hide Inv, Act, BookOk, PendingOk, MatchesOk, KeysOk, AccountOk, PlaceNext;
    NextIsPlace(symbol, s, o);
    PlaceKeepsBook(symbol, s, o);
    PlaceKeepsMatches(symbol, s, o);
    PlaceKeepsOthersPending(symbol, s, o);
    PlaceKeepsKeys(symbol, s, o);
    PlaceKeepsSums(symbol, s, o);
    WorkDb(symbol, s);
    Assemble(symbol, Act(symbol, s, Work));
  }

  lemma NextIsPlace(symbol: string, s: State, o: Order)
    requires Inv(symbol, s) && s.channel != [] && s.channel[0] == PlaceCommand(Some(o))
    ensures PlaceNext(symbol, s, o)
    ensures SplitSymbol(symbol).Some? && RowsOk(symbol, s.db) && CreatedOk(s.db)
    ensures BookOk(symbol, s) && PendingOk(symbol, s) && MatchesOk(symbol, s) && KeysOk(symbol, s)
            && AccountOk(symbol, s)
  {
    hide BookOk, MatchesOk, KeysOk, AccountOk, Unseen, SplitSymbol;
    assert CommandOk(symbol, s.db, s.shard, s.channel[0]);
    assert L.RoomOk(s.db.orders[o.id]);
  }

  lemma Assemble(symbol: string, s: State)
    requires SplitSymbol(symbol).Some? && RowsOk(symbol, s.db) && CreatedOk(s.db)
    requires BookOk(symbol, s) && PendingOk(symbol, s) && MatchesOk(symbol, s) && KeysOk(symbol, s)
             && AccountOk(symbol, s)
    ensures Inv(symbol, s)
  {
  }

  /** RestsFor does not depend on what remains of the order. */
  ghost predicate AllRest(symbol: string, db: Db, q: seq<Order>) {
    forall i :: 0 <= i < |q| ==> RestsFor(symbol, db, q[i])
  }

  lemma TailRests(symbol: string, db: Db, side: Side, limit: int, want: int, q: seq<Order>)
    requires Positive(q) && want >= 0 && AllRest(symbol, db, q)
    ensures AllRest(symbol, db, Sweep(side, limit, want, q).queue)
  {
    hide Sweep, Positive, Crosses;
    var r := Sweep(side, limit, want, q);
    var d := |q| - |r.queue|;
    SweepKeepsTail(side, limit, want, q);
    forall j | 0 <= j < |r.queue|
      ensures RestsFor(symbol, db, r.queue[j])
    {
      assert RestsFor(symbol, db, q[d + j]);
    }
  }

  lemma JoinRests(symbol: string, db: Db, side: Side, q: seq<Order>, o: Order)
    requires AllRest(symbol, db, q) && RestsFor(symbol, db, o)
    ensures AllRest(symbol, db, Join(side, q, o))
  {
    var k, t := Slot(side, q, o.price), Join(side, q, o);
    forall i | 0 <= i < |t|
      ensures RestsFor(symbol, db, t[i])
    {
      assert t[i] == if i < k then q[i] else if i == k then o else q[i - 1];
    }
  }

  lemma PlaceKeepsBook(symbol: string, s: State, o: Order)
    requires BookOk(symbol, s) && PlaceNext(symbol, s, o)
    ensures BookOk(symbol, Act(symbol, s, Work))
  {
    var b := s.shard.book;
    var m := Match(symbol, b, o);
    MatchOrdered(symbol, b, o);
    forall id
      ensures Copies(m.book, id) <= 1
    {
      MatchConserves(symbol, b, o, id);
      assert Copies(b, id) <= 1;
    }
    assert AllRest(symbol, s.db, b.bids) && AllRest(symbol, s.db, b.asks);
    TailRests(symbol, s.db, o.side, o.price, o.remaining, Queue(b, Opposite(o.side)));
    if m.order.remaining > 0 {
      JoinRests(symbol, s.db, o.side, Queue(b, o.side), m.order);
    }
    hide Ordered, Copies, RestsFor;
  }

  lemma PlaceKeepsMatches(symbol: string, s: State, o: Order)
    requires BookOk(symbol, s) && MatchesOk(symbol, s) && PlaceNext(symbol, s, o)
    ensures MatchesOk(symbol, Act(symbol, s, Work))
  {
    hide MatchOk, Match, HandlePlace;
    var added := Numbered(s.shard.seqNo, Match(symbol, s.shard.book, o).trades);
    PlaceMatches(symbol, s.shard, o);
    PlaceKeepsDistinct(symbol, s, o);
    hide BookOk, Numbered, DistinctPairs, Unseen;
  }

  lemma PlaceKeepsDistinct(symbol: string, s: State, o: Order)
    requires BookOk(symbol, s) && MatchesOk(symbol, s) && PlaceNext(symbol, s, o)
    ensures var added := Numbered(s.shard.seqNo, Match(symbol, s.shard.book, o).trades);
            && DistinctPairs(Matches(s.shard.log) + added)
            && forall i :: 0 <= i < |added| ==> MatchOk(symbol, s.db, added[i])
  {
    hide MatchOk, Match, Ordered, UniqueIds;
    var added := Numbered(s.shard.seqNo, Match(symbol, s.shard.book, o).trades);
    NewPairsDistinct(symbol, s.shard, o);
    forall i | 0 <= i < |added|
      ensures MatchOk(symbol, s.db, added[i]) && Mentions(added[i].trade, o.id)
    {
      TradeOk(symbol, s, o, i);
    }
    PairsConcat(Matches(s.shard.log), added, o.id);
  }

  lemma TradeOk(symbol: string, s: State, o: Order, i: int)
    requires BookOk(symbol, s) && PlaceNext(symbol, s, o)
    requires 0 <= i < |Match(symbol, s.shard.book, o).trades|
    ensures var t := Match(symbol, s.shard.book, o).trades[i];
            MatchOk(symbol, s.db, Matched(s.shard.seqNo + 1 + i, t)) && Mentions(t, o.id)
  {
    MatchTrade(symbol, s.shard.book, o, i);
    hide Match;
    var resting := Queue(s.shard.book, Opposite(o.side))[i];
    assert RestsFor(symbol, s.db, resting);
  }

  /** The placement that was taken was the only one of its order, so the others are of orders
      the worker still has not met. */
  lemma PlaceKeepsOthersPending(symbol: string, s: State, o: Order)
    requires BookOk(symbol, s) && PendingOk(symbol, s) && PlaceNext(symbol, s, o)
    ensures PendingOk(symbol, Act(symbol, s, Work))
  {
    var c := s.channel[0];
    forall x
      ensures Sum(s.channel, PlacedOne(x)) == Sum(s.channel[1..], PlacedOne(x)) + PlacedOne(x)(c)
    {
      SumCons(s.channel, PlacedOne(x));
    }
    NotPlacedAgain(s.outbound, s.channel[1..], o.id);
    forall d | d in s.outbound || d in s.channel[1..]
      ensures CommandOk(symbol, s.db, HandlePlace(symbol, s.shard, o), d)
    {
      assert CommandOk(symbol, s.db, s.shard, d);
      if d.PlaceCommand? {
        PlaceKeepsUnseen(symbol, s.shard, o, d.order.value.id);
      }
      hide Unseen, HandlePlace;
    }
    hide CommandOk, HandlePlace;
  }

  lemma NotPlacedAgain(a: seq<Command>, b: seq<Command>, id: Uuid)
    requires Sum(a, PlacedOne(id)) + Sum(b, PlacedOne(id)) <= 0
    ensures forall d :: d in a || d in b ==> PlacedOne(id)(d) == 0
  {
    SumNonnegative(a, PlacedOne(id));
    SumNonnegative(b, PlacedOne(id));
  }

  lemma PlaceKeepsKeys(symbol: string, s: State, o: Order)
    requires KeysOk(symbol, s) && PlaceNext(symbol, s, o)
    ensures KeysOk(symbol, Act(symbol, s, Work))
  {
    PlaceMatches(symbol, s.shard, o);
    hide HandlePlace, Match, Unseen;
  }

  lemma PlaceKeepsSums(symbol: string, s: State, o: Order)
    requires BookOk(symbol, s) && MatchesOk(symbol, s) && KeysOk(symbol, s) && AccountOk(symbol, s)
    requires PlaceNext(symbol, s, o)
    ensures AccountOk(symbol, Act(symbol, s, Work))
  {
    hide BookOk, MatchesOk, KeysOk, PlaceNext, Due, Resting, Queued;
    var s' := Act(symbol, s, Work);
    forall x | Ours(symbol, s.db, x)
      ensures Due(s', x) + Resting(s'.shard.book, x) + Queued(s', x) == Due(s, x) + Resting(s.shard.book, x)
              + Queued(s, x)
    {
      WorkPlaceSums(symbol, s, o, x);
    }
    hide Act;
    WorkDb(symbol, s);
  }

  lemma WorkDb(symbol: string, s: State)
    ensures var s' := Act(symbol, s, Work);
            s'.db == s.db && s'.lost == s.lost && s'.outbound == s.outbound && s'.direct == s.direct
  {
    hide Handle;
  }

  lemma WorkPlaceSums(symbol: string, s: State, o: Order, x: Uuid)
    requires BookOk(symbol, s) && MatchesOk(symbol, s) && KeysOk(symbol, s)
    requires PlaceNext(symbol, s, o)
    ensures var s' := Act(symbol, s, Work);
      Due(s', x) + Resting(s'.shard.book, x) + Queued(s', x) == Due(s, x) + Resting(s.shard.book, x) + Queued(s, x)
  {
    hide MatchesOk, KeysOk, Due, Resting, Unseen, Match, Ordered, UniqueIds, RestsFor, Ours;
    MatchConserves(symbol, s.shard.book, o, x);
    SumCons(s.channel, PlacedQty(x));
    NewMatchesDue(symbol, s, o, x);
  }

  /** A pair that is new to the log has no settlement key yet. */
  lemma NewPairUnsettled(symbol: string, s: State, o: Order, m: Matched)
    requires KeysOk(symbol, s) && PlaceNext(symbol, s, o) && MatchOk(symbol, s.db, m) && Mentions(m.trade, o.id)
    ensures !IsSettled(s.db.keys, m)
  {
    forall x | x in Matches(s.shard.log)
      ensures !SamePair(x.trade, m.trade)
    {
      assert !Mentions(x.trade, o.id);
    }
  }

  lemma NewMatchesDue(symbol: string, s: State, o: Order, x: Uuid)
    requires BookOk(symbol, s) && MatchesOk(symbol, s) && KeysOk(symbol, s)
    requires PlaceNext(symbol, s, o)
    ensures var s' := Act(symbol, s, Work);
      Due(s', x) == Due(s, x) + Sum(Match(symbol, s.shard.book, o).trades, TradedOf(x))
  {
    var trades := Match(symbol, s.shard.book, o).trades;
    var added := Numbered(s.shard.seqNo, trades);
    var s' := Act(symbol, s, Work);
    PlaceMatches(symbol, s.shard, o);
    DueGrows(s, s', added, x);
    forall i | 0 <= i < |added|
      ensures !IsSettled(s.db.keys, added[i])
    {
      TradeOk(symbol, s, o, i);
      NewPairUnsettled(symbol, s, o, added[i]);
    }
    UnsettledSum(s.shard.seqNo, trades, s.db.keys, x);
    hide BookOk, MatchesOk, KeysOk, PlaceNext, IsSettled, Match, Due, HandlePlace, Numbered;
  }

  lemma DueGrows(s: State, s': State, added: seq<Matched>, x: Uuid)
    requires s.since <= |Matches(s.shard.log)| && s'.since == s.since && s'.db == s.db
    requires Matches(s'.shard.log) == Matches(s.shard.log) + added
    ensures Due(s', x) == Due(s, x) + Sum(added, DueOf(s.db.keys, x))
  {
    hide Matches;
    assert Recent(s') == Recent(s) + added;
    SumAppend(Recent(s), added, DueOf(s.db.keys, x));
  }

  lemma {:induction false} UnsettledSum(seqNo: int, trades: seq<Trade>, keys: set<(string, Scope)>, x: Uuid)
    requires forall i :: 0 <= i < |trades| ==> !IsSettled(keys, Numbered(seqNo, trades)[i])
    ensures Sum(Numbered(seqNo, trades), DueOf(keys, x)) == Sum(trades, TradedOf(x))
  {
    if trades != [] {
      var k := |trades| - 1;
      var ms := Numbered(seqNo, trades);
      assert ms[..k] == Numbered(seqNo, trades[..k]);
      UnsettledSum(seqNo, trades[..k], keys, x);
      assert !IsSettled(keys, ms[k]);
      hide IsSettled;
    }
  }

  // ---- A cancel --------------------------------------------------------------------------

  lemma WorkCancelKeepsInv(symbol: string, s: State, c: CancelInfo)
    requires Inv(symbol, s) && s.channel != [] && s.channel[0] == CancelCommand(Some(c))
    ensures Inv(symbol, Act(symbol, s, Work))
  {
    CancelMatches(s.shard, c);
    hide BookOk, PendingOk, MatchesOk, KeysOk, AccountOk, Matches;
    CancelKeepsBook(symbol, s, c);
    CancelKeepsOthersPending(symbol, s, c);
    var s' := Act(symbol, s, Work);
    assert s'.shard == HandleCancel(s.shard, c);
    assert MatchesOk(symbol, s') && KeysOk(symbol, s') by {
      hide Act, HandleCancel;
      LogMatters(symbol, s, s');
    }
    CancelKeepsSums(symbol, s, c);
  }

  lemma LogMatters(symbol: string, s: State, s': State)
    requires MatchesOk(symbol, s) && KeysOk(symbol, s)
    requires s'.db == s.db && s'.since == s.since && Matches(s'.shard.log) == Matches(s.shard.log)
    ensures MatchesOk(symbol, s') && KeysOk(symbol, s')
  {
  }

  lemma CancelKeepsBook(symbol: string, s: State, c: CancelInfo)
    requires BookOk(symbol, s) && s.channel != [] && s.channel[0] == CancelCommand(Some(c))
    ensures BookOk(symbol, Act(symbol, s, Work))
  {
    hide Ordered, Copies, RestsFor, Cancel;
    var b := s.shard.book;
    CancelOrdered(b, c.orderId);
    forall id
      ensures Copies(Cancel(b, c.orderId).book, id) <= 1
    {
      CancelConserves(b, c.orderId, id);
      assert Copies(b, id) <= 1;
    }
    CancelRestsAll(symbol, s.db, b, c.orderId);
  }

  lemma CancelRestsAll(symbol: string, db: Db, b: Book, id: Uuid)
    requires AllRest(symbol, db, b.bids) && AllRest(symbol, db, b.asks)
    ensures AllRest(symbol, db, Cancel(b, id).book.bids) && AllRest(symbol, db, Cancel(b, id).book.asks)
  {
    hide RestsFor, Find;
  }

  lemma CancelKeepsUnseen(symbol: string, sh: Shard, c: CancelInfo, id: Uuid)
    requires Unseen(sh, id)
    ensures Unseen(HandleCancel(sh, c), id)
  {
    CancelMatches(sh, c);
    CancelConserves(sh.book, c.orderId, id);
    CopiesNonnegative(HandleCancel(sh, c).book, id);
  }

  lemma CancelKeepsOthersPending(symbol: string, s: State, c: CancelInfo)
    requires PendingOk(symbol, s) && s.channel != [] && s.channel[0] == CancelCommand(Some(c))
    ensures PendingOk(symbol, Act(symbol, s, Work))
  {
    forall x
      ensures Sum(s.channel, PlacedOne(x)) == Sum(s.channel[1..], PlacedOne(x))
    {
      SumCons(s.channel, PlacedOne(x));
    }
    forall d | d in s.outbound || d in s.channel[1..]
      ensures CommandOk(symbol, s.db, HandleCancel(s.shard, c), d)
    {
      assert CommandOk(symbol, s.db, s.shard, d);
      if d.PlaceCommand? {
        CancelKeepsUnseen(symbol, s.shard, c, d.order.value.id);
      }
      hide Unseen, HandleCancel;
    }
    hide CommandOk, HandleCancel;
  }

  lemma CancelKeepsSums(symbol: string, s: State, c: CancelInfo)
    requires BookOk(symbol, s) && PendingOk(symbol, s) && AccountOk(symbol, s)
    requires s.channel != [] && s.channel[0] == CancelCommand(Some(c))
    ensures AccountOk(symbol, Act(symbol, s, Work))
  {
    assert CommandOk(symbol, s.db, s.shard, s.channel[0]);
    hide BookOk, PendingOk, Due, Resting, Queued;
    var s' := Act(symbol, s, Work);
    WorkDb(symbol, s);
    forall x | Ours(symbol, s.db, x)
      ensures Due(s', x) == Due(s, x) && Queued(s', x) == Queued(s, x)
      ensures Resting(s'.shard.book, x) <= Resting(s.shard.book, x)
      ensures x != c.orderId ==> Resting(s'.shard.book, x) == Resting(s.shard.book, x)
    {
      WorkCancelSums(symbol, s, c, x);
    }
    hide Act;
    DeparturesKeepAccount(symbol, s, s', c.orderId);
  }

  /** A cancelled order may leave the book; nothing else may change. */
  lemma DeparturesKeepAccount(symbol: string, s: State, s': State, gone: Uuid)
    requires AccountOk(symbol, s) && s'.db == s.db && s'.lost == s.lost && s'.direct == s.direct
    requires gone in s.db.orders ==> s.db.orders[gone].status == StatusCancelled
    requires forall x :: Ours(symbol, s.db, x) ==>
               && Due(s', x) == Due(s, x) && Queued(s', x) == Queued(s, x)
               && Resting(s'.shard.book, x) <= Resting(s.shard.book, x)
               && (x != gone ==> Resting(s'.shard.book, x) == Resting(s.shard.book, x))
    ensures AccountOk(symbol, s')
  {
    hide Due, Resting, Queued;
  }

  lemma WorkCancelSums(symbol: string, s: State, c: CancelInfo, x: Uuid)
    requires BookOk(symbol, s) && s.channel != [] && s.channel[0] == CancelCommand(Some(c))
    ensures var s' := Act(symbol, s, Work);
            && Due(s', x) == Due(s, x) && Queued(s', x) == Queued(s, x)
            && Resting(s'.shard.book, x) <= Resting(s.shard.book, x)
            && (x != c.orderId ==> Resting(s'.shard.book, x) == Resting(s.shard.book, x))
  {
    hide BookOk, Resting, Matches, Recent, HandleCancel;
    SumCons(s.channel, PlacedQty(x));
    CancelMatches(s.shard, c);
    DueGrows0(s, Act(symbol, s, Work), x);
    CancelRests(s.shard, c, x) by { BookIsOrdered(symbol, s); }
  }

  lemma BookIsOrdered(symbol: string, s: State)
    requires BookOk(symbol, s)
    ensures Ordered(s.shard.book)
  {
  }

  lemma CancelRests(sh: Shard, c: CancelInfo, x: Uuid)
    requires Ordered(sh.book)
    ensures Resting(HandleCancel(sh, c).book, x) <= Resting(sh.book, x)
    ensures x != c.orderId ==> Resting(HandleCancel(sh, c).book, x) == Resting(sh.book, x)
  {
    hide Ordered, Resting, Cancel;
    CancelConserves(sh.book, c.orderId, x);
    CancelOrdered(sh.book, c.orderId);
  }

  lemma DueGrows0(s: State, s': State, x: Uuid)
    requires s'.since == s.since && s'.db == s.db && Matches(s'.shard.log) == Matches(s.shard.log)
    ensures Due(s', x) == Due(s, x)
  {
  }
}
