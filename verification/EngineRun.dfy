/**
 One symbol's worker (internal/engine/engine.go) as a function of the commands it takes from
 its channel, and what holds after every run of it.
 */
module EngineRun {
  import opened Domain
  import opened PriceTime
  import opened BookFacts

  datatype CancelInfo = CancelInfo(orderId: Uuid, symbol: string)

  /** A command may carry no payload; such a command is routed to the empty symbol and ignored. */
  datatype Command =
    | PlaceCommand(order: Option<Order>)
    | CancelCommand(cancel: Option<CancelInfo>)

  function CommandSymbol(cmd: Command): string {
    match cmd
    case PlaceCommand(Some(o)) => o.symbol
    case CancelCommand(Some(c)) => c.symbol
    case _ => ""
  }

  datatype Matched = Matched(seqNo: int, trade: Trade)

  datatype Event =
    | TradeMatched(matched: Matched)
    | OrderRested(order: Order)
    | OrderCancelled(orderId: Uuid, symbol: string, side: Side, price: int, remaining: int)

  /** The worker's book, its trade counter, and everything it has published. */
  datatype Shard = Shard(book: Book, seqNo: int, log: seq<Event>)

  const FRESH := Shard(Book([], []), 0, [])

  function Numbered(seqNo: int, trades: seq<Trade>): seq<Matched> {
    seq(|trades|, i requires 0 <= i < |trades| => Matched(seqNo + 1 + i, trades[i]))
  }

  function Published(ms: seq<Matched>): seq<Event> {
    seq(|ms|, i requires 0 <= i < |ms| => TradeMatched(ms[i]))
  }

  function HandlePlace(symbol: string, sh: Shard, o: Order): Shard {
    var m := Match(symbol, sh.book, o);
    var rested := if m.order.remaining > 0 then [OrderRested(m.order)] else [];
    Shard(m.book, sh.seqNo + |m.trades|, sh.log + Published(Numbered(sh.seqNo, m.trades)) + rested)
  }

  function HandleCancel(sh: Shard, c: CancelInfo): Shard {
    var r := Cancel(sh.book, c.orderId);
    match r.result
    case None => sh
    case Some(v) =>
      sh.(book := r.book, log := sh.log + [OrderCancelled(c.orderId, c.symbol, v.side, v.price, v.remaining)])
  }

  function Handle(symbol: string, sh: Shard, cmd: Command): Shard {
    match cmd
    case PlaceCommand(Some(o)) => HandlePlace(symbol, sh, o)
    case CancelCommand(Some(c)) => HandleCancel(sh, c)
    case _ => sh
  }

  function Run(symbol: string, sh: Shard, cmds: seq<Command>): Shard {
    if cmds == [] then sh
    else Handle(symbol, Run(symbol, sh, cmds[..|cmds| - 1]), cmds[|cmds| - 1])
  }

  // ---- Reading commands and logs ---------------------------------------------------------

  /** Orders enter through SubmitPlace, which sets Remaining to Quantity. */
  ghost predicate Admissible(cmd: Command) {
    cmd.PlaceCommand? && cmd.order.Some? ==> cmd.order.value.remaining == cmd.order.value.quantity > 0
  }

  ghost predicate AllAdmissible(cmds: seq<Command>) {
    forall i :: 0 <= i < |cmds| ==> Admissible(cmds[i])
  }

  ghost function PlacedOne(id: Uuid): Command -> int {
    (c: Command) => if c.PlaceCommand? && c.order.Some? && c.order.value.id == id then 1 else 0
  }

  ghost function PlacedQty(id: Uuid): Command -> int {
    (c: Command) => if c.PlaceCommand? && c.order.Some? && c.order.value.id == id then c.order.value.quantity else 0
  }

  /** No two placements share an id. */
  ghost predicate FreshIds(cmds: seq<Command>) {
    forall id :: Sum(cmds, PlacedOne(id)) <= 1
  }

  /** The matches of a log, in publication order. */
  function Matches(log: seq<Event>): seq<Matched> {
    if log == [] then []
    else
      var e := log[|log| - 1];
      Matches(log[..|log| - 1]) + (if e.TradeMatched? then [e.matched] else [])
  }

  lemma {:induction false} MatchesAppend(a: seq<Event>, b: seq<Event>)
    ensures Matches(a + b) == Matches(a) + Matches(b)
  {
    if b == [] {
      assert a + b == a;
    } else {
      MatchesAppend(a, b[..|b| - 1]);
      assert (a + b)[..|a + b| - 1] == a + b[..|b| - 1];
    }
  }

  lemma {:induction false} MatchesOfPublished(ms: seq<Matched>)
    ensures Matches(Published(ms)) == ms
  {
    if ms != [] {
      var k := |ms| - 1;
      MatchesOfPublished(ms[..k]);
      assert Published(ms)[..k] == Published(ms[..k]);
    }
  }

  /** What one placement adds to the matches of the log. */
  lemma PlaceMatches(symbol: string, sh: Shard, o: Order)
    ensures Matches(HandlePlace(symbol, sh, o).log)
         == Matches(sh.log) + Numbered(sh.seqNo, Match(symbol, sh.book, o).trades)
  {
    var m := Match(symbol, sh.book, o);
    var rested := if m.order.remaining > 0 then [OrderRested(m.order)] else [];
    var events := Published(Numbered(sh.seqNo, m.trades));
    MatchesAppend(sh.log + events, rested);
    MatchesAppend(sh.log, events);
    MatchesOfPublished(Numbered(sh.seqNo, m.trades));
    assert rested != [] ==> rested[..0] == [];
  }

  lemma CancelMatches(sh: Shard, c: CancelInfo)
    ensures Matches(HandleCancel(sh, c).log) == Matches(sh.log)
  {
    var sh' := HandleCancel(sh, c);
    if sh' != sh {
      assert sh'.log[..|sh'.log| - 1] == sh.log;
    }
  }

  // ---- Every run keeps the book in order and uncrossed -----------------------------------

  lemma {:induction false} RunBook(symbol: string, sh: Shard, cmds: seq<Command>)
    requires AllAdmissible(cmds) && Ordered(sh.book) && Uncrossed(sh.book)
    ensures Ordered(Run(symbol, sh, cmds).book) && Uncrossed(Run(symbol, sh, cmds).book)
  {
    if cmds != [] {
      var k := |cmds| - 1;
      RunBook(symbol, sh, cmds[..k]);
      HandleBook(symbol, Run(symbol, sh, cmds[..k]), cmds[k]);
    }
  }

  lemma HandleBook(symbol: string, sh: Shard, cmd: Command)
    requires Admissible(cmd) && Ordered(sh.book)
    ensures Ordered(Handle(symbol, sh, cmd).book)
    ensures Uncrossed(sh.book) ==> Uncrossed(Handle(symbol, sh, cmd).book)
  {
    match cmd
    case PlaceCommand(Some(o)) =>
      MatchOrdered(symbol, sh.book, o);
      if Uncrossed(sh.book) {
        MatchUncrossed(symbol, sh.book, o);
      }
    case CancelCommand(Some(c)) =>
      CancelOrdered(sh.book, c.orderId);
    case _ =>
  }

  // ---- Quantity is conserved over every run ----------------------------------------------

  ghost function EventTraded(id: Uuid): Event -> int {
    (e: Event) => if e.TradeMatched? then TradedOf(id)(e.matched.trade) else 0
  }

  ghost function EventCancelled(id: Uuid): Event -> int {
    (e: Event) => if e.OrderCancelled? && e.orderId == id then e.remaining else 0
  }

  /** Trades, resting quantity and cancelled quantity of an id add up to what was placed. */
  lemma {:induction false} RunConserves(symbol: string, cmds: seq<Command>, id: Uuid)
    requires AllAdmissible(cmds)
    ensures var sh := Run(symbol, FRESH, cmds);
            Sum(cmds, PlacedQty(id))
            == Sum(sh.log, EventTraded(id)) + Resting(sh.book, id) + Sum(sh.log, EventCancelled(id))
  {
    if cmds != [] {
      var k := |cmds| - 1;
      RunConserves(symbol, cmds[..k], id);
      RunBook(symbol, FRESH, cmds[..k]);
      HandleConserves(symbol, Run(symbol, FRESH, cmds[..k]), cmds[k], id);
    }
  }

  lemma HandleConserves(symbol: string, sh: Shard, cmd: Command, id: Uuid)
    requires Admissible(cmd) && Ordered(sh.book)
    ensures var sh' := Handle(symbol, sh, cmd);
            PlacedQty(id)(cmd) + Sum(sh.log, EventTraded(id)) + Resting(sh.book, id) + Sum(sh.log, EventCancelled(id))
            == Sum(sh'.log, EventTraded(id)) + Resting(sh'.book, id) + Sum(sh'.log, EventCancelled(id))
  {
    match cmd
    case PlaceCommand(Some(o)) =>
      var m := Match(symbol, sh.book, o);
      var events := Published(Numbered(sh.seqNo, m.trades));
      var rested := if m.order.remaining > 0 then [OrderRested(m.order)] else [];
      MatchConserves(symbol, sh.book, o, id);
      NumberedSums(sh.seqNo, m.trades, id);
      LogSums(sh.log, events, rested, EventTraded(id));
      LogSums(sh.log, events, rested, EventCancelled(id));
    case CancelCommand(Some(c)) =>
      CancelConserves(sh.book, c.orderId, id);
      var sh' := HandleCancel(sh, c);
      if sh' != sh {
        assert sh'.log[..|sh'.log| - 1] == sh.log;
      }
    case _ =>
  }

  lemma LogSums(log: seq<Event>, events: seq<Event>, rested: seq<Event>, f: Event -> int)
    requires |rested| <= 1 && (rested != [] ==> f(rested[0]) == 0)
    ensures Sum(log + events + rested, f) == Sum(log, f) + Sum(events, f)
  {
    SumAppend(log + events, rested, f);
    SumAppend(log, events, f);
    if rested != [] {
      assert rested == [rested[0]];
      SumOne(rested[0], f);
    }
  }

  lemma {:induction false} NumberedSums(seqNo: int, trades: seq<Trade>, id: Uuid)
    ensures var events := Published(Numbered(seqNo, trades));
            Sum(events, EventTraded(id)) == Sum(trades, TradedOf(id)) && Sum(events, EventCancelled(id)) == 0
  {
    if trades != [] {
      var k := |trades| - 1;
      NumberedSums(seqNo, trades[..k], id);
      assert Published(Numbered(seqNo, trades))[..k] == Published(Numbered(seqNo, trades[..k]));
    }
  }

  // ---- Trades are numbered 1, 2, 3, ... --------------------------------------------------

  ghost predicate NumberedFrom(first: int, ms: seq<Matched>) {
    forall i :: 0 <= i < |ms| ==> ms[i].seqNo == first + i
  }

  lemma {:induction false} RunNumbers(symbol: string, cmds: seq<Command>)
    ensures var sh := Run(symbol, FRESH, cmds);
            NumberedFrom(1, Matches(sh.log)) && sh.seqNo == |Matches(sh.log)|
  {
    if cmds != [] {
      var k := |cmds| - 1;
      RunNumbers(symbol, cmds[..k]);
      var sh := Run(symbol, FRESH, cmds[..k]);
      match cmds[k]
      case PlaceCommand(Some(o)) => PlaceMatches(symbol, sh, o);
      case CancelCommand(Some(c)) => CancelMatches(sh, c);
      case _ =>
    }
  }

  // ---- Ids are unique in the book, and no pair of orders is matched twice ----------------

  predicate SamePair(t: Trade, u: Trade) {
    t.buyOrderId == u.buyOrderId && t.sellOrderId == u.sellOrderId
  }

  predicate Mentions(t: Trade, id: Uuid) {
    t.buyOrderId == id || t.sellOrderId == id
  }

  /** No two matches pair the same buy order with the same sell order. */
  ghost predicate DistinctPairs(ms: seq<Matched>) {
    forall i, j :: 0 <= i < j < |ms| ==> !SamePair(ms[i].trade, ms[j].trade)
  }

  /** One of the two orders of a trade has left the book. */
  ghost predicate HalfGone(b: Book, t: Trade) {
    Copies(b, t.buyOrderId) == 0 || Copies(b, t.sellOrderId) == 0
  }

  ghost predicate PairsOk(sh: Shard) {
    && UniqueIds(sh.book)
    && DistinctPairs(Matches(sh.log))
    && (forall i :: 0 <= i < |Matches(sh.log)| ==> HalfGone(sh.book, Matches(sh.log)[i].trade))
  }

  /** The worker has never met this order id. */
  ghost predicate Unseen(sh: Shard, id: Uuid) {
    && Copies(sh.book, id) == 0
    && forall i :: 0 <= i < |Matches(sh.log)| ==> !Mentions(Matches(sh.log)[i].trade, id)
  }

  lemma {:induction false} RunPairs(symbol: string, cmds: seq<Command>)
    requires AllAdmissible(cmds) && FreshIds(cmds)
    ensures PairsOk(Run(symbol, FRESH, cmds))
    ensures forall id :: Sum(cmds, PlacedOne(id)) == 0 ==> Unseen(Run(symbol, FRESH, cmds), id)
  {
    if cmds != [] {
      var k := |cmds| - 1;
      forall id
        ensures Sum(cmds[..k], PlacedOne(id)) <= 1
      {
        assert Sum(cmds, PlacedOne(id)) <= 1;
      }
      RunPairs(symbol, cmds[..k]);
      RunBook(symbol, FRESH, cmds[..k]);
      var sh := Run(symbol, FRESH, cmds[..k]);
      match cmds[k]
      case PlaceCommand(Some(o)) =>
        assert Sum(cmds, PlacedOne(o.id)) <= 1;
        PlacedNonnegative(cmds[..k], o.id);
        PlaceKeepsPairs(symbol, sh, o);
        forall id | Sum(cmds, PlacedOne(id)) == 0
          ensures Unseen(Run(symbol, FRESH, cmds), id)
        {
          PlacedNonnegative(cmds[..k], id);
        }
      case CancelCommand(Some(c)) =>
        CancelKeepsPairs(sh, c);
      case _ =>
    }
  }

  lemma PlacedNonnegative(cmds: seq<Command>, id: Uuid)
    ensures Sum(cmds, PlacedOne(id)) >= 0
  {
    SumNonnegative(cmds, PlacedOne(id));
  }

  lemma PlaceKeepsPairs(symbol: string, sh: Shard, o: Order)
    requires Ordered(sh.book) && PairsOk(sh) && Unseen(sh, o.id) && o.remaining >= 0
    ensures PairsOk(HandlePlace(symbol, sh, o))
    ensures forall id :: id != o.id && Unseen(sh, id) ==> Unseen(HandlePlace(symbol, sh, o), id)
  {
    hide Ordered, Match, DistinctPairs, HalfGone;
    var added := Numbered(sh.seqNo, Match(symbol, sh.book, o).trades);
    PlaceMatches(symbol, sh, o);
    PlaceCopies(symbol, sh, o);
    PlacePairs(symbol, sh, o);
    forall id | id != o.id && Unseen(sh, id)
      ensures Unseen(HandlePlace(symbol, sh, o), id)
    {
      PlaceKeepsUnseen(symbol, sh, o, id);
    }
    hide Unseen, Copies, Numbered, Matches;
  }

  /** No id is copied by a placement, and one that was gone stays gone, except the placed one. */
  lemma PlaceCopies(symbol: string, sh: Shard, o: Order)
    requires Ordered(sh.book) && UniqueIds(sh.book) && Copies(sh.book, o.id) == 0 && o.remaining >= 0
    ensures UniqueIds(Match(symbol, sh.book, o).book)
    ensures forall id :: id != o.id && Copies(sh.book, id) == 0 ==> Copies(Match(symbol, sh.book, o).book, id) == 0
  {
    hide Ordered, Match, Copies;
    forall id
      ensures 0 <= Copies(Match(symbol, sh.book, o).book, id) <= Copies(sh.book, id) + (if o.id == id then 1 else 0)
    {
      MatchConserves(symbol, sh.book, o, id);
      CopiesNonnegative(Match(symbol, sh.book, o).book, id);
    }
  }

  /** The pairs of a placement's matches are new, and of each one order has left the book; the
      earlier ones stay as they were. */
  lemma PlacePairs(symbol: string, sh: Shard, o: Order)
    requires Ordered(sh.book) && PairsOk(sh) && Unseen(sh, o.id) && o.remaining >= 0
    ensures var all := Matches(sh.log) + Numbered(sh.seqNo, Match(symbol, sh.book, o).trades);
            && DistinctPairs(all)
            && forall i :: 0 <= i < |all| ==> HalfGone(Match(symbol, sh.book, o).book, all[i].trade)
  {
    hide Ordered, Match, DistinctPairs, UniqueIds;
    var past, added := Matches(sh.log), Numbered(sh.seqNo, Match(symbol, sh.book, o).trades);
    NewPairsDistinct(symbol, sh, o);
    PlaceCopies(symbol, sh, o);
    forall i | 0 <= i < |added|
      ensures Mentions(added[i].trade, o.id) && HalfGone(Match(symbol, sh.book, o).book, added[i].trade)
    {
      MatchTrade(symbol, sh.book, o, i);
      MatchUsesUp(symbol, sh.book, o, i);
    }
    PairsConcat(past, added, o.id);
    hide Copies, Matches;
    forall i | 0 <= i < |past|
      ensures HalfGone(Match(symbol, sh.book, o).book, past[i].trade)
    {
      assert HalfGone(sh.book, past[i].trade) && !Mentions(past[i].trade, o.id);
    }
  }

  lemma PlaceKeepsUnseen(symbol: string, sh: Shard, o: Order, id: Uuid)
    requires Ordered(sh.book) && o.remaining >= 0 && id != o.id && Unseen(sh, id)
    ensures Unseen(HandlePlace(symbol, sh, o), id)
  {
    PlaceMatches(symbol, sh, o);
    MatchSpares(symbol, sh.book, o, id);
    hide Ordered, Match;
  }

  /** An order that is neither placed nor resting is not matched. */
  lemma MatchSpares(symbol: string, b: Book, o: Order, id: Uuid)
    requires Ordered(b) && o.remaining >= 0 && id != o.id && Copies(b, id) == 0
    ensures var m := Match(symbol, b, o);
            Copies(m.book, id) == 0 && forall i :: 0 <= i < |m.trades| ==> !Mentions(m.trades[i], id)
  {
    var m := Match(symbol, b, o);
    MatchConserves(symbol, b, o, id);
    CopiesNonnegative(m.book, id);
    CopiesNonnegative(b, id);
    forall i | 0 <= i < |m.trades|
      ensures !Mentions(m.trades[i], id)
    {
      MatchTrade(symbol, b, o, i);
      CountedAt(Queue(b, Opposite(o.side)), i);
    }
  }

  lemma PairsConcat(past: seq<Matched>, added: seq<Matched>, id: Uuid)
    requires DistinctPairs(past) && DistinctPairs(added)
    requires forall i :: 0 <= i < |past| ==> !Mentions(past[i].trade, id)
    requires forall i :: 0 <= i < |added| ==> Mentions(added[i].trade, id)
    ensures DistinctPairs(past + added)
  {
    forall i, j | 0 <= i < j < |past + added|
      ensures !SamePair((past + added)[i].trade, (past + added)[j].trade)
    {
      if i < |past| <= j {
        assert !Mentions(past[i].trade, id) && Mentions(added[j - |past|].trade, id);
      }
    }
  }

  lemma NewPairsDistinct(symbol: string, sh: Shard, o: Order)
    requires Ordered(sh.book) && UniqueIds(sh.book) && o.remaining >= 0
    ensures DistinctPairs(Numbered(sh.seqNo, Match(symbol, sh.book, o).trades))
  {
    var added := Numbered(sh.seqNo, Match(symbol, sh.book, o).trades);
    var s := Queue(sh.book, Opposite(o.side));
    forall i, j | 0 <= i < j < |added|
      ensures !SamePair(added[i].trade, added[j].trade)
    {
      MatchTrade(symbol, sh.book, o, i);
      MatchTrade(symbol, sh.book, o, j);
      if s[i].id == s[j].id {
        CountedTwice(s, i, j);
        CopiesNonnegative(sh.book, s[i].id);
      }
    }
  }

  lemma CancelKeepsPairs(sh: Shard, c: CancelInfo)
    requires PairsOk(sh)
    ensures PairsOk(HandleCancel(sh, c))
    ensures forall id :: Unseen(sh, id) ==> Unseen(HandleCancel(sh, c), id)
  {
    CancelMatches(sh, c);
    forall id
      ensures Copies(HandleCancel(sh, c).book, id) <= Copies(sh.book, id)
      ensures Copies(HandleCancel(sh, c).book, id) >= 0
    {
      CancelConserves(sh.book, c.orderId, id);
      CopiesNonnegative(HandleCancel(sh, c).book, id);
    }
  }

  // ---- Every trade respects both limits --------------------------------------------------

  /** o entered through one of the commands and has only lost quantity since. */
  ghost predicate WasPlaced(cmds: seq<Command>, o: Order) {
    exists i :: 0 <= i < |cmds| && IsPlacementOf(cmds[i], o)
  }

  ghost predicate IsPlacementOf(cmd: Command, o: Order) {
    cmd.PlaceCommand? && cmd.order.Some? && o == cmd.order.value.(remaining := o.remaining)
  }

  ghost predicate AllPlaced(cmds: seq<Command>, s: seq<Order>) {
    forall i :: 0 <= i < |s| ==> WasPlaced(cmds, s[i])
  }

  /** The two orders of a trade were placed, are of opposite sides, and both accept its price. */
  ghost predicate WithinLimits(cmds: seq<Command>, t: Trade) {
    exists b: Order, s: Order :: WasPlaced(cmds, b) && WasPlaced(cmds, s) && Accepts(t, b, s)
  }

  ghost predicate Accepts(t: Trade, b: Order, s: Order) {
    && b.side == Buy && s.side == Sell
    && b.id == t.buyOrderId && s.id == t.sellOrderId
    && b.userId == t.buyUserId && s.userId == t.sellUserId
    && s.price <= t.price <= b.price && t.quantity > 0
  }

  ghost predicate AllWithinLimits(cmds: seq<Command>, ms: seq<Matched>) {
    forall i :: 0 <= i < |ms| ==> WithinLimits(cmds, ms[i].trade)
  }

  lemma {:induction false} RunWithinLimits(symbol: string, cmds: seq<Command>)
    requires AllAdmissible(cmds)
    ensures var sh := Run(symbol, FRESH, cmds);
            && AllPlaced(cmds, sh.book.bids) && AllPlaced(cmds, sh.book.asks)
            && AllWithinLimits(cmds, Matches(sh.log))
  {
    if cmds != [] {
      var k := |cmds| - 1;
      var init, sh := cmds[..k], Run(symbol, FRESH, cmds[..k]);
      RunWithinLimits(symbol, init);
      RunBook(symbol, FRESH, init);
      PlacedStays(cmds, k, sh.book.bids, Matches(sh.log));
      PlacedStays(cmds, k, sh.book.asks, []);
      match cmds[k]
      case PlaceCommand(Some(o)) =>
        assert IsPlacementOf(cmds[k], o);
        PlaceAllPlaced(symbol, sh.book, o, cmds);
        PlaceWithinLimits(symbol, sh, o, cmds);
      case CancelCommand(Some(c)) =>
        CancelMatches(sh, c);
        CancelPlaced(sh.book, c.orderId, cmds);
      case _ =>
    }
  }

  lemma CancelPlaced(b: Book, id: Uuid, cmds: seq<Command>)
    requires AllPlaced(cmds, b.bids) && AllPlaced(cmds, b.asks)
    ensures AllPlaced(cmds, Cancel(b, id).book.bids) && AllPlaced(cmds, Cancel(b, id).book.asks)
  {
  }

  lemma PlacedStays(cmds: seq<Command>, k: nat, s: seq<Order>, ms: seq<Matched>)
    requires k <= |cmds| && AllPlaced(cmds[..k], s) && AllWithinLimits(cmds[..k], ms)
    ensures AllPlaced(cmds, s) && AllWithinLimits(cmds, ms)
  {
    forall o | WasPlaced(cmds[..k], o)
      ensures WasPlaced(cmds, o)
    {
      var i :| 0 <= i < k && IsPlacementOf(cmds[..k][i], o);
      assert IsPlacementOf(cmds[i], o);
    }
    forall i | 0 <= i < |ms|
      ensures WithinLimits(cmds, ms[i].trade)
    {
      assert WithinLimits(cmds[..k], ms[i].trade);
    }
  }

  lemma PlaceWithinLimits(symbol: string, sh: Shard, o: Order, cmds: seq<Command>)
    requires Ordered(sh.book) && o.remaining >= 0 && WasPlaced(cmds, o)
    requires AllPlaced(cmds, Queue(sh.book, Opposite(o.side)))
    requires AllWithinLimits(cmds, Matches(sh.log))
    ensures AllWithinLimits(cmds, Matches(HandlePlace(symbol, sh, o).log))
  {
    PlaceMatches(symbol, sh, o);
    var m := Match(symbol, sh.book, o);
    forall i | 0 <= i < |m.trades|
      ensures WithinLimits(cmds, m.trades[i])
    {
      TradeAccepted(symbol, sh.book, o, i, cmds);
    }
  }

  lemma PlaceAllPlaced(symbol: string, b: Book, o: Order, cmds: seq<Command>)
    requires Ordered(b) && o.remaining >= 0 && WasPlaced(cmds, o)
    requires AllPlaced(cmds, b.bids) && AllPlaced(cmds, b.asks)
    ensures AllPlaced(cmds, Match(symbol, b, o).book.bids) && AllPlaced(cmds, Match(symbol, b, o).book.asks)
  {
    var m := Match(symbol, b, o);
    TailPlaced(o.side, o.price, o.remaining, Queue(b, Opposite(o.side)), cmds);
    if m.order.remaining > 0 {
      var i :| 0 <= i < |cmds| && IsPlacementOf(cmds[i], o);
      assert IsPlacementOf(cmds[i], m.order);
      JoinPlaced(o.side, Queue(b, o.side), m.order, cmds);
    }
  }

  lemma TradeAccepted(symbol: string, b: Book, o: Order, i: int, cmds: seq<Command>)
    requires Ordered(b) && o.remaining >= 0 && 0 <= i < |Match(symbol, b, o).trades|
    requires WasPlaced(cmds, o) && AllPlaced(cmds, Queue(b, Opposite(o.side)))
    ensures WithinLimits(cmds, Match(symbol, b, o).trades[i])
  {
    MatchTrade(symbol, b, o, i);
    var t, r := Match(symbol, b, o).trades[i], Queue(b, Opposite(o.side))[i];
    if o.side == Buy {
      assert Accepts(t, o, r);
    } else {
      assert Accepts(t, r, o);
    }
  }

  lemma JoinPlaced(side: Side, s: seq<Order>, o: Order, cmds: seq<Command>)
    requires AllPlaced(cmds, s) && WasPlaced(cmds, o)
    ensures AllPlaced(cmds, Join(side, s, o))
  {
    var k, t := Slot(side, s, o.price), Join(side, s, o);
    forall i | 0 <= i < |t|
      ensures WasPlaced(cmds, t[i])
    {
      assert t[i] == if i < k then s[i] else if i == k then o else s[i - 1];
    }
  }

  lemma TailPlaced(side: Side, limit: int, want: int, s: seq<Order>, cmds: seq<Command>)
    requires Positive(s) && want >= 0 && AllPlaced(cmds, s)
    ensures AllPlaced(cmds, Sweep(side, limit, want, s).queue)
  {
    hide Sweep, Positive, Crosses;
    var r := Sweep(side, limit, want, s);
    var d := |s| - |r.queue|;
    SweepKeepsTail(side, limit, want, s);
    forall j | 0 <= j < |r.queue|
      ensures WasPlaced(cmds, r.queue[j])
    {
      var i :| 0 <= i < |cmds| && IsPlacementOf(cmds[i], s[d + j]);
      assert IsPlacementOf(cmds[i], r.queue[j]);
    }
  }

  // ---- What the events say ---------------------------------------------------------------

  /** Every command is of this symbol. */
  ghost predicate AllOf(symbol: string, cmds: seq<Command>) {
    forall i :: 0 <= i < |cmds| ==> CommandSymbol(cmds[i]) == symbol
  }

  /** The event is of this symbol; a rested order was placed, and a cancelled id was asked for. */
  ghost predicate Tells(symbol: string, cmds: seq<Command>, e: Event) {
    match e
    case TradeMatched(m) => m.trade.symbol == symbol && m.trade.quantity > 0
    case OrderRested(o) => o.symbol == symbol && o.remaining > 0 && WasPlaced(cmds, o)
    case OrderCancelled(id, s, _, _, remaining) =>
      s == symbol && remaining > 0 && CancelCommand(Some(CancelInfo(id, symbol))) in cmds
  }

  /** Every event of a run over one symbol's commands tells of that symbol and of its commands. */
  lemma {:induction false} RunTells(symbol: string, cmds: seq<Command>)
    requires AllAdmissible(cmds) && AllOf(symbol, cmds)
    ensures forall e :: e in Run(symbol, FRESH, cmds).log ==> Tells(symbol, cmds, e)
  {
    if cmds != [] {
      var k := |cmds| - 1;
      var sh := Run(symbol, FRESH, cmds[..k]);
      RunTells(symbol, cmds[..k]);
      RunBook(symbol, FRESH, cmds[..k]);
      forall e | e in sh.log
        ensures Tells(symbol, cmds, e)
      {
        TellsMore(symbol, cmds, k, e);
      }
      hide WasPlaced;
      NewTells(symbol, sh, cmds, k);
    }
  }

  lemma TellsMore(symbol: string, cmds: seq<Command>, k: nat, e: Event)
    requires k <= |cmds| && Tells(symbol, cmds[..k], e)
    ensures Tells(symbol, cmds, e)
  {
    if e.OrderRested? {
      var i :| 0 <= i < k && IsPlacementOf(cmds[..k][i], e.order);
      assert IsPlacementOf(cmds[i], e.order);
    }
  }

  lemma NewTells(symbol: string, sh: Shard, cmds: seq<Command>, k: nat)
    requires k < |cmds| && AllAdmissible(cmds) && AllOf(symbol, cmds) && Ordered(sh.book)
    ensures forall e :: e in Handle(symbol, sh, cmds[k]).log ==> e in sh.log || Tells(symbol, cmds, e)
  {
    match cmds[k]
    case PlaceCommand(Some(o)) =>
      var m := Match(symbol, sh.book, o);
      forall i | 0 <= i < |m.trades|
        ensures m.trades[i].symbol == symbol && m.trades[i].quantity > 0
      {
        MatchTrade(symbol, sh.book, o, i);
      }
      assert IsPlacementOf(cmds[k], m.order);
      assert WasPlaced(cmds, m.order);
      hide Match, WasPlaced;
    case CancelCommand(Some(c)) =>
      CancelOrdered(sh.book, c.orderId);
      hide Cancel;
    case _ =>
  }
}
