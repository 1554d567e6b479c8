/**
 The sharded engine of internal/engine/engine.go: one book, one bounded command channel and
 one worker per symbol.  Submissions and worker steps of all symbols interleave freely.
 */
module Engine {
  import opened Domain
  import opened PriceTime
  import opened OrderBooks
  import opened EngineRun

  datatype SubmitResult = Accepted | UnknownSymbol | ChannelFull

  /** A worker together with the commands waiting in its channel. */
  datatype Lane = Lane(worker: Shard, waiting: seq<Command>)

  type Lanes = map<string, Lane>

  // ---- One step of the engine ------------------------------------------------------------

  function SubmitOutcome(capacity: nat, lanes: Lanes, cmd: Command): SubmitResult {
    var s := CommandSymbol(cmd);
    if s !in lanes then UnknownSymbol
    else if |lanes[s].waiting| < capacity then Accepted
    else ChannelFull
  }

  function AfterSubmit(capacity: nat, lanes: Lanes, cmd: Command): Lanes {
    var s := CommandSymbol(cmd);
    if SubmitOutcome(capacity, lanes, cmd) == Accepted
    then lanes[s := lanes[s].(waiting := lanes[s].waiting + [cmd])]
    else lanes
  }

  /** The worker of s takes the oldest waiting command, if there is one. */
  function AfterTurn(s: string, lane: Lane): Lane {
    if lane.waiting == [] then lane
    else Lane(Handle(s, lane.worker, lane.waiting[0]), lane.waiting[1..])
  }

  function AfterWork(lanes: Lanes, s: string): Lanes {
    if s in lanes then lanes[s := AfterTurn(s, lanes[s])] else lanes
  }

  /** The effect of LoadOrder on a worker: the order joins its queue unmatched. */
  function Loaded(sh: Shard, o: Order): Shard {
    sh.(book := WithQueue(sh.book, o.side, Join(o.side, Queue(sh.book, o.side), o)))
  }

  function AfterLoad(started: bool, lanes: Lanes, o: Order): Lanes {
    if started || o.symbol !in lanes then lanes
    else lanes[o.symbol := lanes[o.symbol].(worker := Loaded(lanes[o.symbol].worker, o))]
  }

  // ---- Every interleaving, seen from one symbol ------------------------------------------

  datatype Step = Submitting(cmd: Command) | Working(symbol: string)

  function Exec(capacity: nat, lanes: Lanes, steps: seq<Step>): Lanes {
    if steps == [] then lanes
    else
      var before := Exec(capacity, lanes, steps[..|steps| - 1]);
      match steps[|steps| - 1]
      case Submitting(cmd) => AfterSubmit(capacity, before, cmd)
      case Working(s) => AfterWork(before, s)
  }

  /** The commands the engine accepted for s during the steps, in acceptance order. */
  ghost function AcceptedFor(capacity: nat, lanes: Lanes, steps: seq<Step>, s: string): seq<Command> {
    if steps == [] then []
    else
      var init := steps[..|steps| - 1];
      var before := Exec(capacity, lanes, init);
      match steps[|steps| - 1]
      case Submitting(cmd) =>
        if CommandSymbol(cmd) == s && SubmitOutcome(capacity, before, cmd) == Accepted
        then AcceptedFor(capacity, lanes, init, s) + [cmd]
        else AcceptedFor(capacity, lanes, init, s)
      case Working(_) => AcceptedFor(capacity, lanes, init, s)
  }

  /**
   Isolation of one lane: its worker has done a sequential run over a prefix of the accepted
   commands, and the rest wait in order, within the channel's capacity.
   */
  ghost predicate Isolated(capacity: nat, s: string, start: Shard, accepted: seq<Command>, lane: Lane) {
    var k := |accepted| - |lane.waiting|;
    && k >= 0 && |lane.waiting| <= capacity
    && lane.waiting == accepted[k..]
    && lane.worker == Run(s, start, accepted[..k])
  }

  /**
   Shard isolation: whatever the interleaving of submissions and worker steps of all symbols,
   every symbol's lane is isolated.
   */
  lemma {:induction false} ShardIsolation(capacity: nat, lanes: Lanes, steps: seq<Step>, s: string)
    requires s in lanes && lanes[s].waiting == []
    ensures s in Exec(capacity, lanes, steps)
    ensures Isolated(capacity, s, lanes[s].worker, AcceptedFor(capacity, lanes, steps, s),
            Exec(capacity, lanes, steps)[s])
    ensures forall c :: c in AcceptedFor(capacity, lanes, steps, s) ==> CommandSymbol(c) == s
  {
    hide Isolated, Handle;
    if steps == [] {
      IsolatedAtFirst(capacity, s, lanes[s]);
    } else {
      var init := steps[..|steps| - 1];
      ShardIsolation(capacity, lanes, init, s);
      var lane := Exec(capacity, lanes, init)[s];
      var accepted := AcceptedFor(capacity, lanes, init, s);
      match steps[|steps| - 1]
      case Submitting(cmd) =>
        if CommandSymbol(cmd) == s && |lane.waiting| < capacity {
          IsolatedSubmit(capacity, s, lanes[s].worker, accepted, lane, cmd);
        }
      case Working(t) =>
        if t == s && lane.waiting != [] {
          IsolatedWork(capacity, s, lanes[s].worker, accepted, lane);
        }
    }
  }

  lemma IsolatedAtFirst(capacity: nat, s: string, lane: Lane)
    requires lane.waiting == []
    ensures Isolated(capacity, s, lane.worker, [], lane)
  {
    hide Handle;
    var none: seq<Command> := [];
    assert none[0..] == none && none[..0] == none;
    assert Run(s, lane.worker, none) == lane.worker;
  }

  lemma IsolatedSubmit(capacity: nat, s: string, start: Shard, accepted: seq<Command>, lane: Lane, cmd: Command)
    requires Isolated(capacity, s, start, accepted, lane) && |lane.waiting| < capacity
    ensures Isolated(capacity, s, start, accepted + [cmd], lane.(waiting := lane.waiting + [cmd]))
  {
    var k := |accepted| - |lane.waiting|;
    assert (accepted + [cmd])[k..] == accepted[k..] + [cmd];
    assert (accepted + [cmd])[..k] == accepted[..k];
  }

  lemma IsolatedWork(capacity: nat, s: string, start: Shard, accepted: seq<Command>, lane: Lane)
    requires Isolated(capacity, s, start, accepted, lane) && lane.waiting != []
    ensures Isolated(capacity, s, start, accepted, Lane(Handle(s, lane.worker, lane.waiting[0]), lane.waiting[1..]))
  {
    var k := |accepted| - |lane.waiting|;
    var prefix := accepted[..k + 1];
    assert prefix[..|prefix| - 1] == accepted[..k];
    assert prefix[|prefix| - 1] == lane.waiting[0];
    assert accepted[k..][1..] == accepted[k + 1..];
  }

  // ---- Every command is handled ----------------------------------------------------------

  /** How many turns the worker of s gets. */
  ghost function Turns(steps: seq<Step>, s: string): nat {
    if steps == [] then 0
    else Turns(steps[..|steps| - 1], s) + (if steps[|steps| - 1] == Working(s) then 1 else 0)
  }

  /** While nothing is accepted for s, each turn of its worker takes the oldest waiting command. */
  lemma {:induction false} TurnsTake(capacity: nat, lanes: Lanes, steps: seq<Step>, s: string)
    requires s in lanes && AcceptedFor(capacity, lanes, steps, s) == []
    ensures s in Exec(capacity, lanes, steps)
    ensures Exec(capacity, lanes, steps)[s].waiting == lanes[s].waiting[Min(Turns(steps, s), |lanes[s].waiting|)..]
  {
    hide Handle;
    if steps != [] {
      TurnsTake(capacity, lanes, steps[..|steps| - 1], s);
    }
  }

  lemma {:induction false} ExecConcat(capacity: nat, lanes: Lanes, a: seq<Step>, b: seq<Step>, s: string)
    ensures Exec(capacity, lanes, a + b) == Exec(capacity, Exec(capacity, lanes, a), b)
    ensures AcceptedFor(capacity, lanes, a + b, s)
         == AcceptedFor(capacity, lanes, a, s) + AcceptedFor(capacity, Exec(capacity, lanes, a), b, s)
  {
    hide AfterSubmit, AfterWork, SubmitOutcome;
    if b == [] {
      assert a + b == a;
    } else {
      var init := b[..|b| - 1];
      ExecConcat(capacity, lanes, a, init, s);
      assert (a + b)[..|a + b| - 1] == a + init;
      assert (a + b)[|a + b| - 1] == b[|b| - 1];
    }
  }

  /**
   Every accepted command is handled: in every interleaving of all symbols, once the worker of s has
   had as many turns as commands wait and nothing more was accepted for s, none waits any more and
   the worker has done the sequential run of all commands ever accepted for s.
   */
  lemma EveryCommandIsHandled(capacity: nat, lanes: Lanes, steps: seq<Step>, rest: seq<Step>, s: string)
    requires s in lanes && lanes[s].waiting == []
    requires var mid := Exec(capacity, lanes, steps);
             && s in mid
             && AcceptedFor(capacity, mid, rest, s) == []
             && Turns(rest, s) >= |mid[s].waiting|
    ensures s in Exec(capacity, lanes, steps + rest)
    ensures var end := Exec(capacity, lanes, steps + rest)[s];
            && end.waiting == []
            && end.worker == Run(s, lanes[s].worker, AcceptedFor(capacity, lanes, steps + rest, s))
  {
    hide Handle, Exec, AcceptedFor, Turns;
    TurnsTake(capacity, Exec(capacity, lanes, steps), rest, s);
    ExecConcat(capacity, lanes, steps, rest, s);
    ShardIsolation(capacity, lanes, steps + rest, s);
    var accepted := AcceptedFor(capacity, lanes, steps + rest, s);
    assert accepted[..|accepted|] == accepted;
  }

  /** Where a command belongs: its order's or its cancel's symbol. */
  function Target(cmd: Command): string {
    if cmd.PlaceCommand? then (if cmd.order.Some? then cmd.order.value.symbol else "")
    else if cmd.cancel.Some? then cmd.cancel.value.symbol else ""
  }

  /** The answer to a submission, and what it changes: only an accepted command is queued, behind
      all that wait in its own lane. */
  lemma SubmitAnswers(capacity: nat, lanes: Lanes, cmd: Command)
    ensures var s, r := Target(cmd), SubmitOutcome(capacity, lanes, cmd);
            && (r == UnknownSymbol <==> s !in lanes)
            && (r == Accepted <==> s in lanes && |lanes[s].waiting| < capacity)
            && (r == ChannelFull <==> s in lanes && |lanes[s].waiting| >= capacity)
            && AfterSubmit(capacity, lanes, cmd)
               == if s in lanes && |lanes[s].waiting| < capacity
                  then lanes[s := Lane(lanes[s].worker, lanes[s].waiting + [cmd])]
                  else lanes
  {
  }

  /** Loading rests the order unmatched, behind every order at least as good, before the start and
      for a known symbol only. */
  lemma LoadAnswers(started: bool, lanes: Lanes, o: Order)
    ensures started || o.symbol !in lanes ==> AfterLoad(started, lanes, o) == lanes
    ensures !started && o.symbol in lanes ==>
      var lane := lanes[o.symbol];
      var b := lane.worker.book;
      var b' := if o.side == Buy then Book(Join(Buy, b.bids, o), b.asks) else Book(b.bids, Join(Sell, b.asks, o));
      AfterLoad(started, lanes, o)
      == lanes[o.symbol := Lane(Shard(b', lane.worker.seqNo, lane.worker.log), lane.waiting)]
  {
    hide Join;
  }

  // ---- The objects -----------------------------------------------------------------------

  class ShardObject {
    const book: OrderBook
    var waiting: seq<Command>
    var seqNo: int
    var published: seq<Event>

    ghost predicate Valid()
      reads this, book
    {
      book.Valid()
    }

    ghost function View(): Lane
      reads this, book
    {
      Lane(Shard(book.View(), seqNo, published), waiting)
    }

    constructor (symbol: string)
      ensures Valid() && View() == Lane(FRESH, []) && book.symbol == symbol && fresh(book)
    {
      book := new OrderBook(symbol);
      waiting, seqNo, published := [], 0, [];
    }

    /** One turn of runWorker: receive the oldest waiting command and handle it. */
    method Turn()
      requires Valid()
      modifies this, book
      ensures Valid()
      ensures View() == AfterTurn(book.symbol, old(View()))
    {
      if waiting != [] {
        var cmd := waiting[0];
        waiting := waiting[1..];
        HandleCommand(cmd);
      }
    }

    method Rest(o: Order)
      requires Valid() && o.remaining > 0
      modifies book
      ensures Valid()
      ensures View() == Lane(Loaded(old(View()).worker, o), old(View()).waiting)
    {
      if o.side == Buy {
        book.AddBid(o);
      } else {
        book.AddAsk(o);
      }
    }

    method HandleCommand(cmd: Command)
      requires Valid()
      modifies this`seqNo, this`published, book
      ensures Valid()
      ensures View() == Lane(Handle(book.symbol, old(View()).worker, cmd), old(View()).waiting)
    {
      match cmd
      case PlaceCommand(Some(o)) => HandlePlaceCommand(o);
      case CancelCommand(Some(c)) => HandleCancelCommand(c);
      case _ =>
    }

    method HandlePlaceCommand(o: Order)
      requires Valid()
      modifies this`seqNo, this`published, book
      ensures Valid()
      ensures View() == Lane(HandlePlace(book.symbol, old(View()).worker, o), old(View()).waiting)
    {
      hide Match;
      var trades, done := book.MatchIncoming(o);
      ghost var events := Published(Numbered(seqNo, trades));
      var i := 0;
      while i < |trades|
        modifies this`seqNo, this`published
        invariant 0 <= i <= |trades|
        invariant seqNo == old(seqNo) + i
        invariant published == old(published) + events[..i]
      {
        seqNo := seqNo + 1;
        published := published + [TradeMatched(Matched(seqNo, trades[i]))];
        i := i + 1;
      }
      if done.remaining > 0 {
        published := published + [OrderRested(done)];
      }
    }

    method HandleCancelCommand(c: CancelInfo)
      requires Valid()
      modifies this`published, book
      ensures Valid()
      ensures View() == Lane(HandleCancel(old(View()).worker, c), old(View()).waiting)
    {
      var r := book.CancelOrder(c.orderId);
      if r.Some? {
        published := published + [OrderCancelled(c.orderId, c.symbol, r.value.side, r.value.price, r.value.remaining)];
      }
    }
  }

  class EngineObject {
    var shards: map<string, ShardObject>
    const capacity: nat
    var started: bool

    ghost predicate Valid()
      reads this, shards.Values, set s | s in shards :: shards[s].book
    {
      forall s :: s in shards ==> shards[s].Valid() && shards[s].book.symbol == s
    }

    ghost function View(): Lanes
      reads this, shards.Values, set s | s in shards :: shards[s].book
    {
      map s | s in shards :: shards[s].View()
    }

    constructor (symbols: seq<string>, bufferSize: int)
      ensures Valid() && !started
      ensures capacity == if bufferSize <= 0 then 1024 else bufferSize
      ensures View() == map s | s in symbols :: Lane(FRESH, [])
    {
      capacity := if bufferSize <= 0 then 1024 else bufferSize;
      shards := map[];
      started := false;
      new;
      var i := 0;
      while i < |symbols|
        invariant 0 <= i <= |symbols| && !started
        invariant shards.Keys == set s | s in symbols[..i]
        invariant forall s :: s in shards ==>
          shards[s].Valid() && shards[s].book.symbol == s && shards[s].View() == Lane(FRESH, [])
        modifies this
      {
        var sh := new ShardObject(symbols[i]);
        shards := shards[symbols[i] := sh];
        assert symbols[..i + 1] == symbols[..i] + [symbols[i]];
        i := i + 1;
      }
    }

    /** When only the lane of s has changed, the view is the old one updated at s. */
    twostate lemma Changed(s: string)
      requires s in shards && shards == old(shards) && old(Valid())
      requires forall t :: t in shards && t != s ==> unchanged(shards[t]) && unchanged(shards[t].book)
      requires shards[s].Valid()
      ensures Valid() && View() == old(View())[s := shards[s].View()]
    {
      hide ShardObject.View, ShardObject.Valid;
      forall t | t in shards && t != s
        ensures shards[t].Valid() && shards[t].View() == old(shards[t].View())
      {
      }
      assert View().Keys == old(View()).Keys;
    }

    /** Rest an order without matching; ignored once started or for an unknown symbol. */
    method LoadOrder(o: Order)
      requires Valid() && o.remaining > 0
      modifies set s | s in shards :: shards[s].book
      ensures Valid() && shards == old(shards)
      ensures View() == AfterLoad(started, old(View()), o)
    {
      if started || o.symbol !in shards {
        return;
      }
      hide Loaded;
      shards[o.symbol].Rest(o);
      Changed(o.symbol);
    }

    /** From now on LoadOrder is ignored; the workers' turns are taken one by one with Work. */
    method Start()
      requires Valid()
      modifies this`started
      ensures Valid() && started && View() == old(View())
    {
      started := true;
    }

    method Submit(cmd: Command) returns (r: SubmitResult)
      requires Valid()
      modifies shards.Values
      ensures Valid() && shards == old(shards)
      ensures r == SubmitOutcome(capacity, old(View()), cmd)
      ensures View() == AfterSubmit(capacity, old(View()), cmd)
      ensures r == UnknownSymbol <==> Target(cmd) !in shards
      ensures Target(cmd) in shards ==>
        (r == Accepted <==> |old(shards[Target(cmd)].waiting)| < capacity)
        && (r == ChannelFull <==> |old(shards[Target(cmd)].waiting)| >= capacity)
      ensures r == Accepted ==> shards[Target(cmd)].waiting == old(shards[Target(cmd)].waiting) + [cmd]
    {
      var s := CommandSymbol(cmd);
      if s !in shards {
        return UnknownSymbol;
      }
      var sh := shards[s];
      if |sh.waiting| < capacity {
        sh.waiting := sh.waiting + [cmd];
        r := Accepted;
      } else {
        r := ChannelFull;
      }
      Changed(s);
    }

    method Work(s: string)
      requires Valid()
      modifies shards.Values, set t | t in shards :: shards[t].book
      ensures Valid() && shards == old(shards)
      ensures View() == AfterWork(old(View()), s)
    {
      if s in shards {
        hide AfterTurn;
        shards[s].Turn();
        Changed(s);
      }
    }
  }
}
