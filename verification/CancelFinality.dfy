/**
 A cancel is final: once its command is behind any placement of its order in the channel, the
 order leaves the book after so many turns of the worker, is never matched again, and never
 comes back, not even by a restart.
 */
module CancelFinality {
  import opened Domain
  import opened PriceTime
  import opened BookFacts
  import opened EngineRun
  import opened Numeric
  import opened Records
  import opened Exchange
  import opened ExchangeInv
  import opened ExchangeWork
  import opened ExchangeRestart
  import T = Transactions
  import L = LedgerRun
  import A = Answers

  ghost predicate NoPlacement(cmds: seq<Command>, id: Uuid) {
    forall c :: c in cmds ==> id !in PlacedId(c)
  }

  ghost predicate IsCancelled(db: Db, id: Uuid) {
    id in db.orders && db.orders[id].status == StatusCancelled
  }

  /** No match after the first n names the order. */
  ghost predicate SilentSince(sh: Shard, id: Uuid, n: nat) {
    forall i :: n <= i < |Matches(sh.log)| ==> !Mentions(Matches(sh.log)[i].trade, id)
  }

  /** The cancelled order is out of the book, cannot come back, and has no match after the first n. */
  ghost predicate Gone(s: State, id: Uuid, n: nat) {
    && IsCancelled(s.db, id) && Copies(s.shard.book, id) == 0
    && NoPlacement(s.outbound, id) && NoPlacement(s.channel, id)
    && SilentSince(s.shard, id, n)
  }

  /** The cancel of the order is the p-th command in the channel, and no placement is behind it. */
  ghost predicate Leaving(s: State, id: Uuid, p: nat) {
    && IsCancelled(s.db, id) && NoPlacement(s.outbound, id)
    && p < |s.channel|
    && s.channel[p].CancelCommand? && s.channel[p].cancel.Some? && s.channel[p].cancel.value.orderId == id
    && NoPlacement(s.channel[p + 1..], id)
  }

  /** The worker's turns of a run. */
  function Turns(actions: seq<Action>): nat {
    if actions == [] then 0
    else Turns(actions[..|actions| - 1]) + if actions[|actions| - 1].Work? then 1 else 0
  }

  lemma StaysCancelled(symbol: string, s: State, a: Action, id: Uuid)
    requires IsCancelled(s.db, id)
    ensures IsCancelled(Act(symbol, s, a).db, id)
  {
    ActKeepsRows(symbol, s, a);
    assert RowKept(s.db.orders[id], Act(symbol, s, a).db.orders[id]);
    hide Act;
  }

  /** What is sent and queued by any action but a worker's turn. */
  lemma NoneIsSent(symbol: string, s: State, a: Action, id: Uuid)
    requires IsCancelled(s.db, id) && NoPlacement(s.outbound, id) && !a.Work? && !a.Restart?
    ensures var s' := Act(symbol, s, a);
            && s'.shard == s.shard && NoPlacement(s'.outbound, id)
            && |s.channel| <= |s'.channel| && s'.channel[..|s.channel|] == s.channel
            && NoPlacement(s'.channel[|s.channel|..], id)
  {
    hide T.CancelOrder, T.ExecuteTrade, T.Perform, OnTradeMatched, Matches;
    if a.Place? && T.PlaceOrder(s.db, a.markets, a.cmd, a.id).result.Ok? {
      PlacedIsNew(s.db, a.markets, a.cmd, a.id);
    }
    hide T.PlaceOrder;
  }

  lemma PlacedIsNew(db: Db, markets: set<string>, cmd: T.PlaceOrderCommand, id: Uuid)
    requires T.PlaceOrder(db, markets, cmd, id).result.Ok?
    ensures id !in db.orders
  {
    A.PlaceAnswers(db, markets, cmd, id);
    hide T.PlaceOrder;
  }

  lemma CancelEmpties(sh: Shard, c: CancelInfo)
    requires UniqueIds(sh.book)
    ensures Copies(HandleCancel(sh, c).book, c.orderId) == 0
    ensures Matches(HandleCancel(sh, c).log) == Matches(sh.log)
  {
    CancelMatches(sh, c);
    CancelConserves(sh.book, c.orderId, c.orderId);
    CopiesNonnegative(HandleCancel(sh, c).book, c.orderId);
    assert Copies(sh.book, c.orderId) <= 1;
    hide Cancel, Copies;
  }

  /** A command that does not place the order leaves it out of the book and unmatched. */
  lemma HandleSpares(symbol: string, sh: Shard, cmd: Command, id: Uuid, n: nat)
    requires Ordered(sh.book) && Admissible(cmd)
    requires Copies(sh.book, id) == 0 && id !in PlacedId(cmd) && SilentSince(sh, id, n)
    ensures Copies(Handle(symbol, sh, cmd).book, id) == 0 && SilentSince(Handle(symbol, sh, cmd), id, n)
  {
    hide Ordered;
    match cmd
    case PlaceCommand(Some(o)) =>
      PlaceMatches(symbol, sh, o);
      MatchSpares(symbol, sh.book, o, id);
      hide Match;
    case CancelCommand(Some(c)) =>
      CancelMatches(sh, c);
      CancelConserves(sh.book, c.orderId, id);
      CopiesNonnegative(HandleCancel(sh, c).book, id);
      hide Cancel;
    case _ =>
  }

  lemma NextIsAdmissible(symbol: string, s: State)
    requires Inv(symbol, s) && s.channel != []
    ensures Ordered(s.shard.book) && UniqueIds(s.shard.book) && Admissible(s.channel[0])
  {
    hide Unseen, Ordered, UniqueIds, SplitSymbol, MatchesOk, KeysOk, AccountOk;
    assert CommandOk(symbol, s.db, s.shard, s.channel[0]);
    if s.channel[0].PlaceCommand? {
      assert L.RoomOk(s.db.orders[s.channel[0].order.value.id]);
    }
  }

  lemma RestartWithout(symbol: string, s: State, id: Uuid)
    requires Inv(symbol, s) && IsCancelled(s.db, id)
    ensures Copies(Rehydrated(symbol, s.db.orders, s.db.created), id) == 0
  {
    assert Distinct(s.db.created);
    hide Inv, Rehydrated, Copies;
    RehydratedHolds(symbol, s.db, s.db.created);
  }

  lemma ActKeepsGone(symbol: string, s: State, a: Action, id: Uuid, n: nat)
    requires Inv(symbol, s) && Gone(s, id, n)
    ensures Gone(Act(symbol, s, a), id, n)
  {
    hide Inv, Copies;
    var s' := Act(symbol, s, a);
    StaysCancelled(symbol, s, a, id);
    if a.Work? {
      if s.channel != [] {
        NextIsAdmissible(symbol, s);
        HandleSpares(symbol, s.shard, s.channel[0], id, n);
        hide Handle;
      }
    } else if a.Restart? {
      RestartWithout(symbol, s, id);
    } else {
      NoneIsSent(symbol, s, a, id);
      hide Act;
      assert s'.channel == s.channel + s'.channel[|s.channel|..];
    }
  }

  /** Each action leaves the cancel where it is, or moves it one place ahead, or the order is gone. */
  lemma ActKeepsLeaving(symbol: string, s: State, a: Action, id: Uuid, p: nat)
    requires Inv(symbol, s) && Leaving(s, id, p)
    ensures var s' := Act(symbol, s, a);
            || Gone(s', id, |Matches(s'.shard.log)|)
            || (!a.Restart? && !a.Work? && Leaving(s', id, p))
            || (a.Work? && p > 0 && Leaving(s', id, p - 1))
  {
    hide Inv, Copies, Matches;
    var s' := Act(symbol, s, a);
    StaysCancelled(symbol, s, a, id);
    if a.Work? {
      if p == 0 {
        NextIsAdmissible(symbol, s);
        CancelEmpties(s.shard, s.channel[0].cancel.value);
      }
      hide Handle;
    } else if a.Restart? {
      RestartWithout(symbol, s, id);
    } else {
      NoneIsSent(symbol, s, a, id);
      hide Act;
      assert s'.channel == s.channel + s'.channel[|s.channel|..];
    }
  }

  /** Either the cancel still waits and the worker has not had enough turns, or the order is gone. */
  ghost predicate OnItsWay(s: State, id: Uuid, p: nat, actions: seq<Action>) {
    || Gone(s, id, |Matches(s.shard.log)|)
    || (Turns(actions) <= p && Leaving(s, id, p - Turns(actions))
        && forall k :: 0 <= k < |actions| ==> !actions[k].Restart?)
  }

  lemma ActKeepsOnItsWay(symbol: string, s: State, a: Action, id: Uuid, p: nat, past: seq<Action>)
    requires Inv(symbol, s) && OnItsWay(s, id, p, past)
    ensures OnItsWay(Act(symbol, s, a), id, p, past + [a])
  {
    hide Inv, Act, Gone, Leaving;
    assert (past + [a])[..|past|] == past;
    if Gone(s, id, |Matches(s.shard.log)|) {
      ActKeepsGone(symbol, s, a, id, |Matches(s.shard.log)|);
      LaterGone(Act(symbol, s, a), id, |Matches(s.shard.log)|);
    } else {
      ActKeepsLeaving(symbol, s, a, id, p - Turns(past));
    }
  }

  lemma LaterGone(s: State, id: Uuid, n: nat)
    requires Gone(s, id, n)
    ensures Gone(s, id, |Matches(s.shard.log)|)
  {
  }

  lemma AllowedBefore(symbol: string, s: State, actions: seq<Action>)
    requires actions != [] && AllAllowed(symbol, s, actions)
    ensures var k := |actions| - 1;
            AllAllowed(symbol, s, actions[..k]) && Allowed(symbol, Exec(symbol, s, actions[..k]).db, actions[k])
  {
    hide Allowed, Exec;
    var k := |actions| - 1;
    forall j | 0 <= j < k
      ensures Allowed(symbol, Exec(symbol, s, actions[..k][..j]).db, actions[..k][j])
    {
      assert actions[..k][..j] == actions[..j];
    }
  }

  /** However other actions are interleaved, a cancel behind p commands has emptied the book of its
      order once the worker has had more than p turns, or the process has restarted. */
  lemma {:induction false} CancelTakesEffect(symbol: string, s: State, actions: seq<Action>, id: Uuid, p: nat)
    requires Inv(symbol, s) && Leaving(s, id, p) && AllAllowed(symbol, s, actions)
    ensures var t := Exec(symbol, s, actions);
            && Inv(symbol, t) && OnItsWay(t, id, p, actions)
            && (Turns(actions) > p || (exists k :: 0 <= k < |actions| && actions[k].Restart?)
                ==> Gone(t, id, |Matches(t.shard.log)|))
  {
    hide Inv, Act, Allowed, Gone, Leaving, AllAllowed;
    if actions != [] {
      var k := |actions| - 1;
      AllowedBefore(symbol, s, actions);
      CancelTakesEffect(symbol, s, actions[..k], id, p);
      ActKeepsInv(symbol, Exec(symbol, s, actions[..k]), actions[k]);
      ActKeepsOnItsWay(symbol, Exec(symbol, s, actions[..k]), actions[k], id, p, actions[..k]);
      assert actions[..k] + [actions[k]] == actions;
    }
  }

  /** And then it stays out of the book and unmatched for ever, restarts included. */
  lemma {:induction false} GoneForGood(symbol: string, s: State, actions: seq<Action>, id: Uuid, n: nat)
    requires Inv(symbol, s) && Gone(s, id, n) && AllAllowed(symbol, s, actions)
    ensures Inv(symbol, Exec(symbol, s, actions)) && Gone(Exec(symbol, s, actions), id, n)
  {
    hide Inv, Act, Allowed, Gone, AllAllowed;
    if actions != [] {
      var k := |actions| - 1;
      AllowedBefore(symbol, s, actions);
      GoneForGood(symbol, s, actions[..k], id, n);
      ActKeepsInv(symbol, Exec(symbol, s, actions[..k]), actions[k]);
      ActKeepsGone(symbol, Exec(symbol, s, actions[..k]), actions[k], id, n);
    }
  }

  /** A committed cancel whose submission is accepted takes its place behind what the channel holds:
      the premise of CancelTakesEffect, for every order whose placement has reached the channel. */
  lemma CancelLeaves(symbol: string, s: State, id: Uuid)
    requires Ours(symbol, s.db, id) && T.CancelOrder(s.db, id).result.Ok? && NoPlacement(s.outbound, id)
    ensures var sent := Act(symbol, s, CancelRow(id));
            Leaving(Act(symbol, sent, Submit(|s.outbound|, true)), id, |s.channel|)
  {
    A.CancelWritesRelease(s.db, id);
    hide T.CancelOrder;
    var sent := Act(symbol, s, CancelRow(id));
    assert sent.outbound[..|s.outbound|] == s.outbound;
    assert sent.outbound[|s.outbound| + 1..] == [];
    assert Act(symbol, sent, Submit(|s.outbound|, true)).outbound == s.outbound;
  }
}
