/**
 Concurrent cancels and trades.  Each call runs in its own transaction: a cancel checks the
 status, then locks and re-reads the row, then writes; a trade inserts its idempotency key,
 locks the buy row, locks the sell row, checks, then writes.  A row lock or an uncommitted key
 blocks whoever else wants it until the holder commits or rolls back.  Steps of all
 transactions interleave freely, and the other services commit in between.
 */
module Locking {
  import opened Domain
  import opened Numeric
  import opened Records
  import opened Transactions
  import opened LedgerRun

  datatype Task = Cancelling(id: Uuid) | Trading(cmd: ExecuteTradeCommand, tradeId: Uuid)

  /** How far a transaction has got, with the rows it has locked and read. */
  datatype Phase =
    | Idle
    | Checked
    | CancelHolds(row: OrderRow)
    | Keyed
    | BuyHeld(buy: OrderRow)
    | BothHeld(buy: OrderRow, sell: OrderRow)
    | Done(result: Result<Uuid>)

  datatype Thread = Thread(task: Task, phase: Phase)

  datatype System = System(db: Db, threads: seq<Thread>)

  predicate HoldsRow(t: Thread, id: Uuid) {
    match t.task
    case Cancelling(x) => t.phase.CancelHolds? && x == id
    case Trading(cmd, _) =>
      || ((t.phase.BuyHeld? || t.phase.BothHeld?) && cmd.buyOrderId == id)
      || (t.phase.BothHeld? && cmd.sellOrderId == id)
  }

  predicate HoldsKey(t: Thread, key: string) {
    t.task.Trading? && (t.phase.Keyed? || t.phase.BuyHeld? || t.phase.BothHeld?) && t.task.cmd.idempotencyKey == key
  }

  predicate RowFree(s: System, i: int, id: Uuid) {
    forall j :: 0 <= j < |s.threads| && j != i ==> !HoldsRow(s.threads[j], id)
  }

  predicate KeyFree(s: System, i: int, key: string) {
    forall j :: 0 <= j < |s.threads| && j != i ==> !HoldsKey(s.threads[j], key)
  }

  // ---- One step of one transaction -------------------------------------------------------

  /** What a step does to the tables and to the phase; a blocked step does nothing. */
  datatype Effect = Effect(db: Db, phase: Phase)

  function CancelStep(s: System, i: int, id: Uuid, p: Phase): Effect {
    match p
    case Idle =>
      if id !in s.db.orders then Effect(s.db, Done(Err(ErrNotFound)))
      else if !IsCancellable(s.db.orders[id].status) then Effect(s.db, Done(Err(ErrInvalidStateTransition)))
      else Effect(s.db, Checked)
    case Checked =>
      if id !in s.db.orders then Effect(s.db, Done(Err(ErrNotFound)))
      else if !RowFree(s, i, id) then Effect(s.db, p)
      else if !IsCancellable(s.db.orders[id].status) then Effect(s.db, Done(Err(ErrInvalidStateTransition)))
      else Effect(s.db, CancelHolds(s.db.orders[id]))
    case CancelHolds(row) =>
      if id !in s.db.orders then Effect(s.db, Done(Err(ErrNotFound)))
      else
        var r := CancelWrites(s.db, id, row);
        Effect(r.db, Done(r.result))
    case _ => Effect(s.db, p)
  }

  function TradeStep(s: System, i: int, cmd: ExecuteTradeCommand, tradeId: Uuid, p: Phase): Effect {
    match p
    case Idle =>
      if SplitSymbol(cmd.symbol).None? then Effect(s.db, Done(Err(ErrOther)))
      else if !KeyFree(s, i, cmd.idempotencyKey) then Effect(s.db, p)
      else if (cmd.idempotencyKey, ScopeTrade) in s.db.keys then Effect(s.db, Done(Err(ErrDuplicateIdempotencyKey)))
      else Effect(s.db, Keyed)
    case Keyed =>
      if cmd.buyOrderId !in s.db.orders then Effect(s.db, Done(Err(ErrNotFound)))
      else if !RowFree(s, i, cmd.buyOrderId) then Effect(s.db, p)
      else Effect(s.db, BuyHeld(s.db.orders[cmd.buyOrderId]))
    case BuyHeld(buy) =>
      if cmd.sellOrderId !in s.db.orders then Effect(s.db, Done(Err(ErrNotFound)))
      else if !RowFree(s, i, cmd.sellOrderId) then Effect(s.db, p)
      else
        var sell := s.db.orders[cmd.sellOrderId];
        (match TradeCheck(s.db, cmd, buy, sell)
         case Some(e) => Effect(s.db, Done(Err(e)))
         case None => Effect(s.db, BothHeld(buy, sell)))
    case BothHeld(buy, sell) =>
      if cmd.buyOrderId !in s.db.orders || cmd.sellOrderId !in s.db.orders then Effect(s.db, Done(Err(ErrNotFound)))
      else Effect(TradeWrites(s.db, cmd, buy, sell, tradeId), Done(Ok(tradeId)))
    case _ => Effect(s.db, p)
  }

  function ThreadStep(s: System, i: int): Effect
    requires 0 <= i < |s.threads|
  {
    match s.threads[i].task
    case Cancelling(id) => CancelStep(s, i, id, s.threads[i].phase)
    case Trading(cmd, tradeId) => TradeStep(s, i, cmd, tradeId, s.threads[i].phase)
  }

  datatype Label = Advance(i: nat) | Other(call: Call)

  /** The calls of the other services, which touch no existing order row. */
  predicate IsOther(c: Call) {
    !c.CallCancel? && !c.CallTrade?
  }

  function Next(s: System, l: Label): System {
    match l
    case Advance(i) =>
      if i < |s.threads| then
        var e := ThreadStep(s, i);
        System(e.db, s.threads[i := s.threads[i].(phase := e.phase)])
      else s
    case Other(c) => if IsOther(c) then s.(db := Perform(s.db, c).db) else s
  }

  function Exec(s: System, labels: seq<Label>): System {
    if labels == [] then s else Next(Exec(s, labels[..|labels| - 1]), labels[|labels| - 1])
  }

  // ---- The invariant ---------------------------------------------------------------------

  /** Cancels and trades each have their own phases. */
  predicate PhaseFits(t: Thread) {
    match t.phase
    case Idle => true
    case Done(_) => true
    case Checked => t.task.Cancelling?
    case CancelHolds(_) => t.task.Cancelling?
    case _ => t.task.Trading?
  }

  /** What a transaction has read is still what the tables say. */
  ghost predicate ThreadOk(db: Db, t: Thread) {
    PhaseFits(t) &&
    match t.task
    case Cancelling(id) =>
      && (t.phase.CancelHolds? ==> id in db.orders && db.orders[id] == t.phase.row && IsCancellable(t.phase.row.status))
      && (t.phase.Done? && t.phase.result.Ok? ==> id in db.orders && db.orders[id].status == StatusCancelled)
    case Trading(cmd, _) =>
      && (t.phase.Keyed? || t.phase.BuyHeld? || t.phase.BothHeld? ==>
            (cmd.idempotencyKey, ScopeTrade) !in db.keys && SplitSymbol(cmd.symbol).Some?)
      && (t.phase.BuyHeld? || t.phase.BothHeld? ==>
           cmd.buyOrderId in db.orders && db.orders[cmd.buyOrderId] == t.phase.buy)
      && (t.phase.BothHeld? ==>
            && cmd.sellOrderId in db.orders && db.orders[cmd.sellOrderId] == t.phase.sell
            && TradeCheck(db, cmd, t.phase.buy, t.phase.sell) == None)
  }

  predicate CancelledBy(t: Thread, id: Uuid) {
    t.task == Cancelling(id) && t.phase.Done? && t.phase.result.Ok?
  }

  /** No row or key is held twice, and no order has two committed cancels. */
  ghost predicate Apart(t: Thread, u: Thread) {
    && (forall id :: !(HoldsRow(t, id) && HoldsRow(u, id)))
    && (forall key :: !(HoldsKey(t, key) && HoldsKey(u, key)))
    && (forall id :: !(CancelledBy(t, id) && CancelledBy(u, id)))
  }

  ghost predicate Inv(s: System) {
    && (forall i :: 0 <= i < |s.threads| ==> ThreadOk(s.db, s.threads[i]))
    && (forall i, j :: 0 <= i < j < |s.threads| ==> Apart(s.threads[i], s.threads[j]))
  }

  ghost predicate Start(s: System) {
    forall i :: 0 <= i < |s.threads| ==> s.threads[i].phase == Idle
  }

  // ---- Serializability -------------------------------------------------------------------

  /** The call a thread makes. */
  function CallOf(t: Task): Call {
    match t
    case Cancelling(id) => CallCancel(id)
    case Trading(cmd, tradeId) => CallTrade(cmd, tradeId)
  }

  /** The step that writes and commits. */
  predicate Commits(t: Thread) {
    (t.task.Cancelling? && t.phase.CancelHolds?) || (t.task.Trading? && t.phase.BothHeld?)
  }

  /** A committing step does to the tables what the whole call would do to them now, although
      it works from the rows it read when it locked them; every other step writes nothing. */
  lemma StepIsAtomic(s: System, i: nat)
    requires Inv(s) && i < |s.threads|
    ensures var t, e := s.threads[i], ThreadStep(s, i);
            if Commits(t) then Perform(s.db, CallOf(t.task)) == Outcome(e.db, e.phase.result) && e.phase.Done?
            else e.db == s.db
  {
    hide CancelWrites, TradeWrites, TradeCheck, SplitSymbol, RowFree, KeyFree, Apart;
    assert ThreadOk(s.db, s.threads[i]);
  }

  /** A transaction that ends, by a commit or by an error, answers what the whole call would answer
      on the tables as they are at that moment. */
  lemma StepAnswers(s: System, i: nat)
    requires Inv(s) && i < |s.threads| && !s.threads[i].phase.Done? && ThreadStep(s, i).phase.Done?
    ensures ThreadStep(s, i).phase.result == Perform(s.db, CallOf(s.threads[i].task)).result
    ensures ThreadStep(s, i).db == Perform(s.db, CallOf(s.threads[i].task)).db
  {
    assert ThreadOk(s.db, s.threads[i]);
    hide CancelWrites, TradeWrites, TradeCheck, SplitSymbol, RowFree, KeyFree, Apart;
  }

  function Rank(p: Phase): nat {
    match p
    case Idle => 0
    case Checked => 1
    case Keyed => 1
    case CancelHolds(_) => 2
    case BuyHeld(_) => 2
    case BothHeld(_, _) => 3
    case Done(_) => 4
  }

  /** The transaction meets neither a row that another one has locked nor a key that another one
      has inserted and not committed. */
  ghost predicate Unhindered(s: System, i: nat) {
    forall j :: 0 <= j < |s.threads| && j != i ==>
      (forall id :: !HoldsRow(s.threads[j], id)) && (forall key :: !HoldsKey(s.threads[j], key))
  }

  /** A step either waits or moves its transaction forward, and an unfinished one that nobody
      hinders moves: it is finished within four steps. */
  lemma StepProgresses(s: System, i: nat)
    requires Inv(s) && i < |s.threads|
    ensures var p, q := s.threads[i].phase, ThreadStep(s, i).phase;
            && (q == p || Rank(q) > Rank(p))
            && (!p.Done? && Unhindered(s, i) ==> Rank(q) > Rank(p))
            && (p.Done? ==> q == p)
  {
    assert ThreadOk(s.db, s.threads[i]);
    hide CancelWrites, TradeWrites, TradeCheck, SplitSymbol, Apart;
  }

  /** The calls that have committed, in commit order. */
  function History(s: System, labels: seq<Label>): seq<Call> {
    if labels == [] then []
    else
      var init := labels[..|labels| - 1];
      var before := Exec(s, init);
      match labels[|labels| - 1]
      case Advance(i) =>
        if i < |before.threads| && Commits(before.threads[i])
        then History(s, init) + [CallOf(before.threads[i].task)]
        else History(s, init)
      case Other(c) => if IsOther(c) then History(s, init) + [c] else History(s, init)
  }

  /** Every interleaving is equivalent to its committed calls, one after the other. */
  lemma {:induction false} Serializable(s: System, labels: seq<Label>)
    requires Start(s)
    ensures Inv(Exec(s, labels))
    ensures Exec(s, labels).db == PerformAll(s.db, History(s, labels))
  {
    if labels == [] {
    } else {
      var init, l := labels[..|labels| - 1], labels[|labels| - 1];
      var before := Exec(s, init);
      Serializable(s, init);
      StepKeepsInv(before, l);
      var h := History(s, labels);
      if h != History(s, init) {
        assert h[..|h| - 1] == History(s, init);
      }
      if l.Advance? && l.i < |before.threads| {
        StepIsAtomic(before, l.i);
      }
      hide Perform, ThreadStep, Inv, Commits, IsOther;
    }
  }

  // ---- Preservation ----------------------------------------------------------------------

  lemma StepKeepsInv(s: System, l: Label)
    requires Inv(s)
    ensures Inv(Next(s, l))
  {
    match l
    case Advance(i) =>
      if i < |s.threads| {
        AdvanceKeepsInv(s, i);
      }
    case Other(c) =>
      if IsOther(c) {
        forall j | 0 <= j < |s.threads|
          ensures ThreadOk(Perform(s.db, c).db, s.threads[j])
        {
          OtherKeepsThread(s.db, c, s.threads[j]);
        }
      }
  }

  lemma AdvanceKeepsInv(s: System, i: nat)
    requires Inv(s) && i < |s.threads|
    ensures Inv(Next(s, Advance(i)))
  {
    var e := ThreadStep(s, i);
    var t' := s.threads[i].(phase := e.phase);
    OwnThreadOk(s, i);
    forall j | 0 <= j < |s.threads| && j != i
      ensures ThreadOk(e.db, s.threads[j]) && Apart(t', s.threads[j]) && Apart(s.threads[j], t')
    {
      assert Apart(s.threads[i], s.threads[j]) by {
        assert if i < j then Apart(s.threads[i], s.threads[j]) else Apart(s.threads[j], s.threads[i]);
      }
      OtherThreadOk(s, i, j);
      StaysApart(s, i, j);
    }
  }

  lemma OwnThreadOk(s: System, i: nat)
    requires Inv(s) && i < |s.threads|
    ensures ThreadOk(ThreadStep(s, i).db, s.threads[i].(phase := ThreadStep(s, i).phase))
  {
    hide TradeWrites, TradeCheck, SplitSymbol, RowFree, KeyFree, Apart, Unreserved, ReserveAsset;
    assert ThreadOk(s.db, s.threads[i]);
  }

  /** A step writes only rows it holds and commits only the key it holds. */
  lemma WritesOwnRows(s: System, i: nat)
    requires Inv(s) && i < |s.threads|
    ensures var t, e := s.threads[i], ThreadStep(s, i);
            && e.db.accounts == s.db.accounts
            && (forall id :: id in s.db.orders <==> id in e.db.orders)
            && (forall id :: id in s.db.orders && !HoldsRow(t, id) ==> e.db.orders[id] == s.db.orders[id])
            && (forall key :: (key, ScopeTrade) in e.db.keys ==> (key, ScopeTrade) in s.db.keys || HoldsKey(t, key))
  {
    hide TradeCheck, SplitSymbol, RowFree, KeyFree, Apart, Unreserved, ReserveAsset, TradeDrafts, Stored, Fill, Units;
    assert ThreadOk(s.db, s.threads[i]);
  }

  /** The checks of a trade look at the accounts and at the rows it has read. */
  lemma CheckStays(db: Db, db': Db, cmd: ExecuteTradeCommand, buy: OrderRow, sell: OrderRow)
    requires db'.accounts == db.accounts
    ensures TradeCheck(db', cmd, buy, sell) == TradeCheck(db, cmd, buy, sell)
  {
    hide DraftSum, TradeDrafts;
  }

  lemma OtherThreadOk(s: System, i: nat, j: nat)
    requires Inv(s) && i < |s.threads| && j < |s.threads| && i != j
    requires Apart(s.threads[i], s.threads[j])
    ensures ThreadOk(ThreadStep(s, i).db, s.threads[j])
  {
    hide ThreadStep, SplitSymbol, TradeCheck;
    WritesOwnRows(s, i);
    TerminalStays(s, i);
    forall cmd, buy, sell
      ensures TradeCheck(ThreadStep(s, i).db, cmd, buy, sell) == TradeCheck(s.db, cmd, buy, sell)
    {
      CheckStays(s.db, ThreadStep(s, i).db, cmd, buy, sell);
    }
    var t, u := s.threads[i], s.threads[j];
    assert ThreadOk(s.db, u);
    assert forall id :: HoldsRow(u, id) ==> !HoldsRow(t, id);
    assert forall key :: HoldsKey(u, key) ==> !HoldsKey(t, key);
  }

  /** No step of any transaction moves a cancelled or filled row. */
  lemma TerminalStays(s: System, i: nat)
    requires Inv(s) && i < |s.threads|
    ensures forall id :: id in s.db.orders && IsTerminal(s.db.orders[id].status) ==>
      id in ThreadStep(s, i).db.orders && ThreadStep(s, i).db.orders[id] == s.db.orders[id]
  {
    WritesOwnRows(s, i);
    assert ThreadOk(s.db, s.threads[i]);
    hide ThreadStep, SplitSymbol, DraftSum;
  }

  lemma StaysApart(s: System, i: nat, j: nat)
    requires Inv(s) && i < |s.threads| && j < |s.threads| && i != j
    requires Apart(s.threads[i], s.threads[j])
    ensures Apart(s.threads[i].(phase := ThreadStep(s, i).phase), s.threads[j])
  {
    var t, u := s.threads[i], s.threads[j];
    var t' := t.(phase := ThreadStep(s, i).phase);
    hide TradeCheck, SplitSymbol, CancelWrites, TradeWrites;
    assert ThreadOk(s.db, t) && ThreadOk(s.db, u);
    forall id
      ensures !(HoldsRow(t', id) && HoldsRow(u, id))
      ensures !(CancelledBy(t', id) && CancelledBy(u, id))
    {
      assert !(HoldsRow(t, id) && HoldsRow(u, id));
      assert !(CancelledBy(t, id) && CancelledBy(u, id));
    }
    forall key
      ensures !(HoldsKey(t', key) && HoldsKey(u, key))
    {
      assert !(HoldsKey(t, key) && HoldsKey(u, key));
    }
  }

  lemma OtherKeepsThread(db: Db, c: Call, t: Thread)
    requires IsOther(c) && ThreadOk(db, t)
    ensures ThreadOk(Perform(db, c).db, t)
  {
    hide ReserveAmount, Units, Balance, SplitSymbol, ReserveAsset, DraftSum, TradeDrafts;
  }

  /** Once an order is cancelled or filled, nothing any transaction does later changes its row. */
  lemma {:induction false} TerminalIsFinal(s: System, a: seq<Label>, b: seq<Label>, id: Uuid)
    requires Start(s)
    requires id in Exec(s, a).db.orders && IsTerminal(Exec(s, a).db.orders[id].status)
    ensures id in Exec(s, a + b).db.orders && Exec(s, a + b).db.orders[id] == Exec(s, a).db.orders[id]
  {
    hide ThreadStep, Perform;
    if b == [] {
      assert a + b == a;
    } else {
      var init, l := a + b[..|b| - 1], b[|b| - 1];
      TerminalIsFinal(s, a, b[..|b| - 1], id);
      Serializable(s, init);
      assert (a + b)[..|a + b| - 1] == init;
      var before := Exec(s, init);
      match l
      case Advance(i) =>
        if i < |before.threads| {
          TerminalStays(before, i);
        }
      case Other(c) =>
        if IsOther(c) {
          OtherKeepsRows(before.db, c);
        }
    }
  }

  lemma OtherKeepsRows(db: Db, c: Call)
    requires IsOther(c)
    ensures forall id :: id in db.orders ==>
            id in Perform(db, c).db.orders && Perform(db, c).db.orders[id] == db.orders[id]
  {
    hide ReserveAmount, Units, Balance, SplitSymbol, ReserveAsset;
  }

  // ---- No deadlock -----------------------------------------------------------------------

  /** The trade names a buy order as its buy side and a sell order as its sell side. */
  ghost predicate WellSided(db: Db, t: Thread) {
    t.task.Trading? ==>
      && (t.task.cmd.buyOrderId in db.orders ==> db.orders[t.task.cmd.buyOrderId].side == Buy)
      && (t.task.cmd.sellOrderId in db.orders ==> db.orders[t.task.cmd.sellOrderId].side == Sell)
  }

  ghost predicate CanMove(s: System, i: int) {
    0 <= i < |s.threads| && ThreadStep(s, i).phase != s.threads[i].phase
  }

  /** As long as the trades name orders of the right sides, transactions never wait for each
      other in a circle: while one is unfinished, some transaction can take a step. */
  lemma NoDeadlock(s: System, i: int)
    requires Inv(s) && 0 <= i < |s.threads| && !s.threads[i].phase.Done?
    requires forall t :: t in s.threads ==> WellSided(s.db, t)
    ensures exists j :: CanMove(s, j)
  {
    hide CancelWrites, TradeWrites, TradeCheck, SplitSymbol, Apart;
    assert forall k :: 0 <= k < |s.threads| ==> ThreadOk(s.db, s.threads[k]);
    if j :| 0 <= j < |s.threads| && Commits(s.threads[j]) {
      assert CanMove(s, j);
    } else if j :| 0 <= j < |s.threads| && s.threads[j].phase.BuyHeld? {
      SellRowFree(s, j);
      assert CanMove(s, j);
    } else {
      assert forall k, id :: 0 <= k < |s.threads| ==> !HoldsRow(s.threads[k], id);
      if j :| 0 <= j < |s.threads| && s.threads[j].phase.Keyed? {
        assert CanMove(s, j);
      } else {
        assert forall k, key :: 0 <= k < |s.threads| ==> !HoldsKey(s.threads[k], key);
        assert CanMove(s, i);
      }
    }
  }

  lemma SellRowFree(s: System, j: int)
    requires Inv(s) && 0 <= j < |s.threads| && s.threads[j].phase.BuyHeld? && s.threads[j].task.Trading?
    requires forall t :: t in s.threads ==> WellSided(s.db, t)
    requires forall k :: 0 <= k < |s.threads| ==> !Commits(s.threads[k])
    ensures s.threads[j].task.cmd.sellOrderId in s.db.orders ==> RowFree(s, j, s.threads[j].task.cmd.sellOrderId)
  {
    var id := s.threads[j].task.cmd.sellOrderId;
    forall k | 0 <= k < |s.threads| && k != j && id in s.db.orders
      ensures !HoldsRow(s.threads[k], id)
    {
      assert ThreadOk(s.db, s.threads[k]) && WellSided(s.db, s.threads[k]) && WellSided(s.db, s.threads[j]);
      assert !Commits(s.threads[k]);
    }
  }

  /** Without that they can: two trades that name the same two orders the other way round lock one
      row each and then wait for each other, although each would be refused if it got both. */
  lemma CrossedTradesWait(db: Db, a: ExecuteTradeCommand, b: ExecuteTradeCommand, id: Uuid, id': Uuid)
    requires a.buyOrderId == b.sellOrderId && a.sellOrderId == b.buyOrderId && a.buyOrderId != a.sellOrderId
    requires a.buyOrderId in db.orders && a.sellOrderId in db.orders
    requires SplitSymbol(a.symbol).Some? && SplitSymbol(b.symbol).Some? && a.idempotencyKey != b.idempotencyKey
    requires (a.idempotencyKey, ScopeTrade) !in db.keys && (b.idempotencyKey, ScopeTrade) !in db.keys
    ensures var s := System(db, [Thread(Trading(a, id), Idle), Thread(Trading(b, id'), Idle)]);
            var t := Exec(s, [Advance(0), Advance(0), Advance(1), Advance(1)]);
            && |t.threads| == 2 && !t.threads[0].phase.Done? && !t.threads[1].phase.Done?
            && forall i :: !CanMove(t, i)
  {
    hide SplitSymbol, TradeCheck, TradeWrites;
    var x, y := Trading(a, id), Trading(b, id');
    var s0 := System(db, [Thread(x, Idle), Thread(y, Idle)]);
    var s1 := System(db, [Thread(x, Keyed), Thread(y, Idle)]);
    var s2 := System(db, [Thread(x, BuyHeld(db.orders[a.buyOrderId])), Thread(y, Idle)]);
    var s3 := System(db, [Thread(x, BuyHeld(db.orders[a.buyOrderId])), Thread(y, Keyed)]);
    var s4 := System(db, [Thread(x, BuyHeld(db.orders[a.buyOrderId])), Thread(y, BuyHeld(db.orders[b.buyOrderId]))]);
    assert Next(s0, Advance(0)) == s1;
    assert Next(s1, Advance(0)) == s2;
    assert Next(s2, Advance(1)) == s3;
    assert Next(s3, Advance(1)) == s4;
    FourSteps(s0, Advance(0), Advance(0), Advance(1), Advance(1));
    assert !RowFree(s4, 0, a.sellOrderId) by { assert HoldsRow(s4.threads[1], a.sellOrderId); }
    assert !RowFree(s4, 1, b.sellOrderId) by { assert HoldsRow(s4.threads[0], b.sellOrderId); }
    hide Exec;
  }

  lemma FourSteps(s: System, a: Label, b: Label, c: Label, d: Label)
    ensures Exec(s, [a, b, c, d]) == Next(Next(Next(Next(s, a), b), c), d)
  {
    hide Next;
    assert [a, b, c, d][..3] == [a, b, c] && [a, b, c][..2] == [a, b] && [a, b][..1] == [a] && [a][..0] == [];
    assert Exec(s, [a]) == Next(s, a);
    assert Exec(s, [a, b]) == Next(Next(s, a), b);
    assert Exec(s, [a, b, c]) == Next(Next(Next(s, a), b), c);
  }

  // ---- Cancel against fill ---------------------------------------------------------------

  /**
   Under every interleaving, starting from any tables the services can reach: at most one
   cancel of an order commits, the order is then CANCELLED and stays as it is, at most one
   RELEASE is written, and RESERVE and RELEASE net to minus the held reserve, which is the
   reserve of the part that was filled when the cancel took the lock, and the drift of the
   placement, which is zero at scale 10.
   */
  lemma CancelAgainstFill(db: Db, calls: seq<Call>, s: System, labels: seq<Label>, id: Uuid)
    requires Blank(db) && s.db == PerformAll(db, calls) && Start(s)
    ensures var s' := Exec(s, labels);
            var drift := RunDrift(db, calls + History(s, labels), id);
            && ReserveOk(s'.db, id, drift)
            && (forall i, j :: 0 <= i < j < |s'.threads| ==>
                 !(CancelledBy(s'.threads[i], id) && CancelledBy(s'.threads[j], id)))
            && (forall i :: 0 <= i < |s'.threads| && CancelledBy(s'.threads[i], id) ==>
                  id in s'.db.orders && s'.db.orders[id].status == StatusCancelled)
    ensures var s' := Exec(s, labels);
            (forall c :: c in calls + History(s, labels) ==> ScaleTenCall(c))
            && id in s'.db.orders && s'.db.orders[id].status == StatusCancelled
            && s'.db.orders[id].price >= 0 && s'.db.orders[id].filled <= s'.db.orders[id].quantity ==>
              Sum(s'.db.ledger, ReserveOf(id)) == -ReserveUnits(s'.db.orders[id], s'.db.orders[id].filled)
  {
    hide ScaleTenCall, RunDrift;
    var s', h := Exec(s, labels), History(s, labels);
    Serializable(s, labels);
    PerformAllAppend(db, calls, h);
    RunKeepsReserve(db, calls + h, id);
    hide Held, ReserveUnits;
    forall i, j | 0 <= i < j < |s'.threads|
      ensures !(CancelledBy(s'.threads[i], id) && CancelledBy(s'.threads[j], id))
    {
      assert Apart(s'.threads[i], s'.threads[j]);
    }
    forall i | 0 <= i < |s'.threads| && CancelledBy(s'.threads[i], id)
      ensures id in s'.db.orders && s'.db.orders[id].status == StatusCancelled
    {
      assert ThreadOk(s'.db, s'.threads[i]);
    }
    if (forall c :: c in calls + h ==> ScaleTenCall(c))
       && id in s'.db.orders && s'.db.orders[id].status == StatusCancelled
       && s'.db.orders[id].price >= 0 && s'.db.orders[id].filled <= s'.db.orders[id].quantity {
      ScaleTenRun(db, calls + h, id);
      HeldAfterCancel(s'.db.orders[id]);
    }
  }

  lemma {:induction false} PerformAllAppend(db: Db, a: seq<Call>, b: seq<Call>)
    ensures PerformAll(db, a + b) == PerformAll(PerformAll(db, a), b)
  {
    if b == [] {
      assert a + b == a;
    } else {
      PerformAllAppend(db, a, b[..|b| - 1]);
      assert (a + b)[..|a + b| - 1] == a + b[..|b| - 1];
    }
  }
}
