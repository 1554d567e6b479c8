/**
 Idempotent replay: a (key, scope) pair commits at most once, later calls that carry it change
 nothing, and a run with retries ends where the run of its committed calls alone ends.
 */
module Idempotency {
  import opened Domain
  import opened Numeric
  import opened Records
  import opened Transactions
  import opened LedgerRun

  /** The idempotency key a call inserts. */
  function KeyOf(c: Call): Option<(string, Scope)> {
    match c
    case CallPlace(_, cmd, _) => Some((cmd.idempotencyKey, ScopeOrder))
    case CallTrade(cmd, _) => Some((cmd.idempotencyKey, ScopeTrade))
    case CallWithdraw(cmd, _) => Some((cmd.idempotencyKey, ScopeWithdraw))
    case _ => None
  }

  /** A call commits only with a key nobody has used, and then the key is used. */
  lemma CommitUsesKey(db: Db, c: Call)
    ensures var r := Perform(db, c);
            && db.keys <= r.db.keys
            && (r.result.Ok? && KeyOf(c).Some? ==> KeyOf(c).value !in db.keys && KeyOf(c).value in r.db.keys)
            && r.db.keys <= db.keys + (if KeyOf(c).Some? then {KeyOf(c).value} else {})
  {
    hide ReserveAmount, Unreserved, TradeCheck, TradeDrafts, Balance, Fill, SplitSymbol, Stored;
  }

  /** A retry of a used key is refused and changes no row.  The refusal is the duplicate error
      unless an earlier check of the same call already fails. */
  lemma RetryChangesNothing(db: Db, c: Call)
    requires KeyOf(c).Some? && KeyOf(c).value in db.keys
    ensures Perform(db, c).db == db && Perform(db, c).result.Err?
    ensures c.CallTrade? && SplitSymbol(c.trade.symbol).Some? ==>
      Perform(db, c).result == Err(ErrDuplicateIdempotencyKey)
  {
    CommitUsesKey(db, c);
    FailureChangesNothing(db, c);
    hide PlaceOrder, Withdraw;
  }

  // ---- What a retry is answered ----------------------------------------------------------

  /** The checks a placement makes before it looks at the balance. */
  predicate PlaceChecked(db: Db, markets: set<string>, cmd: PlaceOrderCommand) {
    && cmd.userId != NIL_UUID && (markets == {} || cmd.symbol in markets)
    && SplitSymbol(cmd.symbol).Some? && cmd.side.Some?
    && (cmd.userId, ReserveAsset(NewRow(cmd, cmd.side.value))) in db.accounts
  }

  /** The balance of the reserve asset covers the placement. */
  predicate PlaceAffordable(db: Db, cmd: PlaceOrderCommand)
    requires cmd.side.Some?
  {
    var side := cmd.side.value;
    ReserveAmount(side, cmd.price, cmd.quantity) <= Dec(Balance(db.ledger, cmd.userId, ReserveAsset(NewRow(cmd, side))))
  }

  /** The key is looked at only after the balance: a retried placement is recognised as a
      duplicate exactly when the user could still afford it, and is otherwise refused for lack
      of funds, or by an earlier check. */
  lemma RetriedPlacement(db: Db, markets: set<string>, cmd: PlaceOrderCommand, id: Uuid)
    requires (cmd.idempotencyKey, ScopeOrder) in db.keys
    ensures var r := PlaceOrder(db, markets, cmd, id);
            && r.db == db
            && (r.result == Err(ErrDuplicateIdempotencyKey) <==>
                 PlaceChecked(db, markets, cmd) && PlaceAffordable(db, cmd))
            && (r.result == Err(ErrInsufficientFunds) <==> PlaceChecked(db, markets, cmd) && !PlaceAffordable(db, cmd))
  {
    hide Balance, ReserveAmount, ReserveAsset, SplitSymbol, Dec;
  }

  /** The checks a withdrawal makes before it looks at the balance. */
  predicate WithdrawChecked(db: Db, cmd: WithdrawCommand) {
    cmd.amount > 0.0 && cmd.catalog.None? && (cmd.userId, cmd.asset) in db.accounts
  }

  /** The same for a withdrawal, whatever errors of its own the asset catalog may answer. */
  lemma RetriedWithdrawal(db: Db, cmd: WithdrawCommand, id: Uuid)
    requires (cmd.idempotencyKey, ScopeWithdraw) in db.keys
    requires cmd.catalog != Some(ErrDuplicateIdempotencyKey) && cmd.catalog != Some(ErrInsufficientFunds)
    ensures var r := Withdraw(db, cmd, id);
            var affordable := cmd.amount <= Dec(Balance(db.ledger, cmd.userId, cmd.asset));
            && r.db == db
            && (r.result == Err(ErrDuplicateIdempotencyKey) <==> WithdrawChecked(db, cmd) && affordable)
            && (r.result == Err(ErrInsufficientFunds) <==> WithdrawChecked(db, cmd) && !affordable)
  {
    hide Balance, Dec;
  }

  lemma {:induction false} KeysOnlyGrow(db: Db, a: seq<Call>, b: seq<Call>)
    ensures PerformAll(db, a).keys <= PerformAll(db, a + b).keys
  {
    hide Perform;
    if b == [] {
      assert a + b == a;
    } else {
      KeysOnlyGrow(db, a, b[..|b| - 1]);
      assert (a + b)[..|a + b| - 1] == a + b[..|b| - 1];
      CommitUsesKey(PerformAll(db, a + b[..|b| - 1]), b[|b| - 1]);
    }
  }

  /** Once a call commits, every later call of the run with its key changes nothing. */
  lemma CommittedOnce(db: Db, calls: seq<Call>, i: int, j: int)
    requires 0 <= i < j < |calls| && KeyOf(calls[i]).Some? && KeyOf(calls[j]) == KeyOf(calls[i])
    requires Perform(PerformAll(db, calls[..i]), calls[i]).result.Ok?
    ensures Perform(PerformAll(db, calls[..j]), calls[j]).result.Err?
    ensures PerformAll(db, calls[..j + 1]) == PerformAll(db, calls[..j])
  {
    hide Perform;
    CommitUsesKey(PerformAll(db, calls[..i]), calls[i]);
    assert calls[..i + 1][..i] == calls[..i] && calls[..j + 1][..j] == calls[..j];
    assert calls[..j] == calls[..i + 1] + calls[i + 1..j];
    KeysOnlyGrow(db, calls[..i + 1], calls[i + 1..j]);
    RetryChangesNothing(PerformAll(db, calls[..j]), calls[j]);
  }

  /** The calls of a run that commit, in order. */
  function Committed(db: Db, calls: seq<Call>): seq<Call> {
    if calls == [] then []
    else
      var k := |calls| - 1;
      if Perform(PerformAll(db, calls[..k]), calls[k]).result.Ok?
      then Committed(db, calls[..k]) + [calls[k]]
      else Committed(db, calls[..k])
  }

  ghost predicate DistinctKeys(calls: seq<Call>) {
    forall i, j :: 0 <= i < j < |calls| && KeyOf(calls[i]).Some? ==> KeyOf(calls[i]) != KeyOf(calls[j])
  }

  /** Keeping only the committed calls reaches the same tables, with no key used twice, and
      each of them commits again. */
  lemma {:induction false} ReplayIsCommittedRun(db: Db, calls: seq<Call>)
    ensures var kept := Committed(db, calls);
            && PerformAll(db, kept) == PerformAll(db, calls)
            && Committed(db, kept) == kept
            && DistinctKeys(kept)
            && forall c :: c in kept && KeyOf(c).Some? ==> KeyOf(c).value in PerformAll(db, calls).keys
  {
    if calls != [] {
      var k := |calls| - 1;
      var before := PerformAll(db, calls[..k]);
      var kept := Committed(db, calls[..k]);
      ReplayIsCommittedRun(db, calls[..k]);
      CommitUsesKey(before, calls[k]);
      FailureChangesNothing(before, calls[k]);
      hide Perform;
      if Perform(before, calls[k]).result.Ok? {
        assert (kept + [calls[k]])[..|kept|] == kept;
      }
    }
  }
}
