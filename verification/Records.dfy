/**
 The tables behind the services: orders, ledger entries, idempotency keys, trades, deposits,
 withdrawals, accounts and wallet addresses.  Stored decimals are counted in units of 10^-10.
 */
module Records {
  import opened Domain
  import opened Numeric

  datatype Status = StatusOpen | StatusPartial | StatusFilled | StatusCancelled

  predicate IsTerminal(s: Status) {
    s == StatusFilled || s == StatusCancelled
  }

  predicate IsCancellable(s: Status) {
    s == StatusOpen || s == StatusPartial
  }

  datatype OrderRow = OrderRow(
    userId: Uuid,
    symbol: string,
    side: Side,
    price: int,
    quantity: int,
    filled: int,
    status: Status)

  datatype EntryType = EntryReserve | EntryRelease | EntryTrade | EntryDeposit | EntryWithdraw

  datatype Entry = Entry(userId: Uuid, asset: string, amount: int, entryType: EntryType, refId: Uuid)

  datatype Scope = ScopeOrder | ScopeTrade | ScopeWithdraw

  datatype TradeRow = TradeRow(
    id: Uuid, symbol: string, buyOrderId: Uuid, sellOrderId: Uuid,
    buyUserId: Uuid, sellUserId: Uuid, price: int, quantity: int)

  datatype DepositStatus = DepositPending | DepositConfirmed | DepositRejected

  datatype DepositRow = DepositRow(userId: Uuid, asset: string, amount: int, txHash: string, status: DepositStatus)

  datatype WithdrawalRow = WithdrawalRow(id: Uuid, userId: Uuid, asset: string, amount: int)

  datatype Wallet = Wallet(userId: Uuid, asset: string)

  /** `created` and `intaken` list the order and deposit ids in created_at order. */
  datatype Db = Db(
    orders: map<Uuid, OrderRow>,
    created: seq<Uuid>,
    ledger: seq<Entry>,
    keys: set<(string, Scope)>,
    trades: seq<TradeRow>,
    deposits: map<Uuid, DepositRow>,
    intaken: seq<Uuid>,
    withdrawals: seq<WithdrawalRow>,
    accounts: set<(Uuid, string)>,
    wallets: map<string, Wallet>)

  // ---- Symbols ---------------------------------------------------------------------------

  /** The position of the first dash, or the length of s. */
  function Dash(s: string): (k: nat)
    ensures k <= |s|
    ensures k < |s| ==> s[k] == '-'
    ensures forall i :: 0 <= i < k ==> s[i] != '-'
  {
    if s == [] || s[0] == '-' then 0 else 1 + Dash(s[1..])
  }

  /** BASE-QUOTE, exactly one dash and neither part empty. */
  function SplitSymbol(symbol: string): Option<(string, string)> {
    var k := Dash(symbol);
    if k == |symbol| then None
    else
      var base, quote := symbol[..k], symbol[k + 1..];
      if base == "" || quote == "" || Dash(quote) < |quote| then None else Some((base, quote))
  }

  ghost predicate DashFree(s: string) {
    forall i :: 0 <= i < |s| ==> s[i] != '-'
  }

  /** A symbol splits into base and quote exactly when it is their join and both are proper. */
  lemma SplitIsJoin(symbol: string, base: string, quote: string)
    ensures SplitSymbol(symbol) == Some((base, quote)) <==>
            symbol == base + "-" + quote && base != "" && quote != "" && DashFree(base) && DashFree(quote)
  {
    var k := Dash(symbol);
    if symbol == base + "-" + quote && DashFree(base) && DashFree(quote) {
      assert symbol[|base|] == '-';
      assert forall i :: 0 <= i < |base| ==> symbol[i] == base[i];
      assert k == |base| && symbol[..k] == base && symbol[k + 1..] == quote;
      assert Dash(quote) == |quote|;
    }
    if SplitSymbol(symbol) == Some((base, quote)) {
      assert symbol == symbol[..k] + [symbol[k]] + symbol[k + 1..];
      assert Dash(quote) == |quote|;
    }
  }

  function BaseOf(symbol: string): string {
    match SplitSymbol(symbol)
    case Some(parts) => parts.0
    case None => ""
  }

  function QuoteOf(symbol: string): string {
    match SplitSymbol(symbol)
    case Some(parts) => parts.1
    case None => ""
  }

  // ---- Ledger sums -----------------------------------------------------------------------

  ghost function AmountFor(userId: Uuid, asset: string): Entry -> int {
    (e: Entry) => if e.userId == userId && e.asset == asset then e.amount else 0
  }

  ghost function AmountIn(asset: string): Entry -> int {
    (e: Entry) => if e.asset == asset then e.amount else 0
  }

  /** SumByUserAsset. */
  function Balance(ledger: seq<Entry>, userId: Uuid, asset: string): int {
    if ledger == [] then 0
    else
      var e := ledger[|ledger| - 1];
      Balance(ledger[..|ledger| - 1], userId, asset) + (if e.userId == userId && e.asset == asset then e.amount else 0)
  }

  lemma {:induction false} BalanceIsSum(ledger: seq<Entry>, userId: Uuid, asset: string)
    ensures Balance(ledger, userId, asset) == Sum(ledger, AmountFor(userId, asset))
  {
    if ledger != [] {
      BalanceIsSum(ledger[..|ledger| - 1], userId, asset);
    }
  }

  // ---- Reserves --------------------------------------------------------------------------

  /** The asset an order locks: quote for a buy, base for a sell. */
  function ReserveAsset(row: OrderRow): string {
    if row.side == Buy then QuoteOf(row.symbol) else BaseOf(row.symbol)
  }

  /** What a quantity of this order is worth in its reserve asset, as it is stored. */
  function ReserveUnits(row: OrderRow, qty: int): int {
    if row.side == Buy then MulUnits(row.price, qty) else qty
  }

  /** The reserve the ledger still holds for an order: all of it until a cancel, then only the
      part that was filled, unless that is the larger one (a cancel releases nothing then).
      Nothing ever releases the reserve of a filled order. */
  function Held(row: OrderRow): int {
    var whole := ReserveUnits(row, row.quantity);
    if row.status == StatusCancelled then Min(whole, ReserveUnits(row, row.filled)) else whole
  }

  /** For an order that is not filled beyond its quantity, at a price that is not negative, a
      cancel leaves exactly the reserve of the filled part. */
  lemma HeldAfterCancel(row: OrderRow)
    requires row.status == StatusCancelled && row.price >= 0 && row.filled <= row.quantity
    ensures Held(row) == ReserveUnits(row, row.filled)
  {
    MulUnitsMonotone(row.price, row.filled, row.quantity);
    hide MulUnits;
  }
}
