/**
 Runs from empty tables that end where one would not want them.  A buyer and a seller deposit
 exactly what one order each needs and place the two orders at one price.
 */
module Scenarios {
  import opened Domain
  import opened PriceTime
  import opened BookFacts
  import opened EngineRun
  import opened Numeric
  import opened Records
  import opened Transactions
  import opened MatchKeys
  import T = Transactions
  import L = LedgerRun
  import F = Funds
  import X = Exchange
  import S = ExchangeSettle
  import R = ExchangeRestart
  import H = Rehydration

  /** Two users and an order of each, on different sides at one price. */
  datatype Pair = Pair(
    symbol: string, price: int, quantity: int,
    buyer: Uuid, seller: Uuid,
    buyDeposit: Uuid, sellDeposit: Uuid, buyOrder: Uuid, sellOrder: Uuid,
    buyAddress: string, sellAddress: string, buyHash: string, sellHash: string, buyKey: string, sellKey: string)

  function Amount(p: Pair): int {
    MulUnits(p.price, p.quantity)
  }

  /** Empty tables in which both users have accounts in both assets and a deposit address. */
  ghost predicate Ready(p: Pair, db: Db) {
    && L.Blank(db)
    && SplitSymbol(p.symbol).Some? && BaseOf(p.symbol) != QuoteOf(p.symbol)
    && p.price > 0 && p.quantity > 0 && Amount(p) > 0
    && p.buyer != p.seller && p.buyer != NIL_UUID && p.seller != NIL_UUID
    && p.buyDeposit != p.sellDeposit && p.buyOrder != p.sellOrder
    && p.buyHash != p.sellHash && p.buyKey != p.sellKey
    && p.buyAddress in db.wallets && db.wallets[p.buyAddress] == Wallet(p.buyer, QuoteOf(p.symbol))
    && p.sellAddress in db.wallets && db.wallets[p.sellAddress] == Wallet(p.seller, BaseOf(p.symbol))
    && X.Provisioned(p.symbol, db, p.buyer) && X.Provisioned(p.symbol, db, p.seller)
  }

  // ---- The calls -------------------------------------------------------------------------

  function IntakeOfBuyer(p: Pair): Call {
    CallIntake(IntakeCommand(p.buyAddress, QuoteOf(p.symbol), Dec(Amount(p)), p.buyHash), p.buyDeposit)
  }

  function IntakeOfSeller(p: Pair): Call {
    CallIntake(IntakeCommand(p.sellAddress, BaseOf(p.symbol), Dec(p.quantity), p.sellHash), p.sellDeposit)
  }

  function Buying(p: Pair): PlaceOrderCommand {
    PlaceOrderCommand(p.buyer, p.symbol, Some(Buy), Dec(p.price), Dec(p.quantity), p.buyKey)
  }

  function Selling(p: Pair): PlaceOrderCommand {
    PlaceOrderCommand(p.seller, p.symbol, Some(Sell), Dec(p.price), Dec(p.quantity), p.sellKey)
  }

  /** A trade of the two orders, of any quantity. */
  function Trading(p: Pair, quantity: real, key: string): ExecuteTradeCommand {
    ExecuteTradeCommand(p.symbol, p.buyOrder, p.sellOrder, Dec(p.price), quantity, key)
  }

  function Prelude(p: Pair): seq<Call> {
    [IntakeOfBuyer(p)] + [IntakeOfSeller(p)] + [CallConfirm(p.buyDeposit)] + [CallConfirm(p.sellDeposit)]
    + [CallPlace({}, Selling(p), p.sellOrder)] + [CallPlace({}, Buying(p), p.buyOrder)]
  }

  // ---- The tables they leave -------------------------------------------------------------

  function Deposits(p: Pair, buy: DepositStatus, sell: DepositStatus): map<Uuid, DepositRow> {
    map[p.buyDeposit := DepositRow(p.buyer, QuoteOf(p.symbol), Amount(p), p.buyHash, buy),
        p.sellDeposit := DepositRow(p.seller, BaseOf(p.symbol), p.quantity, p.sellHash, sell)]
  }

  function BuyRow(p: Pair): OrderRow {
    OrderRow(p.buyer, p.symbol, Buy, p.price, p.quantity, 0, StatusOpen)
  }

  function SellRow(p: Pair): OrderRow {
    OrderRow(p.seller, p.symbol, Sell, p.price, p.quantity, 0, StatusOpen)
  }

  function BuyerCredit(p: Pair): Entry {
    Entry(p.buyer, QuoteOf(p.symbol), Amount(p), EntryDeposit, p.buyDeposit)
  }

  function SellerCredit(p: Pair): Entry {
    Entry(p.seller, BaseOf(p.symbol), p.quantity, EntryDeposit, p.sellDeposit)
  }

  function SellerReserve(p: Pair): Entry {
    Entry(p.seller, BaseOf(p.symbol), -p.quantity, EntryReserve, p.sellOrder)
  }

  function BuyerReserve(p: Pair): Entry {
    Entry(p.buyer, QuoteOf(p.symbol), -Amount(p), EntryReserve, p.buyOrder)
  }

  function Taken(p: Pair, db: Db): Db {
    db.(deposits := Deposits(p, DepositPending, DepositPending), intaken := [p.buyDeposit, p.sellDeposit])
  }

  function Credited(p: Pair, db: Db): Db {
    Taken(p, db).(deposits := Deposits(p, DepositConfirmed, DepositConfirmed),
                  ledger := [BuyerCredit(p), SellerCredit(p)])
  }

  function SellPlaced(p: Pair, db: Db): Db {
    Credited(p, db).(keys := {(p.sellKey, ScopeOrder)},
                     orders := map[p.sellOrder := SellRow(p)], created := [p.sellOrder],
                     ledger := [BuyerCredit(p), SellerCredit(p), SellerReserve(p)])
  }

  function BothPlaced(p: Pair, db: Db): Db {
    SellPlaced(p, db).(keys := {(p.sellKey, ScopeOrder), (p.buyKey, ScopeOrder)},
                       orders := map[p.sellOrder := SellRow(p), p.buyOrder := BuyRow(p)],
                       created := [p.sellOrder, p.buyOrder],
                       ledger := [BuyerCredit(p), SellerCredit(p), SellerReserve(p), BuyerReserve(p)])
  }

  // ---- Call by call ----------------------------------------------------------------------

  lemma IntakesDo(p: Pair, db: Db)
    requires Ready(p, db)
    ensures var first := Perform(db, IntakeOfBuyer(p)).db; Perform(first, IntakeOfSeller(p)).db == Taken(p, db)
  {
    hide Units, Dec, MulUnits;
    UnitsOfDec(Amount(p));
    UnitsOfDec(p.quantity);
    var first := Perform(db, IntakeOfBuyer(p)).db;
    var row := DepositRow(p.buyer, QuoteOf(p.symbol), Amount(p), p.buyHash, DepositPending);
    assert first == db.(deposits := map[p.buyDeposit := row],
                        intaken := [p.buyDeposit]);
    assert !TxHashTaken(first, p.sellHash);
  }

  lemma ConfirmsDo(p: Pair, db: Db)
    requires Ready(p, db)
    ensures var first := Perform(Taken(p, db), CallConfirm(p.buyDeposit)).db;
            Perform(first, CallConfirm(p.sellDeposit)).db == Credited(p, db)
  {
    hide Units, Dec, MulUnits, BaseOf, QuoteOf;
    var first := Perform(Taken(p, db), CallConfirm(p.buyDeposit)).db;
    assert first == Taken(p, db).(deposits := Deposits(p, DepositConfirmed, DepositPending),
                                    ledger := [BuyerCredit(p)]);
  }

  lemma BalanceOne(e: Entry, userId: Uuid, asset: string)
    ensures Balance([e], userId, asset) == if e.userId == userId && e.asset == asset then e.amount else 0
  {
    F.BalanceNext([], e, userId, asset);
    assert [] + [e] == [e];
  }

  lemma SellDoes(p: Pair, db: Db)
    requires Ready(p, db)
    ensures PlaceOrder(Credited(p, db), {}, Selling(p), p.sellOrder) == Outcome(SellPlaced(p, db), Ok(p.sellOrder))
  {
    hide Units, Dec, MulUnits, Balance, Neg;
    UnitsOfNeg(Dec(p.quantity));
    UnitsOfDec(p.price);
    UnitsOfDec(p.quantity);
    BalanceOne(BuyerCredit(p), p.seller, BaseOf(p.symbol));
    F.BalanceNext([BuyerCredit(p)], SellerCredit(p), p.seller, BaseOf(p.symbol));
    assert [BuyerCredit(p)] + [SellerCredit(p)] == Credited(p, db).ledger;
  }

  lemma BuyDoes(p: Pair, db: Db)
    requires Ready(p, db)
    ensures PlaceOrder(SellPlaced(p, db), {}, Buying(p), p.buyOrder) == Outcome(BothPlaced(p, db), Ok(p.buyOrder))
  {
    hide Units, Dec, Balance, Neg, Mul, MulUnits;
    MulOfDec(p.price, p.quantity);
    UnitsOfNeg(Dec(Amount(p)));
    UnitsOfDec(Amount(p));
    UnitsOfDec(p.price);
    UnitsOfDec(p.quantity);
    BuyerHas(p, db);
  }

  lemma BuyerHas(p: Pair, db: Db)
    requires Ready(p, db)
    ensures Balance(SellPlaced(p, db).ledger, p.buyer, QuoteOf(p.symbol)) == Amount(p)
    ensures Balance(BothPlaced(p, db).ledger, p.buyer, QuoteOf(p.symbol)) == 0
    ensures Balance(BothPlaced(p, db).ledger, p.seller, BaseOf(p.symbol)) == 0
  {
    hide Balance, BaseOf, QuoteOf, MulUnits;
    var a, b, c, d := BuyerCredit(p), SellerCredit(p), SellerReserve(p), BuyerReserve(p);
    assert [a] + [b] == [a, b];
    assert [a, b] + [c] == [a, b, c];
    assert [a, b, c] + [d] == [a, b, c, d];
    BalanceOne(a, p.buyer, QuoteOf(p.symbol));
    F.BalanceNext([a], b, p.buyer, QuoteOf(p.symbol));
    F.BalanceNext([a, b], c, p.buyer, QuoteOf(p.symbol));
    F.BalanceNext([a, b, c], d, p.buyer, QuoteOf(p.symbol));
    BalanceOne(a, p.seller, BaseOf(p.symbol));
    F.BalanceNext([a], b, p.seller, BaseOf(p.symbol));
    F.BalanceNext([a, b], c, p.seller, BaseOf(p.symbol));
    F.BalanceNext([a, b, c], d, p.seller, BaseOf(p.symbol));
  }

  lemma PerformNext(db: Db, calls: seq<Call>, c: Call)
    ensures PerformAll(db, calls + [c]) == Perform(PerformAll(db, calls), c).db
  {
    hide Perform;
    assert (calls + [c])[..|calls|] == calls;
  }

  /** The whole prelude commits. */
  lemma PreludeDoes(p: Pair, db: Db)
    requires Ready(p, db)
    ensures PerformAll(db, Prelude(p)) == BothPlaced(p, db)
  {
    hide PlaceOrder, Intake, Confirm, Ready, Taken, Credited, SellPlaced, BothPlaced;
    var a, b := IntakeOfBuyer(p), IntakeOfSeller(p);
    var c, d := CallConfirm(p.buyDeposit), CallConfirm(p.sellDeposit);
    var e, f := CallPlace({}, Selling(p), p.sellOrder), CallPlace({}, Buying(p), p.buyOrder);
    IntakesDo(p, db);
    ConfirmsDo(p, db);
    SellDoes(p, db);
    BuyDoes(p, db);
    PerformNext(db, [], a);
    assert [] + [a] == [a] && PerformAll(db, []) == db;
    PerformNext(db, [a], b);
    PerformNext(db, [a] + [b], c);
    PerformNext(db, [a] + [b] + [c], d);
    PerformNext(db, [a] + [b] + [c] + [d], e);
    PerformNext(db, [a] + [b] + [c] + [d] + [e], f);
  }

  // ---- A retry that is not recognised ----------------------------------------------------

  /** The buy reserved the whole balance, so retrying it with its own key is refused for lack of
      funds and not as a duplicate. */
  lemma RetryLacksFunds(p: Pair, db: Db, id: Uuid)
    requires Ready(p, db)
    ensures PlaceOrder(PerformAll(db, Prelude(p)), {}, Buying(p), id).result == Err(ErrInsufficientFunds)
  {
    hide Units, Dec, Balance, Neg, Mul, MulUnits, Prelude;
    PreludeDoes(p, db);
    BuyerHas(p, db);
    MulOfDec(p.price, p.quantity);
    assert Dec(Amount(p)) > Dec(0) by { DecGrows(Amount(p)); }
  }

  lemma DecGrows(u: int)
    requires u > 0
    ensures Dec(u) > Dec(0)
  {
  }

  // ---- A trade of the two orders ---------------------------------------------------------

  lemma TradeCommits(p: Pair, db: Db, quantity: real, key: string, id: Uuid)
    requires Ready(p, db)
    ensures ExecuteTrade(PerformAll(db, Prelude(p)), Trading(p, quantity, key), id).result == Ok(id)
  {
    hide Units, Dec, Stored, TradeDrafts, DraftSum, TradeWrites, Prelude;
    PreludeDoes(p, db);
    L.TradeEntriesZeroSum(p.buyer, p.seller, BaseOf(p.symbol), QuoteOf(p.symbol), Dec(p.price), quantity, id, "");
  }

  /** Filling the two orders completely leaves both users overdrawn by what their orders had
      reserved: the trade debits it again. */
  lemma BothOverdrawn(p: Pair, db: Db, key: string, id: Uuid)
    requires Ready(p, db)
    ensures var after := PerformAll(db, Prelude(p) + [CallTrade(Trading(p, Dec(p.quantity), key), id)]);
            && Balance(after.ledger, p.buyer, QuoteOf(p.symbol)) == -Amount(p) < 0
            && Balance(after.ledger, p.seller, BaseOf(p.symbol)) == -p.quantity < 0
            && p.buyOrder in after.orders && after.orders[p.buyOrder].status == StatusFilled
            && p.sellOrder in after.orders && after.orders[p.sellOrder].status == StatusFilled
  {
    hide ExecuteTrade, Prelude, Balance, Units, Dec, Times, T.Fill;
    var before, cmd := PerformAll(db, Prelude(p)), Trading(p, Dec(p.quantity), key);
    PerformNext(db, Prelude(p), CallTrade(cmd, id));
    PreludeDoes(p, db);
    TradeCommits(p, db, Dec(p.quantity), key, id);
    BuyerHas(p, db);
    UnitsOfDec(p.quantity);
    F.TradeMoves(before, cmd, id, p.buyer, QuoteOf(p.symbol));
    F.TradeMoves(before, cmd, id, p.seller, BaseOf(p.symbol));
    L.TradeEffect(before, cmd, id);
    L.FillStep(BuyRow(p), Dec(p.quantity));
    L.FillStep(SellRow(p), Dec(p.quantity));
  }

  /** A trade of more than the orders' quantity commits as well, and overfills both. */
  lemma BothOverfilled(p: Pair, db: Db, more: int, key: string, id: Uuid)
    requires Ready(p, db) && more > p.quantity
    ensures var after := PerformAll(db, Prelude(p) + [CallTrade(Trading(p, Dec(more), key), id)]);
            && p.buyOrder in after.orders && after.orders[p.buyOrder].filled == more > after.orders[p.buyOrder].quantity
            && p.sellOrder in after.orders && after.orders[p.sellOrder].filled == more
            && more > after.orders[p.sellOrder].quantity
  {
    hide ExecuteTrade, Prelude, Balance, Units, Dec, Times, T.Fill, MulUnits;
    var before, cmd := PerformAll(db, Prelude(p)), Trading(p, Dec(more), key);
    PerformNext(db, Prelude(p), CallTrade(cmd, id));
    PreludeDoes(p, db);
    TradeCommits(p, db, Dec(more), key, id);
    UnitsOfDec(more);
    L.TradeEffect(before, cmd, id);
    L.FillStep(BuyRow(p), Dec(more));
    L.FillStep(SellRow(p), Dec(more));
    L.FillRow(BuyRow(p), Dec(more));
    L.FillRow(SellRow(p), Dec(more));
  }

  // ---- The two orders in the engine ------------------------------------------------------

  function BuyInEngine(p: Pair): Order {
    X.EngineOrder(p.buyOrder, BuyRow(p))
  }

  function SellInEngine(p: Pair): Order {
    X.EngineOrder(p.sellOrder, SellRow(p))
  }

  function TheMatch(p: Pair): Matched {
    Matched(1, TradeOf(p.symbol, BuyInEngine(p), Fill(SellInEngine(p), p.quantity)))
  }

  function Resting(p: Pair): Shard {
    Shard(Book([], [SellInEngine(p)]), 0, [OrderRested(SellInEngine(p))])
  }

  function MatchedShard(p: Pair): Shard {
    Shard(Book([], []), 1, [OrderRested(SellInEngine(p)), TradeMatched(TheMatch(p))])
  }

  lemma SellRests(p: Pair)
    requires p.quantity > 0
    ensures Handle(p.symbol, FRESH, PlaceCommand(Some(SellInEngine(p)))) == Resting(p)
  {
  }

  lemma BuyMatches(p: Pair)
    requires p.quantity > 0
    ensures Handle(p.symbol, Resting(p), PlaceCommand(Some(BuyInEngine(p)))) == MatchedShard(p)
    ensures Matches(MatchedShard(p).log) == [TheMatch(p)]
  {
    var a, b := SellInEngine(p), BuyInEngine(p);
    assert [a][1..] == [];
    assert Sweep(Buy, b.price, b.remaining, [a]) == Sweeping([Fill(a, p.quantity)], 0, []);
    var m := Match(p.symbol, Resting(p).book, b);
    assert m.trades == [TheMatch(p).trade];
    assert Published(Numbered(0, m.trades)) == [TradeMatched(TheMatch(p))];
    assert MatchedShard(p).log[..1] == [OrderRested(a)] && [OrderRested(a)][..0] == [];
    assert Matches([OrderRested(a)]) == [];
  }

  /** The actions were allowed and led from s to t. */
  ghost predicate Leads(symbol: string, s: X.State, actions: seq<X.Action>, t: X.State) {
    X.AllAllowed(symbol, s, actions) && X.Exec(symbol, s, actions) == t
  }

  lemma LeadsNext(symbol: string, s: X.State, actions: seq<X.Action>, t: X.State, a: X.Action)
    requires Leads(symbol, s, actions, t) && X.Allowed(symbol, t.db, a)
    ensures Leads(symbol, s, actions + [a], X.Act(symbol, t, a))
  {
    hide X.Act, X.Allowed;
    var all := actions + [a];
    assert all[..|actions|] == actions;
    forall k | 0 <= k < |all|
      ensures X.Allowed(symbol, X.Exec(symbol, s, all[..k]).db, all[k])
    {
      assert k < |actions| ==> all[..k] == actions[..k];
    }
  }

  function Placements(p: Pair): seq<X.Action> {
    [X.Elsewhere(IntakeOfBuyer(p))] + [X.Elsewhere(IntakeOfSeller(p))]
    + [X.Elsewhere(CallConfirm(p.buyDeposit))] + [X.Elsewhere(CallConfirm(p.sellDeposit))]
    + [X.Place({}, Selling(p), p.sellOrder)] + [X.Place({}, Buying(p), p.buyOrder)]
  }

  function Placed(p: Pair, db: Db): X.State {
    X.State(BothPlaced(p, db), FRESH, 0, [],
            [PlaceCommand(Some(SellInEngine(p)))] + [PlaceCommand(Some(BuyInEngine(p)))], {}, map[])
  }

  lemma PlacementsLead(p: Pair, s: X.State)
    requires X.Initial(p.symbol, s) && Ready(p, s.db)
    ensures Leads(p.symbol, s, Placements(p), Placed(p, s.db))
  {
    hide PlaceOrder, Intake, Confirm, BaseOf, QuoteOf, X.Exec, X.AllAllowed, Units, Dec, MulUnits, SplitSymbol;
    var db := s.db;
    var a, b := IntakeOfBuyer(p), IntakeOfSeller(p);
    var c, d := CallConfirm(p.buyDeposit), CallConfirm(p.sellDeposit);
    IntakesDo(p, db);
    ConfirmsDo(p, db);
    SellDoes(p, db);
    BuyDoes(p, db);
    UnitsOfDec(p.quantity);
    assert Leads(p.symbol, s, [], s) by { NothingLeads(p.symbol, s); }
    var s1 := X.Act(p.symbol, s, X.Elsewhere(a));
    LeadsNext(p.symbol, s, [], s, X.Elsewhere(a));
    assert [] + [X.Elsewhere(a)] == [X.Elsewhere(a)];
    LeadsNext(p.symbol, s, [X.Elsewhere(a)], s1, X.Elsewhere(b));
    var s2 := s.(db := Taken(p, db));
    LeadsNext(p.symbol, s, [X.Elsewhere(a)] + [X.Elsewhere(b)], s2, X.Elsewhere(c));
    var s3 := X.Act(p.symbol, s2, X.Elsewhere(c));
    LeadsNext(p.symbol, s, [X.Elsewhere(a)] + [X.Elsewhere(b)] + [X.Elsewhere(c)], s3, X.Elsewhere(d));
    var s4 := s.(db := Credited(p, db));
    var deposits := [X.Elsewhere(a)] + [X.Elsewhere(b)] + [X.Elsewhere(c)] + [X.Elsewhere(d)];
    LeadsNext(p.symbol, s, deposits, s4, X.Place({}, Selling(p), p.sellOrder));
    var s5 := s.(db := SellPlaced(p, db), outbound := [PlaceCommand(Some(SellInEngine(p)))]);
    assert X.Act(p.symbol, s4, X.Place({}, Selling(p), p.sellOrder)) == s5;
    LeadsNext(p.symbol, s, deposits + [X.Place({}, Selling(p), p.sellOrder)], s5, X.Place({}, Buying(p), p.buyOrder));
  }

  lemma NothingLeads(symbol: string, s: X.State)
    ensures Leads(symbol, s, [], s)
  {
  }

  /** The sell has reached the engine and rests; the buy is still on its way. */
  function SellResting(p: Pair): seq<X.Action> {
    Placements(p) + [X.Submit(0, true)] + [X.Work]
  }

  function SellRestingState(p: Pair, db: Db): X.State {
    X.State(BothPlaced(p, db), Resting(p), 0, [], [PlaceCommand(Some(BuyInEngine(p)))], {}, map[])
  }

  lemma SellRestingLeads(p: Pair, s: X.State)
    requires X.Initial(p.symbol, s) && Ready(p, s.db)
    ensures Leads(p.symbol, s, SellResting(p), SellRestingState(p, s.db))
  {
    hide Handle, Leads, Placements, BothPlaced, Ready, Resting, SellInEngine, BuyInEngine;
    var sell, buy := PlaceCommand(Some(SellInEngine(p))), PlaceCommand(Some(BuyInEngine(p)));
    PlacementsLead(p, s);
    ReadyQuantity(p, s.db);
    SellRests(p);
    var s0 := Placed(p, s.db);
    var s1 := s0.(outbound := [buy], channel := [sell]);
    assert X.Act(p.symbol, s0, X.Submit(0, true)) == s1 by { FirstSubmit(p, s0, sell, buy); }
    LeadsNext(p.symbol, s, Placements(p), s0, X.Submit(0, true));
    assert X.Act(p.symbol, s1, X.Work) == SellRestingState(p, s.db);
    LeadsNext(p.symbol, s, Placements(p) + [X.Submit(0, true)], s1, X.Work);
  }

  lemma FirstSubmit(p: Pair, s: X.State, c: Command, d: Command)
    requires s.outbound == [c] + [d] && s.channel == []
    ensures X.Act(p.symbol, s, X.Submit(0, true)) == s.(outbound := [d], channel := [c])
  {
    assert ([c] + [d])[..0] + ([c] + [d])[0 + 1..] == [d];
  }

  lemma OnlySubmit(p: Pair, s: X.State, c: Command)
    requires s.outbound == [c] && s.channel == []
    ensures X.Act(p.symbol, s, X.Submit(0, true)) == s.(outbound := [], channel := [c])
  {
    assert [c][..0] + [c][0 + 1..] == [];
  }

  /** Then the buy arrives as well and they match. */
  function Matching(p: Pair): seq<X.Action> {
    SellResting(p) + [X.Submit(0, true)] + [X.Work]
  }

  function MatchedState(p: Pair, db: Db): X.State {
    X.State(BothPlaced(p, db), MatchedShard(p), 0, [], [], {}, map[])
  }

  lemma MatchingLeads(p: Pair, s: X.State)
    requires X.Initial(p.symbol, s) && Ready(p, s.db)
    ensures Leads(p.symbol, s, Matching(p), MatchedState(p, s.db))
  {
    hide Handle, Leads, SellResting, BothPlaced, Ready, Resting, MatchedShard, BuyInEngine;
    var buy := PlaceCommand(Some(BuyInEngine(p)));
    SellRestingLeads(p, s);
    ReadyQuantity(p, s.db);
    BuyMatches(p);
    var s0 := SellRestingState(p, s.db);
    var s1 := s0.(outbound := [], channel := [buy]);
    OnlySubmit(p, s0, buy);
    LeadsNext(p.symbol, s, SellResting(p), s0, X.Submit(0, true));
    LeadsNext(p.symbol, s, SellResting(p) + [X.Submit(0, true)], s1, X.Work);
  }

  lemma ReadyQuantity(p: Pair, db: Db)
    requires Ready(p, db)
    ensures p.quantity > 0
  {
  }

  // ---- A fill that no restart brings back ------------------------------------------------

  /** The seller cancels before the match is delivered. */
  function LostFill(p: Pair, tradeId: Uuid): seq<X.Action> {
    Matching(p) + [X.CancelRow(p.sellOrder)] + [X.Deliver(0, tradeId)] + [X.Submit(0, true)] + [X.Work]
  }

  function SellCancelled(p: Pair, db: Db): Db {
    CancelOrder(BothPlaced(p, db), p.sellOrder).db
  }

  lemma SellCancels(p: Pair, db: Db)
    requires Ready(p, db)
    ensures CancelOrder(BothPlaced(p, db), p.sellOrder).result == Ok(p.sellOrder)
    ensures var c := SellCancelled(p, db);
            && c.orders == map[p.sellOrder := SellRow(p).(status := StatusCancelled), p.buyOrder := BuyRow(p)]
            && c.created == [p.sellOrder, p.buyOrder] && c.keys == BothPlaced(p, db).keys
  {
    hide Units, Dec, MulUnits, Sub, Mul;
  }

  lemma LostFillLeads(p: Pair, s: X.State, tradeId: Uuid)
    requires X.Initial(p.symbol, s) && Ready(p, s.db)
    ensures Leads(p.symbol, s, LostFill(p, tradeId),
            X.State(SellCancelled(p, s.db), MatchedShard(p), 0, [], [], {}, map[]))
    ensures X.OnTradeMatched(SellCancelled(p, s.db), TheMatch(p), tradeId)
            == Outcome(SellCancelled(p, s.db), Err(ErrInvalidStateTransition))
  {
    hide Leads, Matching, BothPlaced, Ready, X.OnTradeMatched, CancelOrder, Matches, SellCancelled;
    var cancel := CancelCommand(Some(CancelInfo(p.sellOrder, p.symbol)));
    MatchingLeads(p, s);
    SellCancels(p, s.db);
    var s0 := MatchedState(p, s.db);
    var s1 := s0.(db := SellCancelled(p, s.db), outbound := [cancel]);
    assert X.Act(p.symbol, s0, X.CancelRow(p.sellOrder)) == s1 by { CancelActs(p, s.db); }
    LeadsNext(p.symbol, s, Matching(p), s0, X.CancelRow(p.sellOrder));
    MatchRefused(p, s, Matching(p) + [X.CancelRow(p.sellOrder)], s1, tradeId);
    assert X.Act(p.symbol, s1, X.Deliver(0, tradeId)) == s1;
    LeadsNext(p.symbol, s, Matching(p) + [X.CancelRow(p.sellOrder)], s1, X.Deliver(0, tradeId));
    var s2 := s1.(outbound := [], channel := [cancel]);
    assert [cancel][0 + 1..] == [] && [cancel][..0] == [];
    assert X.Act(p.symbol, s1, X.Submit(0, true)) == s2;
    LeadsNext(p.symbol, s, Matching(p) + [X.CancelRow(p.sellOrder)] + [X.Deliver(0, tradeId)], s1, X.Submit(0, true));
    assert Handle(p.symbol, MatchedShard(p), cancel) == MatchedShard(p);
    assert X.Act(p.symbol, s2, X.Work) == s2.(channel := []);
    LeadsNext(p.symbol, s, Matching(p) + [X.CancelRow(p.sellOrder)] + [X.Deliver(0, tradeId)] + [X.Submit(0, true)],
        s2, X.Work);
  }

  lemma CancelActs(p: Pair, db: Db)
    requires Ready(p, db)
    ensures X.Act(p.symbol, MatchedState(p, db), X.CancelRow(p.sellOrder))
         == MatchedState(p, db).(db := SellCancelled(p, db),
                                 outbound := [CancelCommand(Some(CancelInfo(p.sellOrder, p.symbol)))])
  {
    SellCancels(p, db);
    hide CancelOrder, MatchedShard;
  }

  lemma MatchRefused(p: Pair, s: X.State, actions: seq<X.Action>, t: X.State, tradeId: Uuid)
    requires X.Initial(p.symbol, s) && Ready(p, s.db) && Leads(p.symbol, s, actions, t)
    requires t.db == SellCancelled(p, s.db) && t.shard == MatchedShard(p) && t.since == 0
    ensures X.OnTradeMatched(t.db, TheMatch(p), tradeId) == Outcome(t.db, Err(ErrInvalidStateTransition))
    ensures Matches(t.shard.log) == [TheMatch(p)]
  {
    hide X.Initial, X.AllAllowed, X.Exec, X.Inv, X.OnTradeMatched, MatchedShard, X.KeyFor, SellCancelled, Matches;
    R.RunKeepsInv(p.symbol, s, actions);
    BuyMatches(p);
    SellCancels(p, s.db);
    S.SettleExactly(p.symbol, t, 0, tradeId);
    assert !X.IsSettled(t.db.keys, TheMatch(p));
  }

  /** Nothing is under way any more and the book is empty, but the buy was matched, its match was
      refused, and it is still OPEN and unfilled: until a restart the engine does not know it, and
      a restart puts its whole quantity back. */
  lemma RestartRevivesLostFill(p: Pair, s: X.State, tradeId: Uuid)
    requires X.Initial(p.symbol, s) && Ready(p, s.db)
    ensures X.AllAllowed(p.symbol, s, LostFill(p, tradeId))
    ensures var t := X.Exec(p.symbol, s, LostFill(p, tradeId));
            && t.outbound == [] && t.channel == [] && t.lost == {} && t.shard.book == Book([], [])
            && p.buyOrder in t.db.orders && t.db.orders[p.buyOrder] == BuyRow(p)
            && BookFacts.Resting(X.Act(p.symbol, t, X.Restart).shard.book, p.buyOrder) == p.quantity
            && X.Act(p.symbol, t, X.Restart).shard.book != H.BookAsLoaded(t.shard.book)
  {
    hide X.Initial, X.AllAllowed, X.Exec, X.Inv, LostFill, X.Rehydrated, BookFacts.Resting, SellCancelled,
         X.OnTradeMatched;
    LostFillLeads(p, s, tradeId);
    var t := X.Exec(p.symbol, s, LostFill(p, tradeId));
    R.RunKeepsInv(p.symbol, s, LostFill(p, tradeId));
    SellCancels(p, s.db);
    H.RebuiltRests(p.symbol, t, p.buyOrder);
    H.SameRestsLoaded(t.shard.book, p.buyOrder);
    assert BookFacts.Resting(Book([], []), p.buyOrder) == 0 by { NothingRests(p.buyOrder); }
  }

  lemma NothingRests(id: Uuid)
    ensures BookFacts.Resting(Book([], []), id) == 0
  {
  }

  // ---- A manual trade before a match -----------------------------------------------------

  /** A trade of the two orders may also be requested directly.  If that happens before their
      match is delivered, the match is refused although neither order was cancelled. */
  lemma ManualTradeRefusesMatch(p: Pair, s: X.State, key: string, manual: Uuid, tradeId: Uuid)
    requires X.Initial(p.symbol, s) && Ready(p, s.db) && key != X.KeyFor(TheMatch(p))
    ensures X.AllAllowed(p.symbol, s, Matching(p))
    ensures var t := X.Exec(p.symbol, s, Matching(p));
            var db := ExecuteTrade(t.db, Trading(p, Dec(p.quantity), key), manual).db;
            && Matches(t.shard.log) == [TheMatch(p)]
            && !S.IsCancelled(db, p.buyOrder) && !S.IsCancelled(db, p.sellOrder)
            && X.OnTradeMatched(db, TheMatch(p), tradeId) == Outcome(db, Err(ErrInvalidStateTransition))
  {
    hide X.Initial, X.AllAllowed, X.Exec, Matching, ExecuteTrade, Units, Dec, T.Fill, MatchedShard, X.KeyFor, Prelude,
         Matches;
    MatchingLeads(p, s);
    BuyMatches(p);
    var before, cmd := BothPlaced(p, s.db), Trading(p, Dec(p.quantity), key);
    PreludeDoes(p, s.db);
    TradeCommits(p, s.db, Dec(p.quantity), key, manual);
    UnitsOfDec(p.quantity);
    L.TradeEffect(before, cmd, manual);
    L.FillStep(BuyRow(p), Dec(p.quantity));
    L.FillStep(SellRow(p), Dec(p.quantity));
    MatchAfterTrade(p, s.db, ExecuteTrade(before, cmd, manual).db, tradeId);
  }

  lemma MatchAfterTrade(p: Pair, db: Db, after: Db, tradeId: Uuid)
    requires Ready(p, db)
    requires p.buyOrder in after.orders && after.orders[p.buyOrder].side == Buy
             && after.orders[p.buyOrder].status == StatusFilled
    requires p.sellOrder in after.orders && after.orders[p.sellOrder].side == Sell
    requires (X.KeyFor(TheMatch(p)), ScopeTrade) !in after.keys
    ensures X.OnTradeMatched(after, TheMatch(p), tradeId) == Outcome(after, Err(ErrInvalidStateTransition))
  {
    hide X.KeyFor, Units, Dec, TradeDrafts, DraftSum;
  }

  // ---- A direct trade under the book -----------------------------------------------------

  /** The key of a settlement is never this one. */
  ghost predicate IsOwnKey(key: string) {
    forall b: Uuid, x: Uuid, n: int :: key != MatchKey(b, x, n)
  }

  /** The two orders are traded directly while the sell rests and the buy is on its way. */
  function TradedUnderBook(p: Pair, key: string, manual: Uuid): seq<X.Action> {
    SellResting(p) + [X.TradeDirectly(Trading(p, Dec(p.quantity), key), manual)]
  }

  /** Both rows are FILLED then, but the engine has not heard of it: the sell rests on, and a
      restart drops it. */
  lemma FilledOrderRests(p: Pair, s: X.State, key: string, manual: Uuid)
    requires X.Initial(p.symbol, s) && Ready(p, s.db) && IsOwnKey(key)
    ensures X.AllAllowed(p.symbol, s, TradedUnderBook(p, key, manual))
    ensures var t := X.Exec(p.symbol, s, TradedUnderBook(p, key, manual));
            && p.buyOrder in t.db.orders && t.db.orders[p.buyOrder].status == StatusFilled
            && p.sellOrder in t.db.orders && t.db.orders[p.sellOrder].status == StatusFilled
            && t.lost == {} && Matches(t.shard.log) == []
            && BookFacts.Resting(t.shard.book, p.sellOrder) == p.quantity
            && BookFacts.Resting(X.Act(p.symbol, t, X.Restart).shard.book, p.sellOrder) == 0
  {
    hide X.Initial, X.AllAllowed, X.Exec, X.Inv, SellResting, X.Rehydrated, BookFacts.Resting, ExecuteTrade, T.Fill,
         Units, Dec,
         Prelude, Matches, Resting;
    SellRestingLeads(p, s);
    var s0 := SellRestingState(p, s.db);
    var cmd := Trading(p, Dec(p.quantity), key);
    assert X.Allowed(p.symbol, s0.db, X.TradeDirectly(cmd, manual));
    LeadsNext(p.symbol, s, SellResting(p), s0, X.TradeDirectly(cmd, manual));
    var t := X.Exec(p.symbol, s, TradedUnderBook(p, key, manual));
    PreludeDoes(p, s.db);
    TradeCommits(p, s.db, Dec(p.quantity), key, manual);
    UnitsOfDec(p.quantity);
    L.TradeEffect(s0.db, cmd, manual);
    L.FillStep(BuyRow(p), Dec(p.quantity));
    L.FillStep(SellRow(p), Dec(p.quantity));
    R.RunKeepsInv(p.symbol, s, TradedUnderBook(p, key, manual));
    H.RebuiltRests(p.symbol, t, p.sellOrder);
    SellRestsAlone(p);
  }

  lemma SellRestsAlone(p: Pair)
    ensures BookFacts.Resting(Resting(p).book, p.sellOrder) == p.quantity
    ensures Matches(Resting(p).log) == []
  {
    SumOne(SellInEngine(p), QtyOf(p.sellOrder));
    var e := OrderRested(SellInEngine(p));
    assert [e][..0] == [];
  }
}
