/** Concrete runs on which the conditions of the holdings theorems fail. */
module BookWitnesses {
  import opened Market
  import opened Rounding
  import opened Costs
  import opened FillPlan
  import opened Affordable
  import opened Sums
  import opened Text
  import opened Book
  import opened BookMoney
  import opened BookRuns
  import opened BookHoldings
  import opened BookSquareOff

  const LINE := PositionKey("INFY", "NSE", MIS)

  const BOUGHT := PaperOrder(0, "INFY", "NSE", Buy, 10, 0.0, MarketOrder, MIS, Complete, 10, 0, 0, None)

  function RestingSell(id: OrderId, symbol: string, qty: int): PaperOrder {
    PaperOrder(id, symbol, "NSE", Sell, qty, 100.0, LimitOrder, MIS, Open, 0, 0, qty, None)
  }

  /** Ten shares bought for the whole balance of 1050 paise. */
  function Bought(): Book { Paid(BOUGHT) }

  function Paid(o: PaperOrder): Book {
    var b := Opened(1050);
    PutPosition(Put(b, o), LINE, Position("INFY", "NSE", MIS, 10, 1050, 0)).(
      cash := 0, trades := b.trades + [Trade(0, LINE, Buy, 10, 1050, 0)])
  }

  /** Half of them held by a resting sell placed under the lower-case spelling, half by one under the
      upper-case spelling. */
  function TenShares(): Book {
    Put(Put(Bought(), RestingSell(1, "infy", 5)), RestingSell(2, "INFY", 5))
  }

  // ---------------------------------------------------------------- the runs

  ghost predicate Frictionless(c: Config) {
    c.Valid() && c.slippage == 0.0 && c.impactCoef == 0.0 && c.maxParticipation == 1.0 && c.tick == 0.05
  }

  /** The market just above a hundred rupees. */
  const HIGH_QUOTE := Quote(100.5, 1000, 0.0, 0.0)
  const AT_HUNDRED := Snapshot(100.5, 100.05, 100.95, 1000)

  /** The run needs no market data but what quotes yield. */
  ghost predicate AllSeen(c: Config, actions: seq<Action>) {
    forall i :: 0 <= i < |actions| ==> SeenInQuotes(c, actions[i])
  }

  const BUY_TEN := Place(BOUGHT.(status := Open, filledQty := 0), 0.0, None, Quoted(RUPEE_SNAP))

  /** A limit sale at a hundred rupees, placed while the market stands at one. */
  function SellLater(id: OrderId, symbol: string, qty: int): Action {
    Place(RestingSell(id, symbol, qty).(reservedQty := 0), 100.0, None, Quoted(RUPEE_SNAP))
  }

  lemma HighQuoted(c: Config)
    requires c.tick == 0.05
    ensures TakeSnapshot(HIGH_QUOTE, 0.05) == AT_HUNDRED && FromQuote(c, AT_HUNDRED)
    ensures CeilTick(100.0, 0.05) == 100.0 && FloorTick(100.05, 0.05) == 100.05
  {
    assert HalfSpread(HIGH_QUOTE, 0.05) == 0.402;
    OnGrid(100.098, 0.05, 2001);
    OnGrid(100.902, 0.05, 2018);
    OnGrid(100.0, 0.05, 2000);
    OnGrid(100.05, 0.05, 2001);
    RoundHalfEvenWhole(10000);
    RoundHalfEvenWhole(10005);
    RoundHalfEvenWhole(10095);
  }

  lemma BuyPlan(c: Config)
    requires Frictionless(c)
    ensures PlanFill(c, Buy, MarketOrder, 0.0, 10, RUPEE_SNAP) == Fill(10, 1.05)
    ensures WorstCaseOutflow(c, 10, 0.0, MarketOrder, MIS, RUPEE_SNAP) == 1050
    ensures ToPaise(1.05) == 105 && CostsPaise(Buy, 10, 1.05, MIS) == 0
    ensures AffordableQty(1050, 10, 1.05, MIS) == 10
  {
    RupeeQuoted(c);
    hide FloorTick, CeilTick;
    assert ImpactFrac(c, 10, 1000) == 0.0;
    assert CostsPaise(Buy, 10, 1.05, MIS) == 0;
    assert Outflow(10, 1.05, MIS) == 1050;
  }

  lemma SellPlans(c: Config, qty: int)
    requires Frictionless(c) && 0 < qty <= 1000
    ensures PlanFill(c, Sell, LimitOrder, 100.0, qty, RUPEE_SNAP).Rest?
    ensures PlanFill(c, Sell, LimitOrder, 100.0, qty, AT_HUNDRED) == Fill(qty, 100.05)
  {
    hide CeilTick, FloorTick;
    HighQuoted(c);
    assert ImpactFrac(c, qty, 1000) == 0.0;
    assert Impacted(c, 100.05, qty, 1000, Sell) == 100.05;
  }

  const EARMARKED := BOUGHT.(status := Open, filledQty := 0, reservedCash := 1050)

  function Funded(): Book { Put(Opened(1050), EARMARKED).(reserved := 1050) }

  function Filled(): Book { Paid(BOUGHT.(status := Open)) }

  lemma FundedIsFillable()
    requires Outflow(10, 1.05, MIS) == 1050
    ensures Fillable(Funded(), 0, 10, 1.05) && Funded().orders[0] == EARMARKED && EARMARKED.Key() == LINE
  {
    hide Outflow, PositionKey;
  }

  /** The first purchase of a line, all fields at once. */
  lemma FirstPurchase(b: Book, o: PaperOrder, qty: int, price: real, paid: int)
    requires o.id in b.orders && b.orders[o.id] == o && o.side == Buy && Fillable(b, o.id, qty, price)
    requires o.Key() !in b.positions && paid == o.reservedCash == qty * ToPaise(price)
    requires CostsPaise(Buy, qty, price, o.product) == 0
    ensures Applied(b, o.id, qty, price)
         == Book(b.initial, b.cash - paid, b.reserved - paid, b.totalCosts,
                 b.orders[o.id := o.(filledQty := o.filledQty + qty, reservedCash := 0)], b.ids,
                 b.positions[o.Key() := Position(o.symbol, o.exchange, o.product, qty, paid, 0)], b.keys + [o.Key()],
                 b.trades + [Trade(o.id, o.Key(), Buy, qty, paid, 0)])
  {
    hide CostsPaise, ToPaise, PositionKey, Outflow;
  }

  lemma Replaced(o: PaperOrder, o': PaperOrder)
    requires o.id == o'.id
    ensures Put(Opened(1050), o).orders[o.id := o'] == Put(Opened(1050), o').orders
  {
  }

  lemma PaidInFull(b: Book, o: PaperOrder, price: real)
    requires b == Funded() && o == EARMARKED && Fillable(b, o.id, 10, price) && b.orders[o.id] == o
    requires o.Key() == LINE && LINE !in b.positions && ToPaise(price) == 105
    requires CostsPaise(Buy, 10, price, o.product) == 0
    ensures Applied(b, o.id, 10, price) == Filled()
  {
    hide CostsPaise, ToPaise, PositionKey, Outflow, Fillable, Applied;
    FirstPurchase(b, o, 10, price, 1050);
    Replaced(EARMARKED, BOUGHT.(status := Open));
  }

  lemma FillsTen()
    requires ToPaise(1.05) == 105 && CostsPaise(Buy, 10, 1.05, MIS) == 0 && Outflow(10, 1.05, MIS) == 1050
    ensures Fillable(Funded(), 0, 10, 1.05) && Applied(Funded(), 0, 10, 1.05) == Filled()
  {
    hide CostsPaise, ToPaise, PositionKey, Outflow, Fillable, Applied, Funded, Filled;
    FundedIsFillable();
    NoLineYet();
    PaidInFull(Funded(), EARMARKED, 1.05);
  }

  lemma NoLineYet()
    ensures LINE !in Funded().positions && 0 in Funded().orders
  {
    hide PositionKey;
  }

  lemma FilledSettles()
    ensures Finalised(Filled(), 0) == Bought()
  {
    Replaced(BOUGHT.(status := Open), BOUGHT);
  }

  lemma OutflowOfTen()
    requires ToPaise(1.05) == 105 && CostsPaise(Buy, 10, 1.05, MIS) == 0
    ensures Outflow(10, 1.05, MIS) == 1050
  {
    hide ToPaise, CostsPaise;
  }

  lemma BuysTen(c: Config)
    requires Frictionless(c)
    ensures Coherent(Opened(1050)) && Step(c, Opened(1050), BUY_TEN) == Bought()
  {
    hide PlanFill, WorstCaseOutflow, CostsPaise, ToPaise, AffordableQty, Coherent, Applied, Finalised, Outflow, Bought;
    OpenedIsCoherent(1050);
    BuyPlan(c);
    assert Outflow(10, 1.05, MIS) == 1050 by { OutflowOfTen(); }
    FillsTen();
    FilledSettles();
    var b := Earmarked(c, Opened(1050), BUY_TEN.order, 0.0, RUPEE_SNAP);
    assert b == Funded();
    assert Executed(c, b, 0, RUPEE_SNAP) == Attempt(Applied(b, 0, 10, 1.05), None);
  }

  lemma SellRests(c: Config, b: Book, id: OrderId, symbol: string, qty: int)
    requires Frictionless(c) && Coherent(b) && id !in b.orders && 0 < qty <= 1000
    ensures Step(c, b, SellLater(id, symbol, qty)) == Put(b, RestingSell(id, symbol, qty))
  {
    hide PlanFill, WorstCaseOutflow, MoneyOf, Reservations;
    SellPlans(c, qty);
  }

  const MIXED := [BUY_TEN, SellLater(1, "infy", 5), SellLater(2, "INFY", 5)]

  lemma RunMore(c: Config, initial: int, actions: seq<Action>, a: Action)
    requires c.Valid() && Run(c, initial, actions).Some? && Possible(c, Run(c, initial, actions).value, a)
    ensures Run(c, initial, actions + [a]) == Some(Step(c, Run(c, initial, actions).value, a))
  {
    hide Step, Possible;
    assert (actions + [a])[..|actions|] == actions;
  }

  /** The ten shares, and the two resting sales on them, are reached by placements. */
  lemma Reached(c: Config)
    requires Frictionless(c)
    ensures Run(c, 1050, [BUY_TEN]) == Some(Bought())
    ensures Run(c, 1050, [BUY_TEN, SellLater(1, "infy", 5)]) == Some(Put(Bought(), RestingSell(1, "infy", 5)))
    ensures Run(c, 1050, MIXED) == Some(TenShares())
  {
    hide Step, Coherent, Run;
    BuysTen(c);
    RunOne(c, 1050, BUY_TEN);
    var first, second := SellLater(1, "infy", 5), SellLater(2, "INFY", 5);
    RunMore(c, 1050, [BUY_TEN], first);
    assert [BUY_TEN] + [first] == [BUY_TEN, first];
    SellRests(c, Bought(), 1, "infy", 5);
    RunMore(c, 1050, [BUY_TEN, first], second);
    assert [BUY_TEN, first] + [second] == [BUY_TEN, first, second];
    SellRests(c, Put(Bought(), RestingSell(1, "infy", 5)), 2, "INFY", 5);
  }

  // ---------------------------------------------------------------- the book of ten shares

  lemma SumOfOne<K(!new)>(k: K, v: int)
    ensures Sum(map[k := v]) == v
  {
    SumRemove(map[k := v], k);
    assert map[k := v] - {k} == map[];
  }

  lemma SumOfThree(m: map<OrderId, int>)
    requires m.Keys == {0, 1, 2}
    ensures Sum(m) == m[0] + m[1] + m[2]
  {
    SumRemove(m, 0);
    SumRemove(m - {0}, 1);
    SumRemove(m - {0} - {1}, 2);
    assert m - {0} - {1} - {2} == map[];
  }

  lemma SameLine()
    ensures PositionKey("infy", "NSE", MIS) == LINE
  {
    assert Upper("infy") == Upper("INFY");
  }

  lemma BoughtHoldings(c: Config)
    requires Frictionless(c)
    ensures Holdings(Bought()) && FreeQty(Bought(), LINE) == 10
  {
    hide Holdings, Coherent, Step;
    BuysTen(c);
    OpenedHoldings(1050);
    StepKeepsHoldings(c, Opened(1050), BUY_TEN);
    var held := SharesHeld(Bought().orders, LINE);
    assert held == map[0 := 0];
    SumOfOne<OrderId>(0, 0);
  }

  /** Placing a resting sale of the line succeeds, and keeps the discipline exactly if it is free. */
  lemma SellOfTheLine(c: Config, b: Book, id: OrderId, symbol: string, qty: int)
    requires Frictionless(c) && Holdings(b) && id !in b.orders && 0 < qty <= 1000 && symbol in {"infy", "INFY"}
    ensures var b' := Put(b, RestingSell(id, symbol, qty));
      && Step(c, b, SellLater(id, symbol, qty)) == b'
      && (Holdings(b') <==> qty <= FreeQty(b, LINE))
      && FreeQty(b', LINE) == FreeQty(b, LINE) - qty
  {
    hide MoneyOf, Reservations, OrdersTidy, SharesCovered, PlanFill, Settled;
    SameLine();
    SellRests(c, b, id, symbol, qty);
    SellPlans(c, qty);
    var a := SellLater(id, symbol, qty);
    StepKeepsHoldingsWhen(c, b, a);
    assert Claimed(c, b, a.order, RUPEE_SNAP) == qty;
    SharesUpdate(b.orders, id, RestingSell(id, symbol, qty), LINE);
  }

  lemma TenSharesHoldings(c: Config)
    requires Frictionless(c)
    ensures Holdings(TenShares())
  {
    hide Holdings, Step;
    BoughtHoldings(c);
    SellOfTheLine(c, Bought(), 1, "infy", 5);
    SellOfTheLine(c, Put(Bought(), RestingSell(1, "infy", 5)), 2, "INFY", 5);
  }

  // ---------------------------------------------------------------- what goes wrong

  /** A sell resting under another spelling survives the cancellations: whatever the market says, the
      square-off of the line is refused for want of shares. */
  lemma SpellingBlocksSquareOff(c: Config, id: OrderId, x: Outside) returns (b: Book)
    requires Frictionless(c) && id > 2 && Readable(c, x) && !x.degraded && !x.gate
    ensures Run(c, 1050, MIXED) == Some(b) && AllSeen(c, MIXED)
    ensures Holdings(b) && Due(b, LINE) && id !in b.orders
    ensures var r := SquaredOne(c, b, LINE, id, x);
      id in r.orders && r.orders[id].rejectReason in {Some(InsufficientHoldings), Some(ShortSellNotSupported)}
  {
    hide Holdings, SquaredOne, Run, TenShares, RestingSell, SpelledAlike, Due, Coherent;
    WitnessesAreSeen(c);
    b := TenShares();
    Reached(c);
    TenSharesHoldings(c);
    TenSharesSpelling();
    SquareOffNeverShort(c, b, LINE, id, x);
  }

  lemma WitnessesAreSeen(c: Config)
    requires Frictionless(c)
    ensures SeenInQuotes(c, BUY_TEN) && SeenInQuotes(c, GROW) && SeenInQuotes(c, Cancel(1))
    ensures SeenInQuotes(c, Poll(1, AT_HUNDRED))
    ensures forall id, symbol, qty :: SeenInQuotes(c, SellLater(id, symbol, qty))
  {
    hide FromQuote;
    RupeeQuoted(c);
    HighQuoted(c);
  }

  lemma TenSharesSpelling()
    ensures TenShares().orders.Keys == {0, 1, 2}
    ensures Due(TenShares(), LINE) && !SpelledAlike(TenShares(), LINE)
  {
    SameLine();
    assert SharesOn(TenShares().orders[1], LINE) == 5;
  }

  const GROW := Modify(1, Some(10), None)

  /** Growing the first sell to ten shares is refused, yet when the price comes the order sells all
      ten, and the other sell still holds five shares of a line that has none. */
  lemma RefusedModifyOversells(c: Config) returns (b: Book, sold: Book)
    requires Frictionless(c)
    ensures Run(c, 1050, MIXED) == Some(b) && Holdings(b) && RefusedForHoldings(b, 1, Some(10))
    ensures Run(c, 1050, MIXED + [GROW, Poll(1, AT_HUNDRED)]) == Some(sold) && !Holdings(sold)
    ensures AllSeen(c, MIXED + [GROW, Poll(1, AT_HUNDRED)])
    ensures 2 in sold.orders && SharesOn(sold.orders[2], LINE) == 5 && Held(sold, LINE) == 0
  {
    hide Step, Run, Holdings, Coherent, TenShares, RestingSell;
    WitnessesAreSeen(c);
    b := TenShares();
    Reached(c);
    TenSharesHoldings(c);
    RefusedLine();
    var grown := Modified(b, 1, Some(10), None);
    RunMore(c, 1050, MIXED, GROW);
    ModifyStep(c, b);
    RunMore(c, 1050, MIXED + [GROW], Poll(1, AT_HUNDRED)) by { GrownHasOrder(grown); }
    assert MIXED + [GROW] + [Poll(1, AT_HUNDRED)] == MIXED + [GROW, Poll(1, AT_HUNDRED)];
    GrownHasOrder(grown);
    OversoldLine(c, grown);
    sold := Step(c, grown, Poll(1, AT_HUNDRED));
  }

  lemma GrownHasOrder(b: Book)
    requires b == TenShares().(orders := TenShares().orders[1 := RestingSell(1, "infy", 5).(qty := 10)])
    ensures b.orders.Keys == {0, 1, 2} && b.orders[0] == BOUGHT
    ensures b.orders[1] == RestingSell(1, "infy", 5).(qty := 10) && b.orders[2] == RestingSell(2, "INFY", 5)
    ensures b.positions == TenShares().positions
  {
  }

  lemma ModifyStep(c: Config, b: Book)
    requires Coherent(b) && c.Valid()
    ensures Step(c, b, GROW) == Modified(b, 1, Some(10), None)
  {
    hide Modified, Coherent;
  }

  lemma RefusedLine()
    ensures RefusedForHoldings(TenShares(), 1, Some(10))
    ensures Modified(TenShares(), 1, Some(10), None)
         == TenShares().(orders := TenShares().orders[1 := RestingSell(1, "infy", 5).(qty := 10)])
  {
    SameLine();
    SumOfThree(SharesHeld(TenShares().orders, LINE));
  }

  lemma OversoldLine(c: Config, b: Book)
    requires Frictionless(c) && Coherent(b)
    requires b.orders.Keys == {0, 1, 2} && b.orders[0] == BOUGHT
    requires b.orders[1] == RestingSell(1, "infy", 5).(qty := 10) && b.orders[2] == RestingSell(2, "INFY", 5)
    requires b.positions == TenShares().positions
    ensures var sold := Step(c, b, Poll(1, AT_HUNDRED));
      && 2 in sold.orders && sold.orders[2] == b.orders[2] && SharesOn(sold.orders[2], LINE) == 5
      && Held(sold, LINE) == 0 && !Holdings(sold)
  {
    hide CostsPaise, ToPaise, BasisOut, PlanFill, MoneyOf, Reservations, OrdersTidy, Coherent, Holdings;
    SameLine();
    SellPlans(c, 10);
    ReservedIsNonNegative(b, 1) by { CoherentReservations(b); }
    var sold := Step(c, b, Poll(1, AT_HUNDRED));
    assert sold == Finalised(Applied(b, 1, 10, 100.05), 1);
    assert sold.orders.Keys == {0, 1, 2};
    SumOfThree(SharesHeld(sold.orders, LINE));
    NotCovered(sold);
  }

  lemma CoherentReservations(b: Book)
    requires Coherent(b)
    ensures Reservations(b)
  {
  }

  lemma NotCovered(b: Book)
    requires Sum(SharesHeld(b.orders, LINE)) > HeldIn(b.positions, LINE)
    ensures !Holdings(b)
  {
  }

  /** Two sells of all ten shares pass the holdings check before either settles; the second to settle
      promises the same shares again. */
  lemma OverlappingSellsOverpromise(c: Config)
    requires Frictionless(c)
    ensures var first, second := SellLater(1, "INFY", 10), SellLater(2, "INFY", 10);
      && Run(c, 1050, [BUY_TEN]) == Some(Bought())
      && Precheck(Bought(), first.order, false, false) == None
      && Precheck(Bought(), second.order, false, false) == None
    ensures var first, second := SellLater(1, "INFY", 10), SellLater(2, "INFY", 10);
      var once, twice := Run(c, 1050, [BUY_TEN, first]), Run(c, 1050, [BUY_TEN, first, second]);
      once.Some? && Holdings(once.value) && twice.Some? && !Holdings(twice.value)
    ensures AllSeen(c, [BUY_TEN, SellLater(1, "INFY", 10), SellLater(2, "INFY", 10)])
  {
    hide Holdings, Step, Run, Coherent, FreeQty;
    WitnessesAreSeen(c);
    var first, second := SellLater(1, "INFY", 10), SellLater(2, "INFY", 10);
    Reached(c);
    BoughtHoldings(c);
    SellOfTheLine(c, Bought(), 1, "INFY", 10);
    var once := Put(Bought(), RestingSell(1, "INFY", 10));
    SellOfTheLine(c, once, 2, "INFY", 10);
    RunMore(c, 1050, [BUY_TEN], first);
    assert [BUY_TEN] + [first] == [BUY_TEN, first];
    RunMore(c, 1050, [BUY_TEN, first], second);
    assert [BUY_TEN, first] + [second] == [BUY_TEN, first, second];
  }

  /** A sale cancelled while the poll awaits its quote trades all the same. */
  lemma CancelledOrderTrades(c: Config) returns (was: Book, now: Book)
    requires Frictionless(c)
    ensures Run(c, 1050, [BUY_TEN, SellLater(1, "infy", 5), Cancel(1)]) == Some(was)
    ensures Run(c, 1050, [BUY_TEN, SellLater(1, "infy", 5), Cancel(1), Poll(1, AT_HUNDRED)]) == Some(now)
    ensures AllSeen(c, [BUY_TEN, SellLater(1, "infy", 5), Cancel(1), Poll(1, AT_HUNDRED)])
    ensures 1 in was.orders && was.orders[1].status == Cancelled
    ensures 1 in now.orders && now.orders[1].status in {Complete, Partial} && |now.trades| == |was.trades| + 1
  {
    hide Step, Run, Holdings, Coherent, PollTrades, Polled, Bought, RestingSell;
    WitnessesAreSeen(c);
    var sell := SellLater(1, "infy", 5);
    Reached(c);
    var rested := Put(Bought(), RestingSell(1, "infy", 5));
    RunMore(c, 1050, [BUY_TEN, sell], Cancel(1));
    assert [BUY_TEN, sell] + [Cancel(1)] == [BUY_TEN, sell, Cancel(1)];
    CancelStep(c, rested, 1);
    was := CancelledOrder(rested, 1);
    CancelledSaleTrades(c, was);
    RunMore(c, 1050, [BUY_TEN, sell, Cancel(1)], Poll(1, AT_HUNDRED));
    assert [BUY_TEN, sell, Cancel(1)] + [Poll(1, AT_HUNDRED)] == [BUY_TEN, sell, Cancel(1), Poll(1, AT_HUNDRED)];
    TerminalOrderTrades(c, was, 1, AT_HUNDRED);
    PolledKeepsIds(c, was, 1, AT_HUNDRED);
    PollStep(c, was, 1, AT_HUNDRED);
    now := Polled(c, was, 1, AT_HUNDRED);
  }

  lemma CancelledSaleTrades(c: Config, b: Book)
    requires Frictionless(c) && b == CancelledOrder(Put(Bought(), RestingSell(1, "infy", 5)), 1)
    ensures 1 in b.orders && b.orders[1].status == Cancelled && Quotable(c, AT_HUNDRED)
    ensures PollTrades(c, b, 1, AT_HUNDRED)
  {
    hide PlanFill;
    SameLine();
    SellPlans(c, 5);
  }

  lemma CancelStep(c: Config, b: Book, id: OrderId)
    requires Coherent(b) && c.Valid()
    ensures Step(c, b, Cancel(id)) == CancelledOrder(b, id)
  {
    hide Coherent, CancelledOrder;
  }

  lemma PollStep(c: Config, b: Book, id: OrderId, snap: Snapshot)
    requires Coherent(b) && c.Valid() && id in b.orders && Quotable(c, snap)
    ensures b.orders[id].reservedCash <= b.reserved && Step(c, b, Poll(id, snap)) == Polled(c, b, id, snap)
  {
    hide MoneyOf, Reservations, Polled;
    ReservedIsNonNegative(b, id);
  }
}
