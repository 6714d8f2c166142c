/** Share reservations under non-overlapping calls: no share is promised twice, an order trades at
    most once, and the intraday square-off is never refused for holdings. */
module BookHoldings {
  import opened Market
  import opened Rounding
  import opened Costs
  import opened FillPlan
  import opened Affordable
  import opened Sums
  import opened Book
  import opened BookMoney
  import opened BookRuns

  /** A resting order is untouched: nothing filled, and a sell holds its whole size. */
  predicate OrderTidy(o: PaperOrder, trades: int) {
    && (o.status == Open ==> o.filledQty == 0 && o.qty > 0 && o.reservedQty == if o.side == Sell then o.qty else 0)
    && trades == (if o.filledQty > 0 then 1 else 0)
  }

  ghost predicate OrdersTidy(orders: map<OrderId, PaperOrder>, trades: seq<Trade>) {
    && (forall id :: id in orders ==> OrderTidy(orders[id], TradesOf(trades, id)))
    && (forall id :: id !in orders ==> TradesOf(trades, id) == 0)
  }

  /** No line promises more shares to OPEN sells than it holds. */
  ghost predicate SharesCovered(orders: map<OrderId, PaperOrder>, positions: map<Key, Position>) {
    forall key :: Sum(SharesHeld(orders, key)) <= HeldIn(positions, key)
  }

  ghost predicate Holdings(b: Book) {
    Coherent(b) && OrdersTidy(b.orders, b.trades) && SharesCovered(b.orders, b.positions)
  }

  // ---------------------------------------------------------------- primitives

  lemma SharesUpdate(orders: map<OrderId, PaperOrder>, id: OrderId, o: PaperOrder, key: Key)
    ensures Sum(SharesHeld(orders[id := o], key))
         == Sum(SharesHeld(orders, key)) - (if id in orders then SharesOn(orders[id], key) else 0) + SharesOn(o, key)
  {
    SumUpdate(SharesHeld(orders, key), id, SharesOn(o, key));
    assert SharesHeld(orders[id := o], key) == SharesHeld(orders, key)[id := SharesOn(o, key)];
  }

  /** Replacing one order, with no trade, by one that promises no more of any line. */
  lemma ReplaceOrder(b: Book, b': Book, o: PaperOrder)
    requires Holdings(b) && Coherent(b')
    requires b'.orders == b.orders[o.id := o] && b'.trades == b.trades && b'.positions == b.positions
    requires OrderTidy(o, TradesOf(b.trades, o.id))
    requires forall key :: SharesOn(o, key) <= if o.id in b.orders then SharesOn(b.orders[o.id], key) else 0
    ensures Holdings(b')
  {
    forall key
      ensures Sum(SharesHeld(b'.orders, key)) <= HeldIn(b'.positions, key)
    {
      SharesUpdate(b.orders, o.id, o, key);
      assert Sum(SharesHeld(b.orders, key)) <= HeldIn(b.positions, key);
    }
  }

  lemma SettledFillShape(b: Book, id: OrderId, qty: int, price: real)
    requires Fillable(b, id, qty, price) && b.orders[id].id == id && b.orders[id].filledQty == 0
    ensures var o, b1, b2 := b.orders[id], Applied(b, id, qty, price), Finalised(Applied(b, id, qty, price), id);
      && b2.orders.Keys == b.orders.Keys
      && b2.orders == b.orders[id := b2.orders[id]]
      && b2.positions == b1.positions
      && |b2.trades| == |b.trades| + 1 && b2.trades[..|b.trades|] == b.trades && b2.trades[|b.trades|].orderId == id
      && b2.orders[id].status != Open && b2.orders[id].filledQty == qty
      && b2.orders[id].reservedQty == 0
  {
    hide CostsPaise, ToPaise, TakenCash, BoughtPosition, SoldPosition;
  }

  /** An OPEN order whose fill is booked and which is then settled. */
  lemma FillAndFinalise(b: Book, id: OrderId, qty: int, price: real)
    requires Holdings(b) && Fillable(b, id, qty, price)
    requires b.orders[id].status == Open && qty <= b.orders[id].qty
    requires b.orders[id].side == Buy ==> ToPaise(price) >= 0
    ensures Holdings(Finalised(Applied(b, id, qty, price), id))
  {
    hide MoneyOf, Applied, Finalised, SharesCovered, Outflow, ToPaise;
    AppliedKeepsCoherent(b, id, qty, price);
    FilledOrderCount(b, id, qty, price);
    FinalisedKeepsCoherent(Applied(b, id, qty, price), id);
    FillTidy(b, id, qty, price);
    FillCovered(b, id, qty, price);
  }

  lemma FilledOrderCount(b: Book, id: OrderId, qty: int, price: real)
    requires Fillable(b, id, qty, price) && b.orders[id].id == id && b.orders[id].filledQty == 0
    ensures id in Applied(b, id, qty, price).orders && Applied(b, id, qty, price).orders[id].filledQty >= 0
  {
    AppliedShape(b, id, qty, price);
  }

  lemma FillTidy(b: Book, id: OrderId, qty: int, price: real)
    requires OrdersTidy(b.orders, b.trades) && Fillable(b, id, qty, price) && b.orders[id].id == id
    requires b.orders[id].filledQty == 0
    ensures var b2 := Finalised(Applied(b, id, qty, price), id); OrdersTidy(b2.orders, b2.trades)
  {
    hide Applied, Finalised;
    AppliedShape(b, id, qty, price);
    SettledFillShape(b, id, qty, price);
    var b2 := Finalised(Applied(b, id, qty, price), id);
    AppendTrade(b.trades, b2.trades[|b.trades|]);
    assert b2.trades == b.trades + [b2.trades[|b.trades|]];
  }

  lemma FillCovered(b: Book, id: OrderId, qty: int, price: real)
    requires Holdings(b) && Fillable(b, id, qty, price)
    requires b.orders[id].status == Open && qty <= b.orders[id].qty
    ensures var b2 := Finalised(Applied(b, id, qty, price), id); SharesCovered(b2.orders, b2.positions)
  {
    hide MoneyOf;
    SettledShares(b, id, qty, price);
    FillCoveredWhen(b, id, qty, price);
    FreeIsNonNegative(b, b.orders[id].Key());
  }

  /** What a settled fill does to every line: the order gives its shares back, and they move. */
  lemma SettledShares(b: Book, id: OrderId, qty: int, price: real)
    requires Fillable(b, id, qty, price) && b.orders[id].id == id && b.orders[id].filledQty == 0
    ensures var o, b2 := b.orders[id], Finalised(Applied(b, id, qty, price), id);
      && (forall key :: Sum(SharesHeld(b2.orders, key)) == Sum(SharesHeld(b.orders, key)) - SharesOn(o, key))
      && (forall key :: HeldIn(b2.positions, key) == HeldIn(b.positions, key)
                          + if key != o.Key() then 0 else if o.side == Buy then qty else -qty)
  {
    hide Applied, Finalised;
    AppliedShape(b, id, qty, price);
    SettledFillShape(b, id, qty, price);
    AppliedHeld(b, id, qty, price);
    var b2 := Finalised(Applied(b, id, qty, price), id);
    forall key
      ensures Sum(SharesHeld(b2.orders, key)) == Sum(SharesHeld(b.orders, key)) - SharesOn(b.orders[id], key)
    {
      SharesUpdate(b.orders, id, b2.orders[id], key);
    }
  }

  /** Promises stay covered exactly when a sale takes no more than is free or its own. */
  lemma FillCoveredWhen(b: Book, id: OrderId, qty: int, price: real)
    requires SharesCovered(b.orders, b.positions) && Fillable(b, id, qty, price)
    requires b.orders[id].id == id && b.orders[id].filledQty == 0 && b.orders[id].reservedQty >= 0
    ensures var o, b2 := b.orders[id], Finalised(Applied(b, id, qty, price), id);
      SharesCovered(b2.orders, b2.positions)
      <==> (o.side == Sell ==> qty <= FreeQty(b, o.Key()) + SharesOn(o, o.Key()))
  {
    hide Applied, Finalised;
    AppliedShape(b, id, qty, price);
    SettledShares(b, id, qty, price);
    var o, b2 := b.orders[id], Finalised(Applied(b, id, qty, price), id);
    var key := o.Key();
    assert Sum(SharesHeld(b.orders, key)) <= HeldIn(b.positions, key);
    if SharesCovered(b2.orders, b2.positions) {
      assert Sum(SharesHeld(b2.orders, key)) <= HeldIn(b2.positions, key);
    }
    forall k
      ensures k != key || (o.side == Sell ==> qty <= FreeQty(b, key) + SharesOn(o, key)) ==>
        Sum(SharesHeld(b2.orders, k)) <= HeldIn(b2.positions, k)
    {
      assert Sum(SharesHeld(b.orders, k)) <= HeldIn(b.positions, k);
    }
  }

  lemma AppliedHeld(b: Book, id: OrderId, qty: int, price: real)
    requires Fillable(b, id, qty, price)
    ensures var o, b1 := b.orders[id], Applied(b, id, qty, price);
      forall key :: HeldIn(b1.positions, key) ==
        HeldIn(b.positions, key) + (if key != o.Key() then 0 else if o.side == Buy then qty else -qty)
  {
    hide CostsPaise, ToPaise, TakenCash, FilledOrder, BasisOut;
  }

  lemma AppendTrade(trades: seq<Trade>, t: Trade)
    ensures forall id :: TradesOf(trades + [t], id) == TradesOf(trades, id) + if t.orderId == id then 1 else 0
  {
    assert (trades + [t])[..|trades|] == trades;
  }

  /** What one execution attempt on an OPEN order can lead to. */
  lemma ExecutedCases(c: Config, b: Book, id: OrderId, snap: Snapshot)
    requires Holdings(b) && id in b.orders && b.orders[id].status == Open && Quotable(c, snap)
    ensures b.orders[id].reservedCash <= b.reserved
    ensures var a := Executed(c, b, id, snap);
      && a.book.orders.Keys == b.orders.Keys
      && (a.book == b || (a.reason.None? && a.book.orders[id].filledQty > 0 && Holdings(Finalised(a.book, id))))
      && (b.orders[id].side == Sell ==> a.reason != Some(InsufficientHoldings))
  {
    hide MoneyOf, PlanFill, AffordableQty, Outflow, Applied, Finalised, SharesCovered;
    ReservedIsNonNegative(b, id);
    var o := b.orders[id];
    var plan := PlanFill(c, o.side, o.kind, o.price, o.qty, snap);
    PlanWithinOrder(c, o.side, o.kind, o.price, o.qty, snap);
    if o.side == Sell {
      EnoughShares(b, id);
    }
    if plan.Fill? && plan.qty > 0 {
      var qty := if o.side == Buy then AffordableQty(Budget(b, id), plan.qty, plan.price, o.product)
                 else Min(plan.qty, Held(b, o.Key()));
      if qty > 0 {
        FillAndFinalise(b, id, qty, plan.price);
        AppliedShape(b, id, qty, plan.price);
      }
    }
  }

  lemma PlanWithinOrder(c: Config, side: Side, kind: OrderKind, price: real, remaining: int, snap: Snapshot)
    requires Quotable(c, snap)
    ensures var p := PlanFill(c, side, kind, price, remaining, snap);
      (p.Fill? ==> 1 <= p.qty <= remaining) && p != Refuse(InsufficientHoldings)
  {
    hide TowardsTrader, Impacted, MaxQtyWithinLimit, SnapLimit;
  }

  /** The shares an OPEN sell holds are really there. */
  lemma EnoughShares(b: Book, id: OrderId)
    requires Holdings(b) && id in b.orders && b.orders[id].status == Open && b.orders[id].side == Sell
    ensures b.orders[id].qty <= Held(b, b.orders[id].Key())
  {
    hide MoneyOf;
    var key := b.orders[id].Key();
    SumAtLeast(SharesHeld(b.orders, key), id);
    assert Sum(SharesHeld(b.orders, key)) <= HeldIn(b.positions, key);
  }

  // ---------------------------------------------------------------- operations

  lemma PolledKeepsHoldings(c: Config, b: Book, id: OrderId, snap: Snapshot)
    requires Holdings(b) && id in b.orders && b.orders[id].status == Open && Quotable(c, snap)
    ensures b.orders[id].reservedCash <= b.reserved && Holdings(Polled(c, b, id, snap))
  {
    hide Executed, Finalised, SharesCovered, MoneyOf;
    ExecutedCases(c, b, id, snap);
  }

  lemma RefusedKeepsHoldings(b: Book, o: PaperOrder, reason: Reason)
    requires Holdings(b) && o.filledQty == 0
    requires o.id in b.orders ==> b.orders[o.id].reservedCash == 0 && b.orders[o.id].filledQty == 0
    ensures Holdings(Refused(b, o, reason))
  {
    hide MoneyOf, SharesCovered;
    RefusedKeepsCoherent(b, o, reason);
    SharesNonNegative(b, o.id);
    ReplaceOrder(b, Refused(b, o, reason), Refused(b, o, reason).orders[o.id]);
  }

  lemma SharesNonNegative(b: Book, id: OrderId)
    requires Reservations(b)
    ensures id in b.orders ==> forall key :: SharesOn(b.orders[id], key) >= 0
  {
  }

  lemma ReleasedKeepsTidy(b: Book, id: OrderId, reason: Reason)
    requires Holdings(b) && id in b.orders && b.orders[id].filledQty == 0
    ensures Holdings(Refused(Released(b, id), Released(b, id).orders[id], reason))
  {
    hide MoneyOf, SharesCovered, Reservations, Released, Refused;
    ReleasedKeepsCoherent(b, id);
    var b1 := Released(b, id);
    RefusedKeepsCoherent(b1, b1.orders[id], reason);
    var b2 := Refused(b1, b1.orders[id], reason);
    SharesNonNegative(b, id);
    ReservedIsNonNegative(b, id);
    ReleasedRefusedShape(b, id, reason);
    ReplaceOrder(b, b2, b2.orders[id]);
  }

  lemma ReleasedRefusedShape(b: Book, id: OrderId, reason: Reason)
    requires id in b.orders && b.orders[id].id == id
    ensures var b2 := Refused(Released(b, id), Released(b, id).orders[id], reason);
      && id in b2.orders && b2.orders == b.orders[id := b2.orders[id]]
      && b2.trades == b.trades && b2.positions == b.positions
      && b2.orders[id].id == id && b2.orders[id].status == Rejected
      && b2.orders[id].filledQty == b.orders[id].filledQty && b2.orders[id].reservedQty == 0
  {
  }

  lemma CancelledKeepsHoldings(b: Book, id: OrderId)
    requires Holdings(b)
    ensures Holdings(CancelledOrder(b, id))
  {
    hide MoneyOf, SharesCovered;
    if id in b.orders && b.orders[id].status == Open {
      CancelledKeepsCoherent(b, id);
      var b2 := CancelledOrder(b, id);
      SharesNonNegative(b, id);
      assert b2.orders == b.orders[id := b2.orders[id]];
      ReplaceOrder(b, b2, b2.orders[id]);
    }
  }

  lemma EarmarkedKeepsHoldings(c: Config, b: Book, o: PaperOrder, price: real, snap: Snapshot)
    requires Holdings(b) && c.Valid() && o.Fresh() && o.id !in b.orders && Quotable(c, snap)
    requires o.kind == LimitOrder ==> price == o.price
    requires o.side == Sell ==> o.qty <= FreeQty(b, o.Key())
    ensures Holdings(Earmarked(c, b, o, price, snap))
  {
    hide MoneyOf, Reservations, SharesCovered, OrdersTidy, Earmarked;
    EarmarkedKeepsCoherent(c, b, o, price, snap);
    EarmarkedTidy(c, b, o, price, snap);
    EarmarkedCovered(c, b, o, price, snap);
  }

  lemma EarmarkedTidy(c: Config, b: Book, o: PaperOrder, price: real, snap: Snapshot)
    requires OrdersTidy(b.orders, b.trades) && o.Fresh() && o.id !in b.orders && Quotable(c, snap)
    ensures var b1 := Earmarked(c, b, o, price, snap); OrdersTidy(b1.orders, b1.trades)
  {
    hide WorstCaseOutflow;
  }

  lemma EarmarkedCovered(c: Config, b: Book, o: PaperOrder, price: real, snap: Snapshot)
    requires SharesCovered(b.orders, b.positions) && o.Fresh() && o.id !in b.orders && Quotable(c, snap)
    requires o.side == Sell ==> o.qty <= FreeQty(b, o.Key())
    ensures var b1 := Earmarked(c, b, o, price, snap); SharesCovered(b1.orders, b1.positions)
  {
    hide WorstCaseOutflow;
    var b1 := Earmarked(c, b, o, price, snap);
    assert b1.orders == b.orders[o.id := b1.orders[o.id]];
    forall key
      ensures Sum(SharesHeld(b1.orders, key)) <= HeldIn(b1.positions, key)
    {
      SharesUpdate(b.orders, o.id, b1.orders[o.id], key);
      assert Sum(SharesHeld(b.orders, key)) <= HeldIn(b.positions, key);
    }
  }

  lemma SettledKeepsHoldings(c: Config, b: Book, o: PaperOrder, price: real, snap: Snapshot)
    requires Holdings(b) && c.Valid() && o.Fresh() && o.id !in b.orders && Quotable(c, snap)
    requires o.kind == LimitOrder ==> price == o.price
    requires o.side == Sell ==> o.qty <= FreeQty(b, o.Key())
    ensures b.reserved >= 0 && Holdings(Settled(c, b, o, price, snap))
  {
    hide WorstCaseOutflow, Executed, MoneyOf, SharesCovered, Finalised, Released, Refused;
    ReservedIsNonNegative(b, o.id);
    if o.side == Buy && WorstCaseOutflow(c, o.qty, price, o.kind, o.product, snap) > Available(b) {
      RefusedKeepsHoldings(b, o, InsufficientCash);
    } else {
      EarmarkedKeepsHoldings(c, b, o, price, snap);
      var b1 := Earmarked(c, b, o, price, snap);
      ExecutedCases(c, b1, o.id, snap);
      var a := Executed(c, b1, o.id, snap);
      if a.book == b1 {
        if a.reason.Some? {
          ReleasedKeepsTidy(b1, o.id, a.reason.value);
        } else {
          RestingKeepsHoldings(b1, o.id);
        }
      }
    }
  }

  lemma RestingKeepsHoldings(b: Book, id: OrderId)
    requires Holdings(b) && id in b.orders && b.orders[id].status == Open
    ensures Holdings(Finalised(b, id))
  {
    hide MoneyOf, SharesCovered;
    FinalisedKeepsCoherent(b, id);
    ReplaceOrder(b, Finalised(b, id), Finalised(b, id).orders[id]);
  }

  // ---------------------------------------------------------------- the exact condition

  /** The shares a sale takes or promises when it settles against this snapshot. */
  function Claimed(c: Config, b: Book, o: PaperOrder, snap: Snapshot): int
    requires Quotable(c, snap)
  {
    match PlanFill(c, Sell, o.kind, o.price, o.qty - o.filledQty, snap)
    case Refuse(_) => 0
    case Rest => o.qty
    case Fill(qty, _) => Min(qty, Held(b, o.Key()))
  }

  /** Whenever the checks were made, a sale settling on this book keeps the share discipline exactly
      when what it claims is free now. */
  lemma SaleKeepsHoldings(c: Config, b: Book, o: PaperOrder, price: real, snap: Snapshot)
    requires Holdings(b) && c.Valid() && o.Fresh() && o.side == Sell && o.id !in b.orders && Quotable(c, snap)
    requires o.kind == LimitOrder ==> price == o.price
    ensures b.reserved >= 0
    ensures Holdings(Settled(c, b, o, price, snap)) <==> Claimed(c, b, o, snap) <= FreeQty(b, o.Key())
  {
    hide MoneyOf, SharesCovered, OrdersTidy, Reservations, Settled, FreeQty;
    SettledKeepsCoherent(c, b, o, price, snap);
    FreeIsNonNegative(b, o.Key());
    var plan := PlanFill(c, Sell, o.kind, o.price, o.qty, snap);
    if plan.Rest? {
      RestingSale(c, b, o, price, snap);
    } else if plan.Fill? && Held(b, o.Key()) > 0 {
      TradedSale(c, b, o, price, snap);
    } else {
      RefusedSale(c, b, o, price, snap);
    }
  }

  lemma RestingSale(c: Config, b: Book, o: PaperOrder, price: real, snap: Snapshot)
    requires Holdings(b) && o.Fresh() && o.side == Sell && o.id !in b.orders && Quotable(c, snap) && b.reserved >= 0
    requires PlanFill(c, Sell, o.kind, o.price, o.qty, snap).Rest?
    ensures var b2 := Settled(c, b, o, price, snap);
      && OrdersTidy(b2.orders, b2.trades)
      && (SharesCovered(b2.orders, b2.positions) <==> o.qty <= FreeQty(b, o.Key()))
  {
    hide MoneyOf, Reservations, PlanFill, Settled;
    RestingShape(c, b, o, price, snap);
    var b2, resting := Settled(c, b, o, price, snap), o.(reservedQty := o.qty);
    forall key
      ensures Sum(SharesHeld(b2.orders, key)) == Sum(SharesHeld(b.orders, key)) + SharesOn(resting, key)
      ensures Sum(SharesHeld(b.orders, key)) <= HeldIn(b.positions, key)
    {
      SharesUpdate(b.orders, o.id, resting, key);
    }
  }

  lemma RestingShape(c: Config, b: Book, o: PaperOrder, price: real, snap: Snapshot)
    requires o.Fresh() && o.side == Sell && o.id !in b.orders && Quotable(c, snap) && b.reserved >= 0
    requires PlanFill(c, Sell, o.kind, o.price, o.qty, snap).Rest?
    ensures var b2 := Settled(c, b, o, price, snap);
      b2.orders == b.orders[o.id := o.(reservedQty := o.qty)] && b2.positions == b.positions && b2.trades == b.trades
  {
    hide PlanFill, WorstCaseOutflow;
  }

  lemma TradedSale(c: Config, b: Book, o: PaperOrder, price: real, snap: Snapshot)
    requires Holdings(b) && o.Fresh() && o.side == Sell && o.id !in b.orders && Quotable(c, snap) && b.reserved >= 0
    requires PlanFill(c, Sell, o.kind, o.price, o.qty, snap).Fill? && Held(b, o.Key()) > 0
    ensures var b2 := Settled(c, b, o, price, snap);
      && OrdersTidy(b2.orders, b2.trades)
      && (SharesCovered(b2.orders, b2.positions) <==> Claimed(c, b, o, snap) <= FreeQty(b, o.Key()))
  {
    hide MoneyOf, Reservations, PlanFill, WorstCaseOutflow, Applied, Finalised, OrdersTidy, SharesCovered,
         Released, Refused;
    var plan := PlanFill(c, Sell, o.kind, o.price, o.qty, snap);
    PlanWithinOrder(c, Sell, o.kind, o.price, o.qty, snap);
    var b1 := Earmarked(c, b, o, price, snap);
    var qty := Min(plan.qty, Held(b, o.Key()));
    EarmarkedTidy(c, b, o, price, snap);
    FilledOrderCount(b1, o.id, qty, plan.price);
    FillTidy(b1, o.id, qty, plan.price);
    SoldFromEarmark(b, b1, o, qty, plan.price);
    assert Settled(c, b, o, price, snap) == Finalised(Applied(b1, o.id, qty, plan.price), o.id);
  }

  lemma SoldFromEarmark(b: Book, b1: Book, o: PaperOrder, qty: int, price: real)
    requires SharesCovered(b.orders, b.positions) && o.Fresh() && o.side == Sell && o.id !in b.orders
    requires b1 == Put(b, o.(reservedQty := o.qty)) && Fillable(b1, o.id, qty, price)
    ensures var b2 := Finalised(Applied(b1, o.id, qty, price), o.id);
      SharesCovered(b2.orders, b2.positions) <==> qty <= FreeQty(b, o.Key())
  {
    hide Applied, Finalised;
    AppliedShape(b1, o.id, qty, price);
    var b2, key := Finalised(Applied(b1, o.id, qty, price), o.id), o.Key();
    SettledShares(b1, o.id, qty, price);
    forall k
      ensures Sum(SharesHeld(b2.orders, k)) == Sum(SharesHeld(b.orders, k)) <= HeldIn(b.positions, k)
    {
      SharesUpdate(b.orders, o.id, b1.orders[o.id], k);
    }
  }

  lemma RefusedSale(c: Config, b: Book, o: PaperOrder, price: real, snap: Snapshot)
    requires Holdings(b) && o.Fresh() && o.side == Sell && o.id !in b.orders && Quotable(c, snap) && b.reserved >= 0
    requires var plan := PlanFill(c, Sell, o.kind, o.price, o.qty, snap);
      plan.Refuse? || (plan.Fill? && Held(b, o.Key()) <= 0)
    requires Coherent(Settled(c, b, o, price, snap))
    ensures Holdings(Settled(c, b, o, price, snap)) && Held(b, o.Key()) >= 0
  {
    hide MoneyOf, Reservations, PlanFill, WorstCaseOutflow, SharesCovered, OrdersTidy;
    PlanWithinOrder(c, Sell, o.kind, o.price, o.qty, snap);
    var b2 := Settled(c, b, o, price, snap);
    assert b2.orders == b.orders[o.id := b2.orders[o.id]] && b2.orders[o.id].status == Rejected;
    HeldIsNonNegative(b, o.Key());
    NeverTraded(b, o.id);
    ReplaceOrder(b, b2, b2.orders[o.id]);
  }

  lemma HeldIsNonNegative(b: Book, key: Key)
    requires Coherent(b)
    ensures Held(b, key) >= 0
  {
  }

  lemma NeverTraded(b: Book, id: OrderId)
    requires OrdersTidy(b.orders, b.trades) && id !in b.orders
    ensures TradesOf(b.trades, id) == 0
  {
  }

  /** One more trade of this order is in the ledger, and the order counts as traded. */
  predicate TradedOnceMore(b: Book, r: Book, id: OrderId) {
    && |r.trades| == |b.trades| + 1 && r.trades[|b.trades|].orderId == id
    && id in r.orders && r.orders[id].status in {Complete, Partial}
  }

  /** The poll checks OPEN before it awaits the quote. An order that has become terminal by then is
      left alone exactly when the market lets it trade nothing; otherwise it trades once more. */
  lemma TerminalOrderTrades(c: Config, b: Book, id: OrderId, snap: Snapshot)
    requires Coherent(b) && id in b.orders && b.orders[id].status != Open && Quotable(c, snap)
    ensures b.orders[id].reservedCash <= b.reserved
    ensures Polled(c, b, id, snap) == b <==> !PollTrades(c, b, id, snap)
    ensures PollTrades(c, b, id, snap) ==> TradedOnceMore(b, Polled(c, b, id, snap), id)
  {
    hide MoneyOf, PlanFill, AffordableQty, Outflow, Applied, Finalised;
    ReservedIsNonNegative(b, id);
    var o := b.orders[id];
    var plan := PlanFill(c, o.side, o.kind, o.price, o.qty - o.filledQty, snap);
    PlanWithinOrder(c, o.side, o.kind, o.price, o.qty - o.filledQty, snap);
    if PollTrades(c, b, id, snap) {
      var qty := if o.side == Buy then AffordableQty(Budget(b, id), plan.qty, plan.price, o.product)
                 else Min(plan.qty, Held(b, o.Key()));
      TradedOnce(b, id, qty, plan.price);
    }
  }

  /** Read off the market, the order and the account: one share may trade now, and there is one to sell
      or the money to buy one. */
  predicate MayTrade(c: Config, b: Book, id: OrderId, snap: Snapshot)
    requires id in b.orders && Quotable(c, snap)
  {
    var o := b.orders[id];
    var plan := PlanFill(c, o.side, o.kind, o.price, o.qty - o.filledQty, snap);
    && Tradable(c, o.side, o.kind, o.price, o.qty - o.filledQty, snap, 1)
    && (o.side == Sell ==> Held(b, o.Key()) > 0)
    && (o.side == Buy && plan.Fill? ==> OneFits(Budget(b, id), plan.qty, plan.price, o.product))
  }

  /** The same in terms of the inputs. */
  lemma TerminalOrderTradesWhen(c: Config, b: Book, id: OrderId, snap: Snapshot)
    requires Coherent(b) && c.Valid() && snap.Sane()
    requires id in b.orders && b.orders[id].status != Open
    ensures b.orders[id].reservedCash <= b.reserved
    ensures Polled(c, b, id, snap) == b <==> !MayTrade(c, b, id, snap)
    ensures MayTrade(c, b, id, snap) ==> TradedOnceMore(b, Polled(c, b, id, snap), id)
  {
    hide Polled, AffordableQty, OneFits, PlanFill, Tradable, TradedOnceMore, MoneyOf, Reservations;
    var o := b.orders[id];
    var remaining := o.qty - o.filledQty;
    var plan := PlanFill(c, o.side, o.kind, o.price, remaining, snap);
    TerminalOrderTrades(c, b, id, snap);
    FillIsLargest(c, o.side, o.kind, o.price, remaining, snap, 1);
    PlanWithinOrder(c, o.side, o.kind, o.price, remaining, snap);
    if plan.Fill? {
      BuysSomethingWhen(Budget(b, id), plan.qty, plan.price, o.product);
    }
  }

  lemma TradedOnce(b: Book, id: OrderId, qty: int, price: real)
    requires Fillable(b, id, qty, price) && b.orders[id].id == id && b.orders[id].filledQty >= 0
    ensures var b1 := Applied(b, id, qty, price);
      && id in b1.orders && b1.orders[id].filledQty > b.orders[id].filledQty
      && TradedOnceMore(b, Finalised(b1, id), id)
  {
    hide CostsPaise, ToPaise, TakenCash, BoughtPosition, SoldPosition;
  }

  /** Once past the holdings check, a sell is not refused for holdings later in its placement. */
  lemma SettledNotRefusedForHoldings(c: Config, b: Book, o: PaperOrder, price: real, snap: Snapshot)
    requires Holdings(b) && c.Valid() && o.Fresh() && o.id !in b.orders && Quotable(c, snap)
    requires o.side == Sell && o.qty <= FreeQty(b, o.Key())
    requires o.kind == LimitOrder ==> price == o.price
    ensures b.reserved >= 0
    ensures var b' := Settled(c, b, o, price, snap);
      o.id in b'.orders && b'.orders[o.id].rejectReason !in {Some(InsufficientHoldings), Some(ShortSellNotSupported)}
  {
    hide MoneyOf, SharesCovered, Executed, WorstCaseOutflow, OrdersTidy;
    ReservedIsNonNegative(b, o.id);
    EarmarkedKeepsHoldings(c, b, o, price, snap);
    var b1 := Earmarked(c, b, o, price, snap);
    ExecutedCases(c, b1, o.id, snap);
    ExecutedReasons(c, b1, o.id, snap);
    SettledReason(c, b, o, price, snap);
  }

  lemma SettledReason(c: Config, b: Book, o: PaperOrder, price: real, snap: Snapshot)
    requires o.Fresh() && o.side == Sell && Quotable(c, snap) && b.reserved >= 0
    requires var a := Executed(c, Earmarked(c, b, o, price, snap), o.id, snap);
      o.id in a.book.orders && a.book.orders[o.id].rejectReason.None?
    ensures var a := Executed(c, Earmarked(c, b, o, price, snap), o.id, snap);
            var b' := Settled(c, b, o, price, snap);
      o.id in b'.orders && b'.orders[o.id].rejectReason in {None, a.reason}
  {
    hide Executed, WorstCaseOutflow;
  }

  lemma ExecutedReasons(c: Config, b: Book, id: OrderId, snap: Snapshot)
    requires Holdings(b) && id in b.orders && Quotable(c, snap)
    ensures b.orders[id].reservedCash <= b.reserved
    ensures var a := Executed(c, b, id, snap);
      && id in a.book.orders && a.book.orders[id].rejectReason == b.orders[id].rejectReason
      && a.reason != Some(ShortSellNotSupported)
  {
    hide MoneyOf, SharesCovered, PlanFill, AffordableQty, CostsPaise, ToPaise, BoughtPosition, SoldPosition, TakenCash;
    ReservedIsNonNegative(b, id);
    var o := b.orders[id];
    PlanReasons(c, o.side, o.kind, o.price, o.qty - o.filledQty, snap);
  }

  lemma PlanReasons(c: Config, side: Side, kind: OrderKind, price: real, remaining: int, snap: Snapshot)
    requires Quotable(c, snap)
    ensures var p := PlanFill(c, side, kind, price, remaining, snap);
      p.Refuse? ==> p.reason in {NoLiquidityData, NoLiquidity}
  {
    hide TowardsTrader, Impacted, MaxQtyWithinLimit, SnapLimit;
  }

  // ---------------------------------------------------------------- runs of non-overlapping calls

  /** The early checks of a placement were made on the very book it then settles on, only OPEN orders
      are polled, and no modification is refused for want of shares. */
  ghost predicate InOrder(b: Book, a: Action) {
    match a
    case Place(o, _, early, _) => early.None? && o.side == Sell ==> o.qty <= FreeQty(b, o.Key())
    case Poll(id, _) => id in b.orders && b.orders[id].status == Open
    case Modify(id, qty, _) => !RefusedForHoldings(b, id, qty)
    case Cancel(_) => true
  }

  lemma PlacedKeepsHoldings(c: Config, b: Book, o: PaperOrder, price: real, q: QuoteOutcome)
    requires Holdings(b) && c.Valid() && o.Fresh() && o.id !in b.orders
    requires q.Quoted? ==> Quotable(c, q.snap)
    requires o.kind == LimitOrder ==> price == o.price
    requires o.side == Sell ==> o.qty <= FreeQty(b, o.Key())
    ensures b.reserved >= 0 && Holdings(PlacedAfterQuote(c, b, o, price, q))
  {
    hide Settled, MoneyOf, Refused, SharesCovered;
    ReservedIsNonNegative(b, o.id);
    match q
    case Unquoted => RefusedKeepsHoldings(b, o, NoPrice);
    case Stale => RefusedKeepsHoldings(b, o, StalePrice);
    case Quoted(snap) =>
      if snap.volume <= 0 {
        RefusedKeepsHoldings(b, o, NoLiquidityData);
      } else {
        SettledKeepsHoldings(c, b, o, price, snap);
      }
  }

  /** A modification keeps the share discipline exactly unless it is refused for holdings: that
      refusal leaves the new size written on an order that still holds only the old one. */
  lemma ModifiedHoldings(b: Book, id: OrderId, qty: Option<int>, price: Option<real>)
    requires Holdings(b)
    ensures Holdings(Modified(b, id, qty, price)) <==> !RefusedForHoldings(b, id, qty)
  {
    hide MoneyOf, SharesCovered;
    ModifiedKeepsCoherent(b, id, qty, price);
    var b' := Modified(b, id, qty, price);
    if RefusedForHoldings(b, id, qty) {
      SharesNonNegative(b, id);
      assert OrderTidy(b.orders[id], TradesOf(b.trades, id));
      FreeIsNonNegative(b, b.orders[id].Key());
      assert !OrderTidy(b'.orders[id], TradesOf(b'.trades, id));
    } else if id in b.orders && b' != b {
      ModifiedCovered(b, id, qty, price);
    }
  }

  lemma FreeIsNonNegative(b: Book, key: Key)
    requires SharesCovered(b.orders, b.positions)
    ensures FreeQty(b, key) >= 0
  {
    assert Sum(SharesHeld(b.orders, key)) <= HeldIn(b.positions, key);
  }

  lemma ModifiedCovered(b: Book, id: OrderId, qty: Option<int>, price: Option<real>)
    requires Holdings(b) && id in b.orders && !RefusedForHoldings(b, id, qty)
    requires Modified(b, id, qty, price) != b
    ensures var b' := Modified(b, id, qty, price); SharesCovered(b'.orders, b'.positions)
  {
    hide MoneyOf;
    var b', o := Modified(b, id, qty, price), b.orders[id];
    assert OrderTidy(o, TradesOf(b.trades, id));
    assert b'.orders == b.orders[id := b'.orders[id]];
    forall key
      ensures Sum(SharesHeld(b'.orders, key)) <= HeldIn(b'.positions, key)
    {
      SharesUpdate(b.orders, id, b'.orders[id], key);
      assert Sum(SharesHeld(b.orders, key)) <= HeldIn(b.positions, key);
    }
  }

  lemma StepKeepsHoldings(c: Config, b: Book, a: Action)
    requires Holdings(b) && c.Valid() && Possible(c, b, a) && InOrder(b, a)
    ensures Holdings(Step(c, b, a))
  {
    hide PlacedAfterQuote, Polled, CancelledOrder, Modified, Refused, MoneyOf, SharesCovered;
    match a
    case Place(o, price, early, quote) =>
      if early.Some? {
        RefusedKeepsHoldings(b, o, early.value);
      } else {
        PlacedKeepsHoldings(c, b, o, price, quote);
      }
    case Poll(id, snap) => PolledKeepsHoldings(c, b, id, snap);
    case Cancel(id) => CancelledKeepsHoldings(b, id);
    case Modify(id, qty, newPrice) => ModifiedHoldings(b, id, qty, newPrice);
  }

  /** What one section needs to keep the share discipline, on the book it runs on. */
  ghost predicate KeepsShares(c: Config, b: Book, a: Action)
    requires Possible(c, b, a)
  {
    match a
    case Place(o, _, early, quote) =>
      early.None? && o.side == Sell && quote.Quoted? && quote.snap.volume > 0 ==>
        Claimed(c, b, o, quote.snap) <= FreeQty(b, o.Key())
    case Poll(id, snap) =>
      var o := b.orders[id];
      o.status == Open || (PollTrades(c, b, id, snap) ==>
                             o.filledQty == 0 && (o.side == Sell ==> Claimed(c, b, o, snap) <= FreeQty(b, o.Key())))
    case Modify(id, qty, _) => !RefusedForHoldings(b, id, qty)
    case Cancel(_) => true
  }

  /** Every section, overlapping or not, keeps the discipline exactly under that condition. */
  lemma StepKeepsHoldingsWhen(c: Config, b: Book, a: Action)
    requires Holdings(b) && c.Valid() && Possible(c, b, a)
    ensures Holdings(Step(c, b, a)) <==> KeepsShares(c, b, a)
  {
    hide Settled, Polled, CancelledOrder, Modified, Refused, MoneyOf, SharesCovered, OrdersTidy, Claimed,
         PollTrades, FreeQty;
    match a
    case Place(o, price, early, quote) =>
      ReservedIsNonNegative(b, o.id);
      if early.Some? {
        RefusedKeepsHoldings(b, o, early.value);
      } else if quote.Quoted? && quote.snap.volume > 0 {
        if o.side == Sell {
          SaleKeepsHoldings(c, b, o, price, quote.snap);
        } else {
          SettledKeepsHoldings(c, b, o, price, quote.snap);
        }
      } else {
        RefusedKeepsHoldings(b, o, NoPrice);
        RefusedKeepsHoldings(b, o, StalePrice);
        RefusedKeepsHoldings(b, o, NoLiquidityData);
      }
    case Poll(id, snap) =>
      if b.orders[id].status == Open {
        PolledKeepsHoldings(c, b, id, snap);
      } else {
        TerminalOrderTrades(c, b, id, snap);
        if PollTrades(c, b, id, snap) {
          LateFillHoldings(c, b, id, snap);
        }
      }
    case Cancel(id) => CancelledKeepsHoldings(b, id);
    case Modify(id, qty, newPrice) => ModifiedHoldings(b, id, qty, newPrice);
  }

  /** A fill on an order that is no longer OPEN. */
  lemma LateFillHoldings(c: Config, b: Book, id: OrderId, snap: Snapshot)
    requires Holdings(b) && id in b.orders && b.orders[id].status != Open && Quotable(c, snap)
    requires PollTrades(c, b, id, snap)
    ensures b.orders[id].reservedCash <= b.reserved
    ensures var o := b.orders[id];
      Holdings(Polled(c, b, id, snap))
      <==> o.filledQty == 0 && (o.side == Sell ==> Claimed(c, b, o, snap) <= FreeQty(b, o.Key()))
  {
    hide MoneyOf, SharesCovered, OrdersTidy, Reservations, PlanFill, AffordableQty, Outflow, Applied, Finalised,
         FreeQty;
    ReservedIsNonNegative(b, id);
    PolledKeepsCoherent(c, b, id, snap);
    TidyOrder(b, id);
    var o := b.orders[id];
    var plan := PlanFill(c, o.side, o.kind, o.price, o.qty - o.filledQty, snap);
    PlanWithinOrder(c, o.side, o.kind, o.price, o.qty - o.filledQty, snap);
    var qty := if o.side == Buy then AffordableQty(Budget(b, id), plan.qty, plan.price, o.product)
               else Min(plan.qty, Held(b, o.Key()));
    TradedOnce(b, id, qty, plan.price);
    assert Polled(c, b, id, snap) == Finalised(Applied(b, id, qty, plan.price), id);
    if o.filledQty == 0 {
      FillTidy(b, id, qty, plan.price);
      FillCoveredWhen(b, id, qty, plan.price);
    } else {
      TradedTwice(b, id, qty, plan.price);
    }
  }

  lemma TidyOrder(b: Book, id: OrderId)
    requires Coherent(b) && OrdersTidy(b.orders, b.trades) && id in b.orders
    ensures b.orders[id].id == id && OrderSound(b.orders[id])
    ensures TradesOf(b.trades, id) == if b.orders[id].filledQty > 0 then 1 else 0
    ensures b.orders[id].status == Open ==> b.orders[id].filledQty == 0
  {
    hide MoneyOf;
  }

  lemma TradedTwice(b: Book, id: OrderId, qty: int, price: real)
    requires Fillable(b, id, qty, price) && b.orders[id].id == id && TradesOf(b.trades, id) == 1
    ensures id in Applied(b, id, qty, price).orders
    ensures var b2 := Finalised(Applied(b, id, qty, price), id); !OrdersTidy(b2.orders, b2.trades)
  {
    hide CostsPaise, ToPaise, TakenCash, BoughtPosition, SoldPosition;
    var b1 := Applied(b, id, qty, price);
    AppendTrade(b.trades, b1.trades[|b.trades|]);
    assert TradesOf(Finalised(b1, id).trades, id) == 2;
  }

  ghost predicate InOrderNext(b: Option<Book>, a: Action) { b.Some? && InOrder(b.value, a) }

  ghost predicate AllInOrder(c: Config, initial: int, actions: seq<Action>)
    requires c.Valid()
  {
    forall n :: 0 <= n < |actions| ==> InOrderNext(Run(c, initial, actions[..n]), actions[n])
  }

  lemma OpenedHoldings(initial: int)
    ensures Holdings(Opened(initial))
  {
    OpenedIsCoherent(initial);
    forall key
      ensures Sum(SharesHeld(map[], key)) <= 0
    {
      SumZero(SharesHeld(map[], key));
    }
  }

  /** Over every non-overlapping history without a refused modification: OPEN orders are unfilled,
      every order traded at most once, and what OPEN sells hold never exceeds the holding. */
  lemma {:induction false} RunsKeepHoldings(c: Config, initial: int, actions: seq<Action>)
    requires c.Valid() && Run(c, initial, actions).Some? && AllInOrder(c, initial, actions)
    ensures Holdings(Run(c, initial, actions).value)
  {
    hide Step, Possible, InOrder, Coherent, Holdings;
    if actions == [] {
      OpenedHoldings(initial);
    } else {
      var n := |actions| - 1;
      PrefixInOrder(c, initial, actions, n);
      RunsKeepHoldings(c, initial, actions[..n]);
      assert InOrderNext(Run(c, initial, actions[..n]), actions[n]);
      StepKeepsHoldings(c, Run(c, initial, actions[..n]).value, actions[n]);
    }
  }

  lemma PrefixInOrder(c: Config, initial: int, actions: seq<Action>, k: nat)
    requires c.Valid() && AllInOrder(c, initial, actions) && k <= |actions|
    ensures AllInOrder(c, initial, actions[..k])
  {
    hide Run, InOrderNext;
    forall m | 0 <= m < k
      ensures InOrderNext(Run(c, initial, actions[..k][..m]), actions[..k][m])
    {
      assert actions[..k][..m] == actions[..m];
    }
  }
}
