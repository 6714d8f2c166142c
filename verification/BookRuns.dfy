/** Every operation, and every run of interleaved operations, keeps the book coherent; solvency is
    kept exactly when each sale covers its own charges. */
module BookRuns {
  import opened Market
  import opened Rounding
  import opened Costs
  import opened FillPlan
  import opened Affordable
  import opened Sums
  import opened Book
  import opened BookMoney

  lemma BuyOutflowNonNegative(side: Side, qty: int, price: real, product: Product)
    requires qty > 0 && (side == Buy ==> ToPaise(price) >= 0)
    ensures CostsPaise(side, qty, price, product) >= 0
    ensures side == Buy ==> qty * ToPaise(price) >= 0
  {
    hide CostsPaise;
    CostsNonNegative(side, qty, price, product);
  }

  lemma FilledOrderSound(o: PaperOrder, qty: int, outflow: int)
    requires OrderSound(o) && qty > 0 && (o.side == Buy ==> outflow >= 0)
    ensures OrderSound(FilledOrder(o, qty, TakenCash(o, outflow)))
  {
  }

  lemma AppliedKeepsCoherent(b: Book, id: OrderId, qty: int, price: real)
    requires Coherent(b) && Fillable(b, id, qty, price)
    requires b.orders[id].side == Buy ==> ToPaise(price) >= 0
    ensures Coherent(Applied(b, id, qty, price))
  {
    hide MoneyOf, BoughtPosition, SoldPosition, CostsPaise, ToPaise, FilledOrder, TakenCash;
    AppliedKeepsMoney(b, id, qty, price);
    var o := b.orders[id];
    BuyOutflowNonNegative(o.side, qty, price, o.product);
    var outflow := qty * ToPaise(price) + CostsPaise(o.side, qty, price, o.product);
    FilledOrderSound(o, qty, outflow);
    FilledOrderKeeps(o, qty, TakenCash(o, outflow));
    PutLine(b, o.Key(), Applied(b, id, qty, price).positions[o.Key()]);
    UpdateOrder(b, Applied(b, id, qty, price), FilledOrder(o, qty, TakenCash(o, outflow)));
  }

  lemma FilledOrderKeeps(o: PaperOrder, qty: int, take: int)
    ensures var o' := FilledOrder(o, qty, take);
      && o'.id == o.id && o'.reservedCash == o.reservedCash - take
      && o'.qty == o.qty && o'.filledQty == o.filledQty + qty && o'.status == o.status && o'.Key() == o.Key()
  {
  }

  lemma ReleasedKeepsCoherent(b: Book, id: OrderId)
    requires Coherent(b) && id in b.orders
    ensures Coherent(Released(b, id)) && Released(b, id).initial == b.initial
    ensures Released(b, id).orders.Keys == b.orders.Keys
    ensures var o := Released(b, id).orders[id]; o.reservedCash == 0 && o.filledQty >= 0 && o.id == id
  {
    hide MoneyOf;
    UpdateOrder(b, Released(b, id), Released(b, id).orders[id]);
  }

  lemma RefusedKeepsCoherent(b: Book, o: PaperOrder, reason: Reason)
    requires Coherent(b) && o.filledQty >= 0
    requires o.id in b.orders ==> b.orders[o.id].reservedCash == 0
    ensures Coherent(Refused(b, o, reason)) && Refused(b, o, reason).initial == b.initial
    ensures Refused(b, o, reason).orders.Keys == b.orders.Keys + {o.id}
  {
    hide MoneyOf;
    UpdateOrder(b, Refused(b, o, reason), Refused(b, o, reason).orders[o.id]);
  }

  lemma FinalisedKeepsCoherent(b: Book, id: OrderId)
    requires Coherent(b) && id in b.orders
    ensures Coherent(Finalised(b, id)) && Finalised(b, id).initial == b.initial
    ensures Finalised(b, id).orders.Keys == b.orders.Keys
  {
    hide MoneyOf, Finalised, Sum, CashHeld;
    ReservedIsNonNegative(b, id);
    FinalisedShape(b, id);
    UpdateOrder(b, Finalised(b, id), Finalised(b, id).orders[id]);
  }

  lemma FinalisedShape(b: Book, id: OrderId)
    requires id in b.orders && b.orders[id].id == id && OrderSound(b.orders[id])
    ensures var b' := Finalised(b, id);
      && b'.orders.Keys == b.orders.Keys && b'.orders == b.orders[id := b'.orders[id]]
      && b'.reserved == b.reserved + b'.orders[id].reservedCash - b.orders[id].reservedCash
      && b' == b.(orders := b'.orders, reserved := b'.reserved)
      && b'.orders[id].id == id && OrderSound(b'.orders[id])
  {
  }

  lemma ExecutedKeepsCoherent(c: Config, b: Book, id: OrderId, snap: Snapshot)
    requires Coherent(b) && id in b.orders && Quotable(c, snap)
    ensures b.orders[id].reservedCash <= b.reserved
    ensures var a := Executed(c, b, id, snap);
      && Coherent(a.book) && id in a.book.orders && a.book.initial == b.initial
      && a.book.orders.Keys == b.orders.Keys && a.book.ids == b.ids && a.book.orders[id].id == id
      && (a.reason.Some? ==> a.book == b)
      && a.book.orders[id].qty == b.orders[id].qty
      && a.book.orders[id].filledQty >= b.orders[id].filledQty
  {
    hide MoneyOf, PlanFill, AffordableQty, Outflow, Applied;
    ReservedIsNonNegative(b, id);
    var o := b.orders[id];
    var plan := PlanFill(c, o.side, o.kind, o.price, o.qty - o.filledQty, snap);
    if plan.Fill? && plan.qty > 0 {
      var qty := if o.side == Buy then AffordableQty(Budget(b, id), plan.qty, plan.price, o.product)
                 else Min(plan.qty, Held(b, o.Key()));
      if qty > 0 {
        AppliedKeepsCoherent(b, id, qty, plan.price);
        AppliedShape(b, id, qty, plan.price);
      }
    }
  }

  /** One execution books one trade or none. */
  lemma TradeCount(c: Config, b: Book, id: OrderId, snap: Snapshot)
    requires Coherent(b) && id in b.orders && Quotable(c, snap)
    ensures b.orders[id].reservedCash <= b.reserved
    ensures var a := Executed(c, b, id, snap);
      && id in a.book.orders
      && |a.book.trades| == |b.trades| + if a.book.orders[id].filledQty > b.orders[id].filledQty then 1 else 0
  {
    hide MoneyOf, PlanFill, AffordableQty, CostsPaise, ToPaise, BoughtPosition, SoldPosition, TakenCash, Outflow;
    ReservedIsNonNegative(b, id);
  }

  lemma AppliedShape(b: Book, id: OrderId, qty: int, price: real)
    requires Fillable(b, id, qty, price) && b.orders[id].id == id
    ensures var b1 := Applied(b, id, qty, price);
      && b1.orders.Keys == b.orders.Keys && b1.initial == b.initial && b1.ids == b.ids && b1.orders[id].id == id
      && b1.orders[id].qty == b.orders[id].qty && b1.orders[id].filledQty == b.orders[id].filledQty + qty
  {
    hide CostsPaise, ToPaise, TakenCash, BoughtPosition, SoldPosition;
  }

  lemma WorstCaseNonNegative(c: Config, o: PaperOrder, price: real, snap: Snapshot)
    requires o.Fresh() && c.Valid() && Quotable(c, snap)
    requires o.kind == LimitOrder ==> price == o.price
    ensures WorstCaseOutflow(c, o.qty, price, o.kind, o.product, snap) >= 0
  {
    hide Round2, CostsPaise, ImpactFrac;
    var volume := if snap.volume > 1 then snap.volume else 1;
    var base := if o.kind == MarketOrder then snap.ask else MaxReal(price, snap.ask);
    ImpactMonotone(c, o.qty, o.qty, volume);
    ScaleUp(0.0, base, 0.0, ImpactFrac(c, o.qty, volume));
    var ref := if o.kind == LimitOrder then SnapLimit(c, price, Buy)
               else CeilTick(MarkedUp(base, ImpactFrac(c, o.qty, volume)), c.tick);
    GridNonNegative(c.tick, if o.kind == LimitOrder then price else 0.0);
    GridNonNegative(c.tick, MarkedUp(base, ImpactFrac(c, o.qty, volume)));
    OutflowMonotone(o.qty, ref, o.qty, ref, o.product);
  }

  lemma GridNonNegative(tick: real, x: real)
    requires tick > 0.0 && x >= 0.0
    ensures FloorTick(x, tick) >= 0.0 && CeilTick(x, tick) >= 0.0
  {
    assert Ticks(x, tick) >= 0.0;
    assert Grid(0, tick) == 0.0 by { RoundHalfEvenWhole(0); }
    GridMonotone(0, Ticks(x, tick).Floor, tick);
    GridMonotone(0, Ceil(Ticks(x, tick)), tick);
  }

  lemma EarmarkedKeepsCoherent(c: Config, b: Book, o: PaperOrder, price: real, snap: Snapshot)
    requires Coherent(b) && c.Valid() && o.Fresh() && o.id !in b.orders && Quotable(c, snap)
    requires o.kind == LimitOrder ==> price == o.price
    ensures Coherent(Earmarked(c, b, o, price, snap))
    ensures Earmarked(c, b, o, price, snap).orders.Keys == b.orders.Keys + {o.id}
    ensures Earmarked(c, b, o, price, snap).initial == b.initial
  {
    hide WorstCaseOutflow, MoneyOf, Sum, CashHeld;
    WorstCaseNonNegative(c, o, price, snap);
    var b1 := Earmarked(c, b, o, price, snap);
    UpdateOrder(b, b1, b1.orders[o.id]);
  }

  lemma AttemptedKeepsCoherent(c: Config, b: Book, id: OrderId, snap: Snapshot)
    requires Coherent(b) && id in b.orders && Quotable(c, snap)
    ensures b.orders[id].reservedCash <= b.reserved
    ensures var b' := Attempted(c, b, id, snap);
      Coherent(b') && b'.initial == b.initial && b'.orders.Keys == b.orders.Keys
  {
    hide Executed, MoneyOf, Reservations, Released, Refused, Finalised;
    ExecutedKeepsCoherent(c, b, id, snap);
    var a := Executed(c, b, id, snap);
    if a.reason.Some? && a.book.orders[id].filledQty == 0 {
      ReleasedKeepsCoherent(a.book, id);
      RefusedKeepsCoherent(Released(a.book, id), Released(a.book, id).orders[id], a.reason.value);
    } else {
      FinalisedKeepsCoherent(a.book, id);
    }
  }

  lemma SettledKeepsCoherent(c: Config, b: Book, o: PaperOrder, price: real, snap: Snapshot)
    requires Coherent(b) && c.Valid() && o.Fresh() && o.id !in b.orders && Quotable(c, snap)
    requires o.kind == LimitOrder ==> price == o.price
    ensures b.reserved >= 0 && Coherent(Settled(c, b, o, price, snap))
    ensures Settled(c, b, o, price, snap).initial == b.initial
    ensures Settled(c, b, o, price, snap).orders.Keys == b.orders.Keys + {o.id}
  {
    hide WorstCaseOutflow, Attempted, MoneyOf, Reservations, Refused;
    ReservedIsNonNegative(b, o.id);
    if o.side == Buy && WorstCaseOutflow(c, o.qty, price, o.kind, o.product, snap) > Available(b) {
      RefusedKeepsCoherent(b, o, InsufficientCash);
    } else {
      EarmarkedKeepsCoherent(c, b, o, price, snap);
      AttemptedKeepsCoherent(c, Earmarked(c, b, o, price, snap), o.id, snap);
    }
  }

  lemma PlacedKeepsCoherent(c: Config, b: Book, o: PaperOrder, price: real, q: QuoteOutcome)
    requires Coherent(b) && c.Valid() && o.Fresh() && o.id !in b.orders
    requires q.Quoted? ==> Quotable(c, q.snap)
    requires o.kind == LimitOrder ==> price == o.price
    ensures b.reserved >= 0 && Coherent(PlacedAfterQuote(c, b, o, price, q))
    ensures PlacedAfterQuote(c, b, o, price, q).initial == b.initial
  {
    hide Settled, MoneyOf, Refused;
    ReservedIsNonNegative(b, o.id);
    match q
    case Unquoted => RefusedKeepsCoherent(b, o, NoPrice);
    case Stale => RefusedKeepsCoherent(b, o, StalePrice);
    case Quoted(snap) =>
      if snap.volume <= 0 {
        RefusedKeepsCoherent(b, o, NoLiquidityData);
      } else {
        SettledKeepsCoherent(c, b, o, price, snap);
      }
  }

  lemma PolledKeepsCoherent(c: Config, b: Book, id: OrderId, snap: Snapshot)
    requires Coherent(b) && id in b.orders && Quotable(c, snap)
    ensures b.orders[id].reservedCash <= b.reserved && Coherent(Polled(c, b, id, snap))
    ensures Polled(c, b, id, snap).initial == b.initial
  {
    hide Executed, Finalised, MoneyOf;
    ReservedIsNonNegative(b, id);
    ExecutedKeepsCoherent(c, b, id, snap);
    FinalisedKeepsCoherent(Executed(c, b, id, snap).book, id);
  }

  lemma CancelledKeepsCoherent(b: Book, id: OrderId)
    requires Coherent(b)
    ensures Coherent(CancelledOrder(b, id)) && CancelledOrder(b, id).initial == b.initial
  {
    hide MoneyOf;
    if id in b.orders && b.orders[id].status == Open {
      ReleasedKeepsCoherent(b, id);
      var b1 := Released(b, id);
      UpdateOrder(b1, CancelledOrder(b, id), CancelledOrder(b, id).orders[id]);
    }
  }

  lemma ModifiedKeepsCoherent(b: Book, id: OrderId, qty: Option<int>, price: Option<real>)
    requires Coherent(b)
    ensures Coherent(Modified(b, id, qty, price)) && Modified(b, id, qty, price).initial == b.initial
  {
    hide MoneyOf, Modified, Sum, CashHeld;
    ReservedIsNonNegative(b, id);
    ListedOrders(b);
    ModifiedShape(b, id, qty, price);
    if Modified(b, id, qty, price) != b {
      UpdateOrder(b, Modified(b, id, qty, price), Modified(b, id, qty, price).orders[id]);
    }
  }

  lemma ModifiedShape(b: Book, id: OrderId, qty: Option<int>, price: Option<real>)
    requires id in b.orders ==> b.orders[id].id == id && OrderSound(b.orders[id])
    ensures var b' := Modified(b, id, qty, price);
      b' == b || (
      && id in b.orders && id in b'.orders
      && b' == b.(orders := b.orders[id := b'.orders[id]])
      && b'.orders[id].id == id && OrderSound(b'.orders[id])
      && b'.orders[id].reservedCash == b.orders[id].reservedCash)
  {
    hide FreeQty;
  }

  // ---------------------------------------------------------------- runs

  /** The atomic sections of the broker: what runs between two suspension points. `early` is the
      verdict of the checks made before the quote was awaited, on whatever book stood then. */
  datatype Action =
    | Place(order: PaperOrder, price: real, early: Option<Reason>, quote: QuoteOutcome)
    | Poll(id: OrderId, snap: Snapshot)
    | Cancel(id: OrderId)
    | Modify(id: OrderId, qty: Option<int>, newPrice: Option<real>)

  /** Order ids are never reused, statically invalid orders were refused early, and quotes carry a
      positive touch. Nothing relates one action to the next, so any interleaving is a run. */
  predicate Possible(c: Config, b: Book, a: Action) {
    match a
    case Place(o, price, early, quote) =>
      && o.id !in b.orders && o.filledQty == 0
      && (early.None? ==> o.Fresh())
      && (o.kind == LimitOrder ==> price == o.price)
      && (quote.Quoted? ==> Quotable(c, quote.snap))
    case Poll(id, snap) => id in b.orders && Quotable(c, snap)
    case _ => true
  }

  ghost function Step(c: Config, b: Book, a: Action): Book
    requires Coherent(b) && c.Valid() && Possible(c, b, a)
  {
    match a
    case Place(o, price, early, quote) =>
      ReservedIsNonNegative(b, o.id);
      if early.Some? then Refused(b, o, early.value) else PlacedAfterQuote(c, b, o, price, quote)
    case Poll(id, snap) =>
      ReservedIsNonNegative(b, id);
      Polled(c, b, id, snap)
    case Cancel(id) => CancelledOrder(b, id)
    case Modify(id, qty, newPrice) => Modified(b, id, qty, newPrice)
  }

  /** One atomic section keeps the book coherent: money conserved, ledger agreed, earmarks added up. */
  lemma StepKeepsCoherent(c: Config, b: Book, a: Action)
    requires Coherent(b) && c.Valid() && Possible(c, b, a)
    ensures Coherent(Step(c, b, a)) && Step(c, b, a).initial == b.initial
  {
    hide PlacedAfterQuote, Polled, CancelledOrder, Modified, Refused, MoneyOf;
    match a
    case Place(o, price, early, quote) =>
      if early.Some? {
        RefusedKeepsCoherent(b, o, early.value);
      } else {
        PlacedKeepsCoherent(c, b, o, price, quote);
      }
    case Poll(id, snap) => PolledKeepsCoherent(c, b, id, snap);
    case Cancel(id) => CancelledKeepsCoherent(b, id);
    case Modify(id, qty, newPrice) => ModifiedKeepsCoherent(b, id, qty, newPrice);
  }

  lemma OpenedIsCoherent(initial: int)
    ensures Coherent(Opened(initial))
  {
    SumZero(CashHeld(map[]));
    SumZero(Bases(map[]));
    SumZero(Realised(map[]));
  }

  /** The book after a whole history of interleaved actions, or None if some action was impossible
      at its point. Whatever the history: cash plus the basis of open positions is the opening
      balance plus realised profit, cash is the fold of the ledger, a closed position has basis
      zero, every holding is the signed ledger quantity, and the earmark is what OPEN orders hold. */
  ghost function Run(c: Config, initial: int, actions: seq<Action>): (r: Option<Book>)
    requires c.Valid()
    ensures r.Some? ==> Coherent(r.value) && r.value.initial == initial
  {
    if actions == [] then
      OpenedIsCoherent(initial);
      Some(Opened(initial))
    else
      var before, a := Run(c, initial, actions[..|actions| - 1]), actions[|actions| - 1];
      if before.None? || !Possible(c, before.value, a) then None
      else
        StepKeepsCoherent(c, before.value, a);
        Some(Step(c, before.value, a))
  }

  // ---------------------------------------------------------------- solvency

  /** What a sale against this snapshot must satisfy: its charges fit its proceeds plus free cash. */
  predicate SaleCovered(c: Config, b: Book, o: PaperOrder, snap: Snapshot)
    requires Quotable(c, snap)
  {
    var plan := PlanFill(c, o.side, o.kind, o.price, o.qty - o.filledQty, snap);
    o.side == Sell && plan.Fill? ==>
      var qty := Min(plan.qty, Held(b, o.Key()));
      qty > 0 ==> CostsPaise(Sell, qty, plan.price, o.product) <= qty * ToPaise(plan.price) + Available(b)
  }

  predicate Covered(c: Config, b: Book, a: Action)
    requires Possible(c, b, a)
  {
    match a
    case Place(o, _, early, quote) =>
      early.None? && quote.Quoted? && quote.snap.volume > 0 ==> SaleCovered(c, b, o, quote.snap)
    case Poll(id, snap) => SaleCovered(c, b, b.orders[id], snap)
    case _ => true
  }

  /** Cash not earmarked by any other order. */
  function FreeOf(b: Book, id: OrderId): int
    requires id in b.orders
  {
    b.cash - b.reserved + b.orders[id].reservedCash
  }

  /** An execution leaves non-negative free cash, except for an uncovered sale. */
  lemma ExecutedFree(c: Config, b: Book, id: OrderId, snap: Snapshot)
    requires Coherent(b) && id in b.orders && Quotable(c, snap)
    requires FreeOf(b, id) >= 0
    ensures b.orders[id].reservedCash <= b.reserved
    ensures var a, o := Executed(c, b, id, snap), b.orders[id];
      && id in a.book.orders
      && (a.book.orders[id].filledQty > o.filledQty || a.book == b)
      && (o.side == Buy ==> FreeOf(a.book, id) >= 0)
      && (o.side == Sell ==> a.book.reserved == b.reserved && a.book.orders[id].reservedCash == 0
                             && (FreeOf(a.book, id) >= 0 <==> SaleCovered(c, b, o, snap)))
  {
    hide MoneyOf, PlanFill, AffordableQty, CostsPaise, ToPaise, BoughtPosition, SoldPosition;
    ReservedIsNonNegative(b, id);
  }

  lemma FinalisedFree(b: Book, id: OrderId)
    requires id in b.orders && b.orders[id].filledQty > 0
    ensures Available(Finalised(b, id)) == FreeOf(b, id)
  {
  }

  lemma PolledSolvency(c: Config, b: Book, id: OrderId, snap: Snapshot)
    requires Coherent(b) && Solvent(b) && id in b.orders && Quotable(c, snap)
    ensures b.orders[id].reservedCash <= b.reserved
    ensures Available(Polled(c, b, id, snap)) >= 0 <==> SaleCovered(c, b, b.orders[id], snap)
  {
    hide Executed, Finalised, MoneyOf, SaleCovered;
    ReservedIsNonNegative(b, id);
    ExecutedFree(c, b, id, snap);
    var a := Executed(c, b, id, snap);
    if a.book.orders[id].filledQty > b.orders[id].filledQty {
      FinalisedFree(a.book, id);
    }
    BuysAreCovered(c, b, b.orders[id], snap);
  }

  lemma BuysAreCovered(c: Config, b: Book, o: PaperOrder, snap: Snapshot)
    requires Quotable(c, snap)
    ensures o.side == Buy ==> SaleCovered(c, b, o, snap)
  {
  }

  lemma SettledSolvency(c: Config, b: Book, o: PaperOrder, price: real, snap: Snapshot)
    requires Coherent(b) && Solvent(b) && c.Valid() && o.Fresh() && o.id !in b.orders && Quotable(c, snap)
    requires o.kind == LimitOrder ==> price == o.price
    ensures Available(Settled(c, b, o, price, snap)) >= 0 <==> SaleCovered(c, b, o, snap)
  {
    hide WorstCaseOutflow, Attempted, MoneyOf, Reservations, SaleCovered;
    BuysAreCovered(c, b, o, snap);
    var need := WorstCaseOutflow(c, o.qty, price, o.kind, o.product, snap);
    if o.side == Buy && need > Available(b) {
    } else {
      EarmarkedKeepsCoherent(c, b, o, price, snap);
      AttemptedFree(c, Earmarked(c, b, o, price, snap), o.id, snap);
      EarmarkIrrelevant(c, b, o, price, snap);
    }
  }

  lemma AttemptedFree(c: Config, b: Book, id: OrderId, snap: Snapshot)
    requires Coherent(b) && id in b.orders && Quotable(c, snap)
    requires Available(b) >= 0 && b.orders[id].filledQty == 0
    ensures b.orders[id].reservedCash <= b.reserved
    ensures var o := b.orders[id];
      Available(Attempted(c, b, id, snap)) >= 0 <==> (o.side == Sell ==> SaleCovered(c, b, o, snap))
  {
    hide Executed, MoneyOf, Reservations, SaleCovered;
    ReservedIsNonNegative(b, id);
    ExecutedFree(c, b, id, snap);
    ExecutedKeepsCoherent(c, b, id, snap);
    var a := Executed(c, b, id, snap);
    if a.book.orders[id].filledQty > 0 {
      FinalisedFree(a.book, id);
    }
  }

  lemma EarmarkIrrelevant(c: Config, b: Book, o: PaperOrder, price: real, snap: Snapshot)
    requires Quotable(c, snap)
    ensures var b1 := Earmarked(c, b, o, price, snap);
      SaleCovered(c, b1, b1.orders[o.id], snap) == SaleCovered(c, b, o, snap)
  {
    hide PlanFill, CostsPaise;
  }

  /** A solvent book stays solvent exactly when the action's sale, if it makes one, covers its own
      charges out of proceeds and free cash. Buys always do, however far prices moved. */
  lemma StepSolvency(c: Config, b: Book, a: Action)
    requires Coherent(b) && Solvent(b) && c.Valid() && Possible(c, b, a)
    ensures Solvent(Step(c, b, a)) <==> Covered(c, b, a)
  {
    hide PlacedAfterQuote, Polled, CancelledOrder, Modified, MoneyOf, SaleCovered;
    StepKeepsCoherent(c, b, a);
    ReservedIsNonNegative(Step(c, b, a), 0);
    match a
    case Place(o, price, early, quote) =>
      if early.None? {
        PlacedSolvency(c, b, o, price, quote);
      }
    case Poll(id, snap) => PolledSolvency(c, b, id, snap);
    case Cancel(id) => QuietSolvency(b, id, None, None);
    case Modify(id, qty, newPrice) => QuietSolvency(b, id, qty, newPrice);
  }

  lemma PlacedSolvency(c: Config, b: Book, o: PaperOrder, price: real, q: QuoteOutcome)
    requires Coherent(b) && Solvent(b) && c.Valid() && o.Fresh() && o.id !in b.orders
    requires q.Quoted? ==> Quotable(c, q.snap)
    requires o.kind == LimitOrder ==> price == o.price
    ensures Available(PlacedAfterQuote(c, b, o, price, q)) >= 0
       <==> (q.Quoted? && q.snap.volume > 0 ==> SaleCovered(c, b, o, q.snap))
  {
    hide Settled, SaleCovered, MoneyOf;
    if q.Quoted? && q.snap.volume > 0 {
      SettledSolvency(c, b, o, price, q.snap);
    }
  }

  lemma QuietSolvency(b: Book, id: OrderId, qty: Option<int>, price: Option<real>)
    requires Coherent(b) && Solvent(b)
    ensures Available(CancelledOrder(b, id)) >= 0 && Available(Modified(b, id, qty, price)) >= 0
  {
    hide MoneyOf, FreeQty;
    ReservedIsNonNegative(b, id);
  }

  ghost predicate CoveredNext(c: Config, b: Option<Book>, a: Action) {
    b.Some? && Possible(c, b.value, a) && Covered(c, b.value, a)
  }

  /** Every action of the history was covered where it happened. */
  ghost predicate AllCovered(c: Config, initial: int, actions: seq<Action>)
    requires c.Valid()
  {
    forall n :: 0 <= n < |actions| ==> CoveredNext(c, Run(c, initial, actions[..n]), actions[n])
  }

  lemma PrefixCovered(c: Config, initial: int, actions: seq<Action>, k: nat)
    requires c.Valid() && AllCovered(c, initial, actions) && k <= |actions|
    ensures AllCovered(c, initial, actions[..k])
  {
    hide Run, CoveredNext;
    forall m | 0 <= m < k
      ensures CoveredNext(c, Run(c, initial, actions[..k][..m]), actions[..k][m])
    {
      assert actions[..k][..m] == actions[..m];
    }
  }

  /** Over every covered history the account is never overdrawn and never over-earmarked. */
  lemma {:induction false} CoveredRunsStaySolvent(c: Config, initial: int, actions: seq<Action>)
    requires c.Valid() && initial >= 0 && AllCovered(c, initial, actions)
    ensures Run(c, initial, actions).Some? && Solvent(Run(c, initial, actions).value)
  {
    hide Step, Possible, Covered, Coherent;
    if actions != [] {
      var n := |actions| - 1;
      PrefixCovered(c, initial, actions, n);
      CoveredRunsStaySolvent(c, initial, actions[..n]);
      assert CoveredNext(c, Run(c, initial, actions[..n]), actions[n]);
      StepSolvency(c, Run(c, initial, actions[..n]).value, actions[n]);
    }
  }

  /** An accepted BUY trades exactly the quantity planned against the snapshot it was sized on, at the
      planned price, once: the earmark taken a moment before is never too small. */
  lemma PlacedBuyFillsAsPlanned(c: Config, b: Book, o: PaperOrder, price: real, snap: Snapshot)
    requires Coherent(b) && c.Valid() && o.Fresh() && o.id !in b.orders && o.side == Buy && snap.Sane()
    requires o.kind in {MarketOrder, LimitOrder} ==> price == o.price
    requires WorstCaseOutflow(c, o.qty, price, o.kind, o.product, snap) <= Available(b)
    ensures b.reserved >= 0
    ensures var plan := PlanFill(c, Buy, o.kind, o.price, o.qty, snap);
            var after := Settled(c, b, o, price, snap);
      && o.id in after.orders
      && after.orders[o.id].filledQty == (if plan.Fill? then plan.qty else 0)
      && after.trades == if plan.Fill? then b.trades + [TradeAt(o, plan.qty, plan.price)] else b.trades
  {
    hide WorstCaseOutflow, MoneyOf, Reservations, PlanFill, AffordableQty, Applied;
    ReservedIsNonNegative(b, o.id);
    EarmarkedKeepsCoherent(c, b, o, price, snap);
    var b1 := Earmarked(c, b, o, price, snap);
    ReservedIsNonNegative(b1, o.id);
    var plan := PlanFill(c, Buy, o.kind, o.price, o.qty, snap);
    if plan.Fill? {
      FillIsHonest(c, Buy, o.kind, o.price, o.qty, snap);
      PlacementNeverShrinks(c, o.kind, price, o.price, o.qty, o.product, snap, Available(b));
      assert Budget(b1, o.id) == Available(b);
      AppliedShape(b1, o.id, plan.qty, plan.price);
      AppliedTrade(b1, o.id, plan.qty, plan.price);
    }
  }

  /** The ledger entry of an order that trades this quantity at this price. */
  function TradeAt(o: PaperOrder, qty: int, price: real): Trade {
    Trade(o.id, o.Key(), o.side, qty, qty * ToPaise(price), CostsPaise(o.side, qty, price, o.product))
  }

  lemma AppliedTrade(b: Book, id: OrderId, qty: int, price: real)
    requires Fillable(b, id, qty, price) && b.orders[id].id == id
    ensures Applied(b, id, qty, price).trades == b.trades + [TradeAt(b.orders[id], qty, price)]
  {
    hide CostsPaise, ToPaise, TakenCash, BoughtPosition, SoldPosition;
  }

  // ---------------------------------------------------------------- what a fill books

  /** A purchase pays its notional and charges out of cash into the basis of the line. */
  lemma BookedPurchase(b: Book, id: OrderId, qty: int, price: real)
    requires Coherent(b) && Fillable(b, id, qty, price) && b.orders[id].side == Buy
    ensures var o, after := b.orders[id], Applied(b, id, qty, price);
      var paid := qty * ToPaise(price) + CostsPaise(Buy, qty, price, o.product);
      var key := o.Key();
      && after.cash == b.cash - paid && key in after.positions
      && after.positions[key].quantity == Held(b, key) + qty
      && after.positions[key].costBasis == (if key in b.positions then b.positions[key].costBasis else 0) + paid
      && after.positions[key].realised == (if key in b.positions then b.positions[key].realised else 0)
  {
    hide CostsPaise, ToPaise, PositionKey, MoneyOf, Reservations, FilledOrder, TakenCash, Outflow;
  }

  /** A sale takes in its notional less charges, takes the nearest paisa to its share of the basis out of
      the line, and realises the difference. */
  lemma BookedSale(b: Book, id: OrderId, qty: int, price: real)
    requires Coherent(b) && Fillable(b, id, qty, price) && b.orders[id].side == Sell
    ensures var o, after := b.orders[id], Applied(b, id, qty, price);
      var net := qty * ToPaise(price) - CostsPaise(Sell, qty, price, o.product);
      var key := o.Key();
      && key in b.positions && key in after.positions && after.cash == b.cash + net
      && after.positions[key].quantity == b.positions[key].quantity - qty
      && var taken := b.positions[key].costBasis - after.positions[key].costBasis;
         && NearestShare(taken, b.positions[key].costBasis, qty, b.positions[key].quantity)
         && (after.positions[key].quantity == 0 ==> after.positions[key].costBasis == 0)
         && after.positions[key].realised == b.positions[key].realised + net - taken
  {
    hide CostsPaise, ToPaise, PositionKey, Reservations, FilledOrder, TakenCash, NearestShare, SoldPosition;
    var o := b.orders[id];
    var net := qty * ToPaise(price) - CostsPaise(Sell, qty, price, o.product);
    SaleTakesItsShare(b.positions[o.Key()], qty, net);
  }

  // ---------------------------------------------------------------- what becomes of an order

  /** Terminal with this reason, nothing held, nothing moved. */
  predicate RejectedFor(b: Book, after: Book, id: OrderId, reason: Reason) {
    && id in after.orders && after.orders[id].status == Rejected && after.orders[id].rejectReason == Some(reason)
    && after.cash == b.cash && after.reserved == b.reserved && after.trades == b.trades
    && after.positions == b.positions
  }

  /** Resting, with what it holds. */
  predicate RestsWith(b: Book, after: Book, id: OrderId, cash: int, shares: int) {
    && id in after.orders && after.orders[id].status == Open && after.orders[id].filledQty == 0
    && after.orders[id].reservedCash == cash && after.orders[id].reservedQty == shares
    && after.cash == b.cash && after.reserved == b.reserved + cash && after.trades == b.trades
    && after.positions == b.positions
  }

  /** One trade of this size and price, after which the order holds nothing. */
  predicate TradedAs(b: Book, after: Book, o: PaperOrder, qty: int, price: real) {
    && after.trades == b.trades + [TradeAt(o, qty, price)]
    && o.id in after.orders && after.orders[o.id].filledQty == o.filledQty + qty
    && after.orders[o.id].status == (if o.filledQty + qty >= o.qty then Complete else Partial)
    && after.orders[o.id].reservedCash == 0 && after.orders[o.id].reservedQty == 0
    && after.reserved == b.reserved
  }

  /** A purchase past the quote: refused for cash exactly when its worst case exceeds what is free, else
      refused, resting or traded as the planner says. */
  lemma BuyOutcome(c: Config, b: Book, o: PaperOrder, price: real, snap: Snapshot)
    requires Coherent(b) && c.Valid() && o.Fresh() && o.id !in b.orders && o.side == Buy && snap.Sane()
    requires o.kind in {MarketOrder, LimitOrder} ==> price == o.price
    ensures b.reserved >= 0
    ensures var worst := WorstCaseOutflow(c, o.qty, price, o.kind, o.product, snap);
      var after := Settled(c, b, o, price, snap);
      if worst > Available(b) then RejectedFor(b, after, o.id, InsufficientCash)
      else match PlanFill(c, Buy, o.kind, o.price, o.qty, snap)
           case Refuse(reason) => RejectedFor(b, after, o.id, reason)
           case Rest => RestsWith(b, after, o.id, worst, 0)
           case Fill(qty, at) => TradedAs(b, after, o, qty, at)
  {
    hide WorstCaseOutflow, MoneyOf, Reservations, PlanFill, AffordableQty, Applied, Finalised, TradedAs;
    ReservedIsNonNegative(b, o.id);
    var worst := WorstCaseOutflow(c, o.qty, price, o.kind, o.product, snap);
    if worst <= Available(b) {
      EarmarkedKeepsCoherent(c, b, o, price, snap);
      var b1 := Earmarked(c, b, o, price, snap);
      ReservedIsNonNegative(b1, o.id);
      var plan := PlanFill(c, Buy, o.kind, o.price, o.qty, snap);
      if plan.Fill? {
        FillIsHonest(c, Buy, o.kind, o.price, o.qty, snap);
        PlacementNeverShrinks(c, o.kind, price, o.price, o.qty, o.product, snap, Available(b));
        assert Budget(b1, o.id) == Available(b);
        AppliedShape(b1, o.id, plan.qty, plan.price);
        TradedAndSettled(b, b1, b1.orders[o.id], plan.qty, plan.price);
        SameTradedAs(b, Settled(c, b, o, price, snap), b1.orders[o.id], o, plan.qty, plan.price);
      } else {
        EarmarkedUntraded(c, b, o, price, snap);
      }
    }
  }

  lemma EarmarkedUntraded(c: Config, b: Book, o: PaperOrder, price: real, snap: Snapshot)
    requires o.Fresh() && o.id !in b.orders && Quotable(c, snap) && b.reserved >= 0
    ensures var b1 := Earmarked(c, b, o, price, snap);
      && o.id in b1.orders && b1.orders[o.id].filledQty == 0
      && var held := if o.side == Buy then WorstCaseOutflow(c, o.qty, price, o.kind, o.product, snap) else 0;
         && RestsWith(b, Finalised(b1, o.id), o.id, held, if o.side == Sell then o.qty else 0)
         && (forall reason ::
               RejectedFor(b, Refused(Released(b1, o.id), Released(b1, o.id).orders[o.id], reason), o.id, reason))
  {
    hide WorstCaseOutflow;
  }

  lemma TradedAndSettled(b: Book, b1: Book, o: PaperOrder, qty: int, price: real)
    requires o.id in b1.orders && b1.orders[o.id] == o && Fillable(b1, o.id, qty, price) && o.filledQty >= 0
    requires b1.trades == b.trades && b1.reserved == b.reserved + o.reservedCash
    ensures o.id in Applied(b1, o.id, qty, price).orders
    ensures TradedAs(b, Finalised(Applied(b1, o.id, qty, price), o.id), o, qty, price)
  {
    hide CostsPaise, ToPaise, BoughtPosition, SoldPosition;
  }

  /** What an order holds is no part of how it trades. */
  lemma SameTradedAs(b: Book, after: Book, o: PaperOrder, o': PaperOrder, qty: int, price: real)
    requires o' == o.(reservedCash := o'.reservedCash, reservedQty := o'.reservedQty)
    ensures TradedAs(b, after, o, qty, price) <==> TradedAs(b, after, o', qty, price)
  {
    hide CostsPaise, ToPaise, PositionKey;
  }

  /** A sale past the quote: refused, resting with its whole size held, or traded as the planner says, as
      far as shares are there; with none at all it is refused for holdings. */
  lemma SaleOutcome(c: Config, b: Book, o: PaperOrder, price: real, snap: Snapshot)
    requires Coherent(b) && c.Valid() && o.Fresh() && o.id !in b.orders && o.side == Sell && Quotable(c, snap)
    ensures b.reserved >= 0
    ensures var after := Settled(c, b, o, price, snap);
      match PlanFill(c, Sell, o.kind, o.price, o.qty, snap)
      case Refuse(reason) => RejectedFor(b, after, o.id, reason)
      case Rest => RestsWith(b, after, o.id, 0, o.qty)
      case Fill(qty, at) =>
        if Held(b, o.Key()) <= 0 then RejectedFor(b, after, o.id, InsufficientHoldings)
        else TradedAs(b, after, o, if qty <= Held(b, o.Key()) then qty else Held(b, o.Key()), at)
  {
    hide WorstCaseOutflow, MoneyOf, Reservations, PlanFill, Applied, Finalised, TradedAs, PositionKey;
    ReservedIsNonNegative(b, o.id);
    var b1 := Earmarked(c, b, o, price, snap);
    var plan := PlanFill(c, Sell, o.kind, o.price, o.qty, snap);
    FillHasSize(c, Sell, o.kind, o.price, o.qty, snap);
    if plan.Fill? && Held(b, o.Key()) > 0 {
      var qty := Min(plan.qty, Held(b, o.Key()));
      AppliedShape(b1, o.id, qty, plan.price);
      TradedAndSettled(b, b1, b1.orders[o.id], qty, plan.price);
      SameTradedAs(b, Settled(c, b, o, price, snap), b1.orders[o.id], o, qty, plan.price);
    } else {
      EarmarkedUntraded(c, b, o, price, snap);
    }
  }

  lemma FillHasSize(c: Config, side: Side, kind: OrderKind, price: real, remaining: int, snap: Snapshot)
    requires Quotable(c, snap)
    ensures var p := PlanFill(c, side, kind, price, remaining, snap); p.Fill? ==> p.qty >= 1
  {
    hide TowardsTrader, Impacted, MaxQtyWithinLimit, SnapLimit;
  }

  /** A poll books a fill. */
  predicate PollTrades(c: Config, b: Book, id: OrderId, snap: Snapshot)
    requires id in b.orders && Quotable(c, snap)
  {
    var o := b.orders[id];
    var plan := PlanFill(c, o.side, o.kind, o.price, o.qty - o.filledQty, snap);
    plan.Fill? && if o.side == Buy then AffordableQty(Budget(b, id), plan.qty, plan.price, o.product) > 0
                  else Held(b, o.Key()) > 0
  }

  /** How much it trades: of what is planned, what cash or shares allow. */
  function PolledSize(c: Config, b: Book, id: OrderId, snap: Snapshot): int
    requires id in b.orders && Quotable(c, snap) && PollTrades(c, b, id, snap)
  {
    var o := b.orders[id];
    var plan := PlanFill(c, o.side, o.kind, o.price, o.qty - o.filledQty, snap);
    if o.side == Buy then AffordableQty(Budget(b, id), plan.qty, plan.price, o.product)
    else if plan.qty <= Held(b, o.Key()) then plan.qty else Held(b, o.Key())
  }

  /** A poll leaves the whole book alone, or trades that much of the order once at the planned price. */
  lemma PollOutcome(c: Config, b: Book, id: OrderId, snap: Snapshot)
    requires Coherent(b) && id in b.orders && Quotable(c, snap)
    ensures b.orders[id].reservedCash <= b.reserved
    ensures var o, after := b.orders[id], Polled(c, b, id, snap);
      if !PollTrades(c, b, id, snap) then after == b
      else
        var plan := PlanFill(c, o.side, o.kind, o.price, o.qty - o.filledQty, snap);
        TradedAs(b.(reserved := b.reserved - o.reservedCash), after, o, PolledSize(c, b, id, snap), plan.price)
  {
    hide MoneyOf, PlanFill, AffordableQty, Outflow, Applied, Finalised, TradedAs;
    ReservedIsNonNegative(b, id);
    var o := b.orders[id];
    var plan := PlanFill(c, o.side, o.kind, o.price, o.qty - o.filledQty, snap);
    FillHasSize(c, o.side, o.kind, o.price, o.qty - o.filledQty, snap);
    if PollTrades(c, b, id, snap) {
      var qty := PolledSize(c, b, id, snap);
      AppliedShape(b, id, qty, plan.price);
      TradedAndSettled(b.(reserved := b.reserved - o.reservedCash), b, o, qty, plan.price);
    }
  }

  lemma PolledLeavesOthers(c: Config, b: Book, id: OrderId, snap: Snapshot, other: OrderId)
    requires Coherent(b) && id in b.orders && Quotable(c, snap) && other in b.orders && other != id
    ensures b.orders[id].reservedCash <= b.reserved
    ensures var r := Polled(c, b, id, snap); other in r.orders && r.orders[other] == b.orders[other]
  {
    hide MoneyOf, Executed, Finalised;
    ExecutedKeepsCoherent(c, b, id, snap);
    ExecutedLeavesOthers(c, b, id, snap, other);
    var a := Executed(c, b, id, snap);
    ReservedIsNonNegative(a.book, id);
    FinalisedShape(a.book, id);
  }

  lemma ExecutedLeavesOthers(c: Config, b: Book, id: OrderId, snap: Snapshot, other: OrderId)
    requires id in b.orders && b.orders[id].id == id && b.orders[id].reservedCash <= b.reserved && Quotable(c, snap)
    requires other in b.orders && other != id
    ensures var r := Executed(c, b, id, snap).book; other in r.orders && r.orders[other] == b.orders[other]
  {
    hide PlanFill, AffordableQty, Applied;
    var o := b.orders[id];
    var plan := PlanFill(c, o.side, o.kind, o.price, o.qty - o.filledQty, snap);
    if plan.Fill? && plan.qty > 0 {
      var qty := if o.side == Buy then AffordableQty(Budget(b, id), plan.qty, plan.price, o.product)
                 else Min(plan.qty, Held(b, o.Key()));
      if qty > 0 {
        AppliedLeavesOthers(b, id, qty, plan.price, other);
      }
    }
  }

  lemma AppliedLeavesOthers(b: Book, id: OrderId, qty: int, price: real, other: OrderId)
    requires Fillable(b, id, qty, price) && b.orders[id].id == id && other in b.orders && other != id
    ensures var r := Applied(b, id, qty, price); other in r.orders && r.orders[other] == b.orders[other]
  {
    hide CostsPaise, ToPaise, BoughtPosition, SoldPosition, TakenCash;
  }

  /** What the checks before the quote let pass, and the first that fails. */
  lemma PrecheckMeans(b: Book, o: PaperOrder, degraded: bool, gate: bool)
    ensures var r := Precheck(b, o, degraded, gate);
      var wellFormed := o.qty > 0 && (o.kind != MarketOrder ==> o.price > 0.0);
      && (r.None? <==> !degraded && wellFormed && !gate && (o.side == Sell ==> o.qty <= FreeQty(b, o.Key())))
      && (r == Some(PersistenceDegraded) <==> degraded)
      && (r == Some(InvalidQuantity) <==> !degraded && o.qty <= 0)
      && (r == Some(InvalidPrice) <==> !degraded && o.qty > 0 && o.kind != MarketOrder && o.price <= 0.0)
      && (r == Some(SessionGate) <==> !degraded && wellFormed && gate)
      && (r == Some(ShortSellNotSupported) ==> FreeQty(b, o.Key()) <= 0)
      && (r == Some(InsufficientHoldings) ==> 0 < FreeQty(b, o.Key()) < o.qty)
  {
    hide FreeQty;
  }

  /** No usable quote, no placement. */
  lemma NoQuoteOutcome(c: Config, b: Book, o: PaperOrder, price: real, q: QuoteOutcome)
    requires Coherent(b) && o.Fresh() && o.id !in b.orders && (q.Quoted? ==> Quotable(c, q.snap))
    ensures b.reserved >= 0
    ensures var after := PlacedAfterQuote(c, b, o, price, q);
      && (q.Unquoted? ==> RejectedFor(b, after, o.id, NoPrice))
      && (q.Stale? ==> RejectedFor(b, after, o.id, StalePrice))
      && (q.Quoted? && q.snap.volume <= 0 ==> RejectedFor(b, after, o.id, NoLiquidityData))
  {
    hide MoneyOf, Settled;
    ReservedIsNonNegative(b, o.id);
  }

  /** What a modification of an OPEN order writes: the new quantity even when it is then refused, the new
      price only when nothing is. */
  lemma ModifiedMeans(b: Book, id: OrderId, qty: Option<int>, price: Option<real>)
    requires id in b.orders && b.orders[id].status == Open && b.orders[id].id == id
    ensures var o, after := b.orders[id], Modified(b, id, qty, price);
      var sized := qty.Some? && qty.value > o.filledQty;
      && after == b.(orders := b.orders[id := after.orders[id]])
      && after.orders[id] == o.(qty := after.orders[id].qty, price := after.orders[id].price,
                                reservedQty := after.orders[id].reservedQty)
      && after.orders[id].qty == (if sized then qty.value else o.qty)
      && after.orders[id].price == (if (qty.None? || sized) && !RefusedForHoldings(b, id, qty)
                                       && price.Some? && price.value > 0.0 then price.value else o.price)
      && after.orders[id].reservedQty == (if sized && !RefusedForHoldings(b, id, qty) && o.reservedQty != 0
                                          then qty.value - o.filledQty else o.reservedQty)
  {
    hide FreeQty;
  }

  // ---------------------------------------------------------------- an uncovered sale

  function RupeeOrder(id: OrderId, side: Side): PaperOrder {
    PaperOrder(id, "INFY", "NSE", side, 1, 0.0, MarketOrder, CNC, Open, 0, 0, 0, None)
  }

  /** The market at one rupee, as a quote without bid and ask yields it on a tick of five paise. */
  const RUPEE_QUOTE := Quote(1.0, 1000, 0.0, 0.0)
  const RUPEE_SNAP := Snapshot(1.0, 0.95, 1.05, 1000)

  /** Some usable quote yields this snapshot. */
  ghost predicate FromQuote(c: Config, snap: Snapshot) {
    c.tick > 0.0 && exists q: Quote :: q.last > 0.0 && snap == TakeSnapshot(q, c.tick)
  }

  /** All that an action sees of the market comes from quotes. */
  ghost predicate SeenInQuotes(c: Config, a: Action) {
    match a
    case Place(_, _, _, quote) => quote.Quoted? ==> FromQuote(c, quote.snap)
    case Poll(_, snap) => FromQuote(c, snap)
    case _ => true
  }

  lemma RupeeQuoted(c: Config)
    requires c.tick == 0.05
    ensures TakeSnapshot(RUPEE_QUOTE, 0.05) == RUPEE_SNAP && FromQuote(c, RUPEE_SNAP)
    ensures FloorTick(0.95, 0.05) == 0.95 && CeilTick(1.05, 0.05) == 1.05
  {
    assert HalfSpread(RUPEE_QUOTE, 0.05) == 0.025;
    OnGrid(0.975, 0.05, 19);
    OnGrid(1.025, 0.05, 20);
    OnGrid(0.95, 0.05, 19);
    OnGrid(1.05, 0.05, 21);
    RoundHalfEvenWhole(95);
    RoundHalfEvenWhole(105);
  }

  /** Where a price stands on the grid. */
  lemma OnGrid(price: real, tick: real, n: int)
    requires tick > 0.0 && n as real <= Ticks(price, tick) < n as real + 1.0
    ensures FloorTick(price, tick) == Grid(n, tick)
    ensures CeilTick(price, tick) == Grid(if Ticks(price, tick) == n as real then n else n + 1, tick)
  {
    hide Ticks, Grid;
    var t := Ticks(price, tick);
    assert t.Floor == n;
    assert Ceil(t) == if t == n as real then n else n + 1;
  }

  lemma RupeePlan(c: Config, side: Side)
    requires c.slippage == 0.0 && c.impactCoef == 0.0 && c.maxParticipation == 1.0 && c.tick == 0.05
    ensures PlanFill(c, side, MarketOrder, 0.0, 1, RUPEE_SNAP) == Fill(1, if side == Buy then 1.05 else 0.95)
    ensures WorstCaseOutflow(c, 1, 0.0, MarketOrder, CNC, RUPEE_SNAP) == 105
  {
    RupeeQuoted(c);
    hide FloorTick, CeilTick;
    assert ImpactFrac(c, 1, 1000) == 0.0;
    assert CostsPaise(Buy, 1, 1.05, CNC) == 0;
  }

  /** The side condition is real: buying one delivery share at 1.05 for the whole balance and selling
      it at 0.95, both at the same quote, leaves the account 14.98 rupees overdrawn. */
  lemma DeliverySaleCanOverdraw(c: Config)
    requires c.Valid() && c.slippage == 0.0 && c.impactCoef == 0.0 && c.maxParticipation == 1.0 && c.tick == 0.05
    ensures var buy := Place(RupeeOrder(1, Buy), 0.0, None, Quoted(RUPEE_SNAP));
            var sell := Place(RupeeOrder(2, Sell), 0.0, None, Quoted(RUPEE_SNAP));
            var r := Run(c, 105, [buy, sell]);
      r.Some? && r.value.cash == -1498 && SeenInQuotes(c, buy) && SeenInQuotes(c, sell)
  {
    hide Settled, Coherent, Run, FromQuote;
    var buy := Place(RupeeOrder(1, Buy), 0.0, None, Quoted(RUPEE_SNAP));
    var sell := Place(RupeeOrder(2, Sell), 0.0, None, Quoted(RUPEE_SNAP));
    RupeeQuoted(c);
    RupeeBuy(c);
    var b1 := Settled(c, Opened(105), RupeeOrder(1, Buy), 0.0, RUPEE_SNAP);
    RunOne(c, 105, buy);
    RunTwo(c, 105, buy, sell);
    RupeeSell(c, b1);
  }

  lemma RunOne(c: Config, initial: int, a: Action)
    requires c.Valid() && Possible(c, Opened(initial), a)
    ensures Coherent(Opened(initial)) && Run(c, initial, [a]) == Some(Step(c, Opened(initial), a))
  {
    hide Step, Possible;
    OpenedIsCoherent(initial);
    assert [a][..0] == [];
    assert Run(c, initial, []) == Some(Opened(initial));
  }

  lemma RunTwo(c: Config, initial: int, a1: Action, a2: Action)
    requires c.Valid() && Run(c, initial, [a1]).Some? && Possible(c, Run(c, initial, [a1]).value, a2)
    ensures Run(c, initial, [a1, a2]) == Some(Step(c, Run(c, initial, [a1]).value, a2))
  {
    hide Step, Possible;
    assert [a1, a2][..1] == [a1];
  }

  lemma RupeeSell(c: Config, b: Book)
    requires c.Valid() && c.slippage == 0.0 && c.impactCoef == 0.0 && c.maxParticipation == 1.0 && c.tick == 0.05
    requires b.cash == 0 && b.reserved == 0 && 2 !in b.orders && Held(b, RupeeOrder(2, Sell).Key()) == 1
    ensures Settled(c, b, RupeeOrder(2, Sell), 0.0, RUPEE_SNAP).cash == -1498
  {
    hide PlanFill, WorstCaseOutflow, BasisOut;
    RupeePlan(c, Sell);
    assert CostsPaise(Sell, 1, 0.95, CNC) == 1593;
  }

  lemma RupeeBuy(c: Config)
    requires c.Valid() && c.slippage == 0.0 && c.impactCoef == 0.0 && c.maxParticipation == 1.0 && c.tick == 0.05
    ensures var b1 := Settled(c, Opened(105), RupeeOrder(1, Buy), 0.0, RUPEE_SNAP);
      b1.cash == 0 && b1.reserved == 0 && 2 !in b1.orders && Held(b1, RupeeOrder(2, Sell).Key()) == 1
  {
    hide PlanFill, WorstCaseOutflow;
    RupeePlan(c, Buy);
    assert CostsPaise(Buy, 1, 1.05, CNC) == 0;
    assert Outflow(1, 1.05, CNC) == 105;
    assert AffordableQty(105, 1, 1.05, CNC) == 1;
  }
}
