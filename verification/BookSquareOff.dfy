/** Whole calls on the book: a complete placement, a complete poll, and the intraday square-off. */
module BookSquareOff {
  import opened Market
  import opened Rounding
  import opened Costs
  import opened FillPlan
  import opened Sums
  import opened Book
  import opened BookMoney
  import opened BookRuns
  import opened BookHoldings

  /** Everything a placement reads from outside the book. */
  datatype Outside = Outside(degraded: bool, gate: bool, quote: QuoteOutcome)

  predicate Readable(c: Config, x: Outside) { x.quote.Quoted? ==> Quotable(c, x.quote.snap) }

  /** An order as `place_order` constructs it. */
  predicate NewOrder(o: PaperOrder) {
    && o.status == Open && o.filledQty == 0 && o.reservedCash == 0 && o.reservedQty == 0 && o.rejectReason.None?
  }

  ghost function AsAction(b: Book, o: PaperOrder, price: real, x: Outside): Action {
    Place(o, price, Precheck(b, o, x.degraded, x.gate), x.quote)
  }

  predicate Placeable(c: Config, b: Book, o: PaperOrder, price: real, x: Outside) {
    && NewOrder(o) && o.id !in b.orders && Readable(c, x)
    && (o.kind == LimitOrder ==> price == o.price)
  }

  /** A placement with nothing running in between: checks and settlement on the same book. */
  ghost function Placed(c: Config, b: Book, o: PaperOrder, price: real, x: Outside): (r: Book)
    requires Coherent(b) && c.Valid() && Placeable(c, b, o, price, x)
    ensures Coherent(r) && r.initial == b.initial
    ensures Holdings(b) ==> Holdings(r)
  {
    var a := AsAction(b, o, price, x);
    assert InOrder(b, a);
    StepKeepsCoherent(c, b, a);
    assert Holdings(b) ==> Holdings(Step(c, b, a)) by {
      if Holdings(b) { StepKeepsHoldings(c, b, a); }
    }
    Step(c, b, a)
  }

  /** What a whole placement comes to: the first check that fails, else what is wrong with the quote, and
      both move nothing; else the settlement of `BuyOutcome` and `SaleOutcome`. */
  lemma PlacementOutcome(c: Config, b: Book, o: PaperOrder, price: real, x: Outside)
    requires Coherent(b) && c.Valid() && Placeable(c, b, o, price, x)
    ensures var early, r := Precheck(b, o, x.degraded, x.gate), Placed(c, b, o, price, x);
      if early.Some? then RejectedFor(b, r, o.id, early.value)
      else match x.quote
           case Unquoted => RejectedFor(b, r, o.id, NoPrice)
           case Stale => RejectedFor(b, r, o.id, StalePrice)
           case Quoted(snap) =>
             if snap.volume <= 0 then RejectedFor(b, r, o.id, NoLiquidityData)
             else o.Fresh() && b.reserved >= 0 && r == Settled(c, b, o, price, snap)
  {
    hide MoneyOf, Settled, FreeQty;
    if Precheck(b, o, x.degraded, x.gate).None? {
      NoQuoteOutcome(c, b, o, price, x.quote);
    }
  }

  // ---------------------------------------------------------------- poll

  ghost function PolledIfOpen(c: Config, b: Book, id: OrderId, q: Option<Snapshot>): (r: Book)
    requires Coherent(b) && c.Valid() && (q.Some? ==> Quotable(c, q.value))
    ensures Coherent(r) && r.initial == b.initial && (Holdings(b) ==> Holdings(r))
    ensures r.orders.Keys == b.orders.Keys && r.ids == b.ids
  {
    if id !in b.orders || b.orders[id].status != Open || q.None? then b
    else
      PolledKeepsCoherent(c, b, id, q.value);
      PolledKeepsIds(c, b, id, q.value);
      assert Holdings(b) ==> Holdings(Polled(c, b, id, q.value)) by {
        if Holdings(b) { PolledKeepsHoldings(c, b, id, q.value); }
      }
      Polled(c, b, id, q.value)
  }

  lemma PolledKeepsIds(c: Config, b: Book, id: OrderId, snap: Snapshot)
    requires Coherent(b) && id in b.orders && Quotable(c, snap)
    ensures b.orders[id].reservedCash <= b.reserved
    ensures Polled(c, b, id, snap).orders.Keys == b.orders.Keys && Polled(c, b, id, snap).ids == b.ids
  {
    hide MoneyOf, Executed, Finalised;
    ExecutedKeepsCoherent(c, b, id, snap);
    var a := Executed(c, b, id, snap);
    ReservedIsNonNegative(a.book, id);
    FinalisedShape(a.book, id);
  }

  ghost predicate QuotesReadable(c: Config, quotes: OrderId -> Option<Snapshot>) {
    forall id :: quotes(id).Some? ==> Quotable(c, quotes(id).value)
  }

  /** A poll of the listed orders in turn. */
  ghost function PolledAll(c: Config, b: Book, ids: seq<OrderId>, quotes: OrderId -> Option<Snapshot>): (r: Book)
    requires Coherent(b) && c.Valid() && QuotesReadable(c, quotes)
    ensures Coherent(r) && r.initial == b.initial && (Holdings(b) ==> Holdings(r))
    ensures r.orders.Keys == b.orders.Keys && r.ids == b.ids
  {
    if ids == [] then b
    else
      var n := |ids| - 1;
      PolledIfOpen(c, PolledAll(c, b, ids[..n], quotes), ids[n], quotes(ids[n]))
  }

  lemma OnePoll(c: Config, b: Book, id: OrderId, q: Option<Snapshot>)
    requires Coherent(b) && c.Valid() && id in b.orders && (q.Some? ==> Quotable(c, q.value))
    ensures var r := PolledIfOpen(c, b, id, q);
      && id in r.orders
      && if b.orders[id].status == Open && q.Some? && PollTrades(c, b, id, q.value)
         then r.orders[id].filledQty == b.orders[id].filledQty + PolledSize(c, b, id, q.value)
              && r.orders[id].status in {Complete, Partial}
         else r == b
  {
    hide MoneyOf, Polled, PollTrades, PolledSize, TradeAt, Holdings;
    if b.orders[id].status == Open && q.Some? {
      PollOutcome(c, b, id, q.value);
    }
  }

  predicate EachOnce(ids: seq<OrderId>) { forall i, j :: 0 <= i < j < |ids| ==> ids[i] != ids[j] }

  lemma {:induction false} PollLeavesUnlisted(c: Config, b: Book, ids: seq<OrderId>,
                                              quotes: OrderId -> Option<Snapshot>, other: OrderId)
    requires Coherent(b) && c.Valid() && QuotesReadable(c, quotes) && other in b.orders && other !in ids
    ensures PolledAll(c, b, ids, quotes).orders[other] == b.orders[other]
  {
    hide Polled, Coherent, Holdings;
    if ids != [] {
      var n := |ids| - 1;
      var before := PolledAll(c, b, ids[..n], quotes);
      PollLeavesUnlisted(c, b, ids[..n], quotes, other);
      TurnLeavesOthers(c, before, ids[n], quotes(ids[n]), other);
    }
  }

  /** Each OPEN order with a quote gets its turn: it trades exactly when it can on the book the orders
      before it left, and as much as it can then; the other turns leave it alone. */
  lemma {:induction false} PolledInTurn(c: Config, b: Book, ids: seq<OrderId>,
                                        quotes: OrderId -> Option<Snapshot>, i: nat)
    requires Coherent(b) && c.Valid() && QuotesReadable(c, quotes) && EachOnce(ids)
    requires i < |ids| && ids[i] in b.orders
    ensures var before, after := PolledAll(c, b, ids[..i], quotes), PolledAll(c, b, ids, quotes);
      var id, q := ids[i], quotes(ids[i]);
      && before.orders[id] == b.orders[id]
      && if b.orders[id].status == Open && q.Some? && PollTrades(c, before, id, q.value)
         then after.orders[id].filledQty == b.orders[id].filledQty + PolledSize(c, before, id, q.value)
              && after.orders[id].status in {Complete, Partial}
         else after.orders[id] == b.orders[id]
  {
    hide Polled, Coherent, Holdings, PollTrades, PolledSize, Quotable, PolledIfOpen;
    var n, id := |ids| - 1, ids[i];
    assert id !in ids[..i];
    PollLeavesUnlisted(c, b, ids[..i], quotes, id);
    var last := PolledAll(c, b, ids[..n], quotes);
    assert PolledAll(c, b, ids, quotes) == PolledIfOpen(c, last, ids[n], quotes(ids[n]));
    if i < n {
      assert ids[..n][..i] == ids[..i];
      PolledInTurn(c, b, ids[..n], quotes, i);
      TurnLeavesOthers(c, last, ids[n], quotes(ids[n]), id);
    } else {
      OnePoll(c, last, id, quotes(id));
    }
  }

  lemma TurnLeavesOthers(c: Config, b: Book, id: OrderId, q: Option<Snapshot>, other: OrderId)
    requires Coherent(b) && c.Valid() && (q.Some? ==> Quotable(c, q.value)) && other in b.orders && other != id
    ensures PolledIfOpen(c, b, id, q).orders[other] == b.orders[other]
  {
    hide Polled, Coherent, Holdings;
    if id in b.orders && q.Some? {
      PolledLeavesOthers(c, b, id, q.value, other);
    }
  }

  // ---------------------------------------------------------------- square-off

  /** What cancelling the listed orders that are OPEN and carry this very spelling amounts to. */
  ghost predicate CancelledLike(orders: map<OrderId, PaperOrder>, after: map<OrderId, PaperOrder>, symbol: string,
                                ids: seq<OrderId>) {
    && after.Keys == orders.Keys
    && forall id :: id in orders ==>
         if id in ids && orders[id].status == Open && orders[id].symbol == symbol
         then after[id].status == Cancelled && after[id].reservedQty == 0
              && after[id].rejectReason == orders[id].rejectReason && after[id].symbol == orders[id].symbol
         else after[id] == orders[id]
  }

  /** Cancel the listed orders that are OPEN and carry this very spelling of the symbol. */
  ghost function CancelledFor(b: Book, symbol: string, ids: seq<OrderId>): (r: Book)
    requires Coherent(b)
    ensures Coherent(r) && (Holdings(b) ==> Holdings(r))
    ensures r.positions == b.positions && r.trades == b.trades && r.initial == b.initial
    ensures r.ids == b.ids && r.keys == b.keys
    ensures CancelledLike(b.orders, r.orders, symbol, ids)
  {
    if ids == [] then b
    else
      var n := |ids| - 1;
      var r := CancelledFor(b, symbol, ids[..n]);
      CancelledMore(b, r, symbol, ids);
      if ids[n] in r.orders && r.orders[ids[n]].symbol == symbol then CancelledOrder(r, ids[n])
      else r
  }

  lemma CancelledShape(b: Book, id: OrderId)
    requires Coherent(b)
    ensures var b' := CancelledOrder(b, id);
      && b' == b.(orders := b'.orders, reserved := b'.reserved)
      && b'.orders.Keys == b.orders.Keys
      && (forall i :: i in b.orders && i != id ==> b'.orders[i] == b.orders[i])
      && (id in b.orders ==>
            if b.orders[id].status == Open then
              b'.orders[id].status == Cancelled && b'.orders[id].reservedQty == 0
              && b'.orders[id].rejectReason == b.orders[id].rejectReason
              && b'.orders[id].symbol == b.orders[id].symbol
            else b'.orders[id] == b.orders[id])
  {
    hide MoneyOf, Sum, CashHeld;
  }

  lemma CancelledMore(b: Book, r: Book, symbol: string, ids: seq<OrderId>)
    requires ids != [] && Coherent(r) && CancelledLike(b.orders, r.orders, symbol, ids[..|ids| - 1])
    ensures var id := ids[|ids| - 1];
            var r' := if id in r.orders && r.orders[id].symbol == symbol then CancelledOrder(r, id) else r;
      && Coherent(r') && (Holdings(r) ==> Holdings(r'))
      && r'.positions == r.positions && r'.trades == r.trades && r'.initial == r.initial
      && r'.ids == r.ids && r'.keys == r.keys
      && CancelledLike(b.orders, r'.orders, symbol, ids)
  {
    hide MoneyOf, SharesCovered, OrdersTidy, Reservations, CancelledOrder;
    var id := ids[|ids| - 1];
    CancelledShape(r, id);
    assert forall i :: i in ids <==> i in ids[..|ids| - 1] || i == id;
    CancelledKeepsCoherent(r, id);
    if Holdings(r) {
      CancelledKeepsHoldings(r, id);
    }
  }

  function ClosingOrder(id: OrderId, p: Position): PaperOrder {
    PaperOrder(id, p.symbol, p.exchange, Sell, p.quantity, 0.0, MarketOrder, p.product, Open, 0, 0, 0, None)
  }

  /** Orders holding shares of this line spell its symbol as the position does. */
  ghost predicate SpelledAlike(b: Book, key: Key)
    requires key in b.positions
  {
    forall id :: id in b.orders && SharesOn(b.orders[id], key) > 0 ==> b.orders[id].symbol == b.positions[key].symbol
  }

  /** After the cancellations, the whole holding is free exactly when every order that held shares of
      it spelled the symbol as the position does: lines are keyed upper-case, cancellations are not. */
  lemma SquareOffIsFree(b: Book, key: Key)
    requires Coherent(b) && key in b.positions
    ensures var b' := CancelledFor(b, b.positions[key].symbol, b.ids);
      b.positions[key].quantity <= FreeQty(b', key) <==> SpelledAlike(b, key)
  {
    hide MoneyOf;
    var p := b.positions[key];
    var b' := CancelledFor(b, p.symbol, b.ids);
    var shares := SharesHeld(b'.orders, key);
    LineSharesNonNegative(b', key);
    if SpelledAlike(b, key) {
      SumZero(shares);
    } else {
      var id :| id in b.orders && SharesOn(b.orders[id], key) > 0 && b.orders[id].symbol != p.symbol;
      SumAtLeast(shares, id);
    }
  }

  lemma LineSharesNonNegative(b: Book, key: Key)
    requires Reservations(b)
    ensures forall id :: id in b.orders ==> SharesHeld(b.orders, key)[id] >= 0
  {
  }

  ghost predicate Due(b: Book, key: Key) {
    key in b.positions && Intraday(b.positions[key].product) && b.positions[key].quantity > 0
  }

  /** One round of the square-off. */
  ghost function SquaredOne(c: Config, b: Book, key: Key, id: OrderId, x: Outside): (r: Book)
    requires Coherent(b) && c.Valid() && id !in b.orders && Readable(c, x)
    ensures Coherent(r) && (Holdings(b) ==> Holdings(r)) && r.initial == b.initial
  {
    if !Due(b, key) then b
    else
      var p := b.positions[key];
      Placed(c, CancelledFor(b, p.symbol, b.ids), ClosingOrder(id, p), 0.0, x)
  }

  /** The square-off sale is refused for want of shares only when an order holding shares of the line
      spelled the symbol differently; then it always is, unless something else refused it first. */
  lemma SquareOffNeverShort(c: Config, b: Book, key: Key, id: OrderId, x: Outside)
    requires Holdings(b) && c.Valid() && id !in b.orders && Readable(c, x) && Due(b, key)
    requires !x.degraded && !x.gate
    ensures var r := SquaredOne(c, b, key, id, x);
      && id in r.orders
      && (r.orders[id].rejectReason in {Some(InsufficientHoldings), Some(ShortSellNotSupported)}
          <==> !SpelledAlike(b, key))
  {
    hide MoneyOf, SharesCovered, OrdersTidy, Reservations, Placed;
    PositionAtKey(b, key);
    var p := b.positions[key];
    SquareOffIsFree(b, key);
    SaleVerdict(c, CancelledFor(b, p.symbol, b.ids), ClosingOrder(id, p), 0.0, x);
  }

  /** Past the session gates, a sale is refused for want of shares exactly when it exceeds the free
      holding at the moment of the call. */
  lemma SaleVerdict(c: Config, b: Book, o: PaperOrder, price: real, x: Outside)
    requires Holdings(b) && c.Valid() && Placeable(c, b, o, price, x) && !x.degraded && !x.gate
    requires o.side == Sell && o.qty > 0 && (o.kind != MarketOrder ==> o.price > 0.0)
    ensures var r := Placed(c, b, o, price, x);
      && o.id in r.orders
      && (r.orders[o.id].rejectReason in {Some(InsufficientHoldings), Some(ShortSellNotSupported)}
          <==> o.qty > FreeQty(b, o.Key()))
  {
    hide MoneyOf, SharesCovered, OrdersTidy, Reservations, Settled, FreeQty;
    if o.qty <= FreeQty(b, o.Key()) && x.quote.Quoted? && x.quote.snap.volume > 0 {
      SettledNotRefusedForHoldings(c, b, o, price, x.quote.snap);
    }
  }

  lemma PositionAtKey(b: Book, key: Key)
    requires Coherent(b) && key in b.positions
    ensures b.positions[key].Key() == key
  {
  }

  // ---------------------------------------------------------------- the whole square-off

  /** A placement touches its own order and its own line, and lists no new line. */
  predicate Touches(b: Book, r: Book, o: PaperOrder) {
    && o.id in r.orders && r.orders.Keys == b.orders.Keys + {o.id}
    && (forall i :: i in b.orders && i != o.id ==> r.orders[i] == b.orders[i])
    && r.orders[o.id].Key() == o.Key()
    && r.keys == b.keys
    && OtherLinesSame(b.positions, r.positions, o.Key())
  }

  predicate OtherLinesSame(was: map<Key, Position>, now: map<Key, Position>, key: Key) {
    && (forall k :: k in was && k != key ==> k in now && now[k] == was[k])
    && (forall k :: k in now && k != key ==> k in was)
  }

  lemma SoldTouches(b: Book, id: OrderId, qty: int, price: real)
    requires Fillable(b, id, qty, price) && b.orders[id].id == id && b.orders[id].side == Sell
    ensures id in Applied(b, id, qty, price).orders
    ensures Touches(b, Finalised(Applied(b, id, qty, price), id), b.orders[id])
  {
    hide CostsPaise, ToPaise, PositionKey, SoldPosition;
  }

  lemma SettledTouches(c: Config, b: Book, o: PaperOrder, price: real, snap: Snapshot)
    requires o.Fresh() && o.side == Sell && o.id !in b.orders && Quotable(c, snap) && b.reserved >= 0
    ensures Touches(b, Settled(c, b, o, price, snap), o)
  {
    hide PlanFill, WorstCaseOutflow, Applied, Finalised, PositionKey;
    PlanWithinOrder(c, Sell, o.kind, o.price, o.qty, snap);
    var b1 := Earmarked(c, b, o, price, snap);
    var plan := PlanFill(c, Sell, o.kind, o.price, o.qty, snap);
    if plan.Fill? && Held(b, o.Key()) > 0 {
      AppliedShape(b1, o.id, Min(plan.qty, Held(b, o.Key())), plan.price);
      SoldTouches(b1, o.id, Min(plan.qty, Held(b, o.Key())), plan.price);
    } else if plan.Rest? {
      UnfilledTouches(b1, o.id);
    }
  }

  lemma UnfilledTouches(b: Book, id: OrderId)
    requires id in b.orders && b.orders[id].id == id && b.orders[id].filledQty == 0
    ensures Touches(b, Finalised(b, id), b.orders[id])
  {
  }

  lemma PlacedTouches(c: Config, b: Book, o: PaperOrder, price: real, x: Outside)
    requires Coherent(b) && c.Valid() && Placeable(c, b, o, price, x) && o.side == Sell
    ensures Touches(b, Placed(c, b, o, price, x), o)
  {
    hide MoneyOf, Reservations, Settled, PositionKey, FreeQty;
    ReservedIsNonNegative(b, o.id) by { CoherentReserves(b); }
    if Precheck(b, o, x.degraded, x.gate).None? && x.quote.Quoted? && x.quote.snap.volume > 0 {
      SettledTouches(c, b, o, price, x.quote.snap);
    }
  }

  lemma CoherentReserves(b: Book)
    requires Coherent(b)
    ensures Reservations(b)
  {
  }

  /** The cancellations of a round on this line reach this order. */
  ghost predicate Reaches(b: Book, key: Key, symbol: string) { Due(b, key) && b.positions[key].symbol == symbol }

  /** One round leaves every other line alone, but for the orders it cancels by their spelling. */
  lemma RoundKeepsOthers(c: Config, b: Book, key: Key, id: OrderId, x: Outside, other: Key)
    requires Coherent(b) && c.Valid() && id !in b.orders && Readable(c, x) && other != key
    ensures var r := SquaredOne(c, b, key, id, x);
      && (other in r.positions <==> other in b.positions)
      && (other in b.positions ==> r.positions[other] == b.positions[other])
    ensures var r := SquaredOne(c, b, key, id, x);
      && (forall i :: i in b.orders ==>
            && i in r.orders && r.orders[i].symbol == b.orders[i].symbol
            && SharesOn(r.orders[i], other)
               == if Reaches(b, key, b.orders[i].symbol) then 0 else SharesOn(b.orders[i], other))
      && (forall i :: i in r.orders && i !in b.orders ==> SharesOn(r.orders[i], other) == 0)
  {
    hide MoneyOf, Reservations, Placed, CancelledFor, PositionKey;
    if Due(b, key) {
      var p := b.positions[key];
      var cancelled := CancelledFor(b, p.symbol, b.ids);
      PositionAtKey(b, key);
      PlacedTouches(c, cancelled, ClosingOrder(id, p), 0.0, x);
      BookListsOrders(b);
    }
  }

  lemma BookListsOrders(b: Book)
    requires Coherent(b)
    ensures forall id :: id in b.orders <==> id in b.ids
    ensures forall id, key :: id in b.orders && b.orders[id].status != Open ==> SharesOn(b.orders[id], key) == 0
  {
  }

  lemma RoundKeepsVerdicts(c: Config, b: Book, key: Key, id: OrderId, x: Outside)
    requires Coherent(b) && c.Valid() && id !in b.orders && Readable(c, x)
    ensures var r := SquaredOne(c, b, key, id, x);
      && r.orders.Keys == b.orders.Keys + (if Due(b, key) then {id} else {})
      && (forall i :: i in b.orders ==> r.orders[i].rejectReason == b.orders[i].rejectReason)
      && r.keys == b.keys
  {
    hide MoneyOf, Reservations, Placed, CancelledFor, PositionKey;
    if Due(b, key) {
      var p := b.positions[key];
      PlacedTouches(c, CancelledFor(b, p.symbol, b.ids), ClosingOrder(id, p), 0.0, x);
    }
  }

  /** Ids the placements will draw: new, and each once. */
  predicate NewIds(b: Book, ids: seq<OrderId>) {
    && (forall i :: 0 <= i < |ids| ==> ids[i] !in b.orders)
    && (forall i, j :: 0 <= i < j < |ids| ==> ids[i] != ids[j])
  }

  ghost predicate AllReadable(c: Config, outside: Key -> Outside) { forall key :: Readable(c, outside(key)) }

  /** Round after round over the listed lines. */
  ghost function SquaredAll(c: Config, b: Book, keys: seq<Key>, ids: seq<OrderId>, outside: Key -> Outside): (r: Book)
    requires Coherent(b) && c.Valid() && |ids| == |keys| && NewIds(b, ids) && AllReadable(c, outside)
    ensures Coherent(r) && (Holdings(b) ==> Holdings(r)) && r.keys == b.keys
    ensures forall i :: i in b.orders ==> i in r.orders && r.orders[i].rejectReason == b.orders[i].rejectReason
    ensures forall i :: i in r.orders ==> i in b.orders || i in ids
  {
    if keys == [] then b
    else
      var n := |keys| - 1;
      var before := SquaredAll(c, b, keys[..n], ids[..n], outside);
      assert ids[n] !in ids[..n];
      RoundKeepsVerdicts(c, before, keys[n], ids[n], outside(keys[n]));
      SquaredOne(c, before, keys[n], ids[n], outside(keys[n]))
  }

  /** The ids drawn for the lines that are due. */
  ghost function DueIds(b: Book, keys: seq<Key>, ids: seq<OrderId>): seq<OrderId>
    requires |ids| == |keys|
  {
    if keys == [] then []
    else
      var n := |keys| - 1;
      DueIds(b, keys[..n], ids[..n]) + if Due(b, keys[n]) then [ids[n]] else []
  }

  predicate Distinct(keys: seq<Key>) { forall i, j :: 0 <= i < j < |keys| ==> keys[i] != keys[j] }

  /** The cancellations of some round on these lines reach orders of this spelling. */
  ghost predicate ReachedBy(b: Book, keys: seq<Key>, symbol: string) {
    exists i :: 0 <= i < |keys| && Reaches(b, keys[i], symbol)
  }

  lemma ReachedByOneMore(b: Book, keys: seq<Key>, key: Key, symbol: string)
    ensures ReachedBy(b, keys + [key], symbol) <==> ReachedBy(b, keys, symbol) || Reaches(b, key, symbol)
  {
    if ReachedBy(b, keys, symbol) {
      var i :| 0 <= i < |keys| && Reaches(b, keys[i], symbol);
      assert Reaches(b, (keys + [key])[i], symbol);
    }
    if Reaches(b, key, symbol) {
      assert Reaches(b, (keys + [key])[|keys|], symbol);
    }
  }

  /** Lines not yet reached are as they were, but for the orders cancelled by their spelling. */
  lemma {:induction false} LaterLinesWait(c: Config, b: Book, keys: seq<Key>, ids: seq<OrderId>,
                                          outside: Key -> Outside, other: Key)
    requires Coherent(b) && c.Valid() && |ids| == |keys| && NewIds(b, ids) && AllReadable(c, outside)
    requires Distinct(keys) && other !in keys
    ensures var r := SquaredAll(c, b, keys, ids, outside);
      && (Due(r, other) <==> Due(b, other))
      && (other in r.positions <==> other in b.positions)
      && (other in b.positions ==> r.positions[other] == b.positions[other])
    ensures var r := SquaredAll(c, b, keys, ids, outside);
      && (forall i :: i in b.orders ==>
            && i in r.orders && r.orders[i].symbol == b.orders[i].symbol
            && SharesOn(r.orders[i], other)
               == if ReachedBy(b, keys, b.orders[i].symbol) then 0 else SharesOn(b.orders[i], other))
      && (forall i :: i in r.orders && i !in b.orders ==> SharesOn(r.orders[i], other) == 0)
  {
    hide SquaredOne, Coherent, SharesOn, ReachedBy;
    if keys == [] {
      NoneReached(b);
    } else {
      var n := |keys| - 1;
      var before := SquaredAll(c, b, keys[..n], ids[..n], outside);
      LaterLinesWait(c, b, keys[..n], ids[..n], outside, other);
      LaterLinesWait(c, b, keys[..n], ids[..n], outside, keys[n]);
      RoundKeepsOthers(c, before, keys[n], ids[n], outside(keys[n]), other);
      RoundKeepsVerdicts(c, before, keys[n], ids[n], outside(keys[n]));
      assert keys == keys[..n] + [keys[n]];
      forall i | i in b.orders
        ensures ReachedBy(b, keys, b.orders[i].symbol)
           <==> ReachedBy(b, keys[..n], b.orders[i].symbol) || Reaches(before, keys[n], b.orders[i].symbol)
      {
        ReachedByOneMore(b, keys[..n], keys[n], b.orders[i].symbol);
      }
    }
  }

  lemma DueWaits(c: Config, b: Book, keys: seq<Key>, ids: seq<OrderId>, outside: Key -> Outside, other: Key)
    requires Coherent(b) && c.Valid() && |ids| == |keys| && NewIds(b, ids) && AllReadable(c, outside)
    requires Distinct(keys) && other !in keys
    ensures Due(SquaredAll(c, b, keys, ids, outside), other) <==> Due(b, other)
  {
    hide SquaredAll, Coherent, SharesOn, ReachedBy, Due;
    LaterLinesWait(c, b, keys, ids, outside, other);
  }

  lemma NoneReached(b: Book)
    ensures forall symbol :: !ReachedBy(b, [], symbol)
  {
  }

  /** Every order that holds shares of line i spells the symbol as the position does, or is cancelled by
      an earlier round under its own spelling. */
  ghost predicate ClearedFor(b: Book, keys: seq<Key>, i: nat)
    requires i < |keys| && keys[i] in b.positions
  {
    forall id :: id in b.orders && SharesOn(b.orders[id], keys[i]) > 0 ==>
      b.orders[id].symbol == b.positions[keys[i]].symbol || ReachedBy(b, keys[..i], b.orders[id].symbol)
  }

  ghost predicate Refusable(b: Book, id: OrderId) {
    id in b.orders && b.orders[id].rejectReason in {Some(InsufficientHoldings), Some(ShortSellNotSupported)}
  }

  /** The square-off of the whole book: a line that was due and is not stopped by a gate has its sale on
      file, and that sale is refused for want of shares exactly when an order holding shares of the
      line, spelled otherwise, is left standing by the earlier rounds. */
  lemma {:induction false} SquareOffIsNeverShort(
      c: Config, b: Book, keys: seq<Key>, ids: seq<OrderId>, outside: Key -> Outside, i: nat)
    requires Holdings(b) && c.Valid() && |ids| == |keys| && NewIds(b, ids) && AllReadable(c, outside)
    requires Distinct(keys) && i < |keys| && Due(b, keys[i])
    requires !outside(keys[i]).degraded && !outside(keys[i]).gate
    ensures ids[i] in DueIds(b, keys, ids)
    ensures var r := SquaredAll(c, b, keys, ids, outside);
      ids[i] in r.orders && (Refusable(r, ids[i]) <==> !ClearedFor(b, keys, i))
  {
    hide SquaredOne, SpelledAlike, MoneyOf, Reservations, OrdersTidy, SharesCovered, ClearedFor;
    var n := |keys| - 1;
    assert ids[n] !in ids[..n];
    if i < n {
      SquareOffIsNeverShort(c, b, keys[..n], ids[..n], outside, i);
      ClearedByPrefix(b, keys, n, i);
      RoundKeepsVerdicts(c, SquaredAll(c, b, keys[..n], ids[..n], outside), keys[n], ids[n], outside(keys[n]));
    } else {
      LastLineIsNeverShort(c, b, keys, ids, outside);
    }
  }

  lemma LastLineIsNeverShort(c: Config, b: Book, keys: seq<Key>, ids: seq<OrderId>, outside: Key -> Outside)
    requires Holdings(b) && c.Valid() && |ids| == |keys| && NewIds(b, ids) && AllReadable(c, outside)
    requires var n := |keys| - 1;
      Distinct(keys) && keys != [] && Due(b, keys[n]) && !outside(keys[n]).degraded && !outside(keys[n]).gate
    ensures var n := |keys| - 1;
      var r := SquaredAll(c, b, keys, ids, outside);
      ids[n] in r.orders && (Refusable(r, ids[n]) <==> !ClearedFor(b, keys, n))
  {
    hide SquaredOne, SpelledAlike, MoneyOf, Reservations, OrdersTidy, SharesCovered, ClearedFor;
    var n := |keys| - 1;
    assert ids[n] !in ids[..n];
    DueWaits(c, b, keys[..n], ids[..n], outside, keys[n]);
    SquareOffNeverShort(c, SquaredAll(c, b, keys[..n], ids[..n], outside), keys[n], ids[n], outside(keys[n]));
    ClearedIsSpelledAlike(c, b, keys, ids, outside);
  }

  /** One more round, and its id if its line was due. */
  lemma OneMoreRound(c: Config, b: Book, keys: seq<Key>, ids: seq<OrderId>, outside: Key -> Outside, i: nat)
    requires Coherent(b) && c.Valid() && i < |ids| == |keys| && NewIds(b, ids) && AllReadable(c, outside)
    requires Distinct(keys)
    ensures var before := SquaredAll(c, b, keys[..i], ids[..i], outside);
      && ids[i] !in before.orders && (Due(before, keys[i]) <==> Due(b, keys[i]))
      && SquaredAll(c, b, keys[..i + 1], ids[..i + 1], outside)
         == SquaredOne(c, before, keys[i], ids[i], outside(keys[i]))
    ensures DueIds(b, keys[..i + 1], ids[..i + 1])
         == DueIds(b, keys[..i], ids[..i]) + if Due(b, keys[i]) then [ids[i]] else []
  {
    hide Coherent, SquaredOne, Due;
    assert keys[..i + 1][..i] == keys[..i] && ids[..i + 1][..i] == ids[..i];
    assert ids[i] !in ids[..i];
    DueWaits(c, b, keys[..i], ids[..i], outside, keys[i]);
  }

  lemma NoRounds(c: Config, b: Book, outside: Key -> Outside)
    requires Coherent(b) && c.Valid() && AllReadable(c, outside)
    ensures SquaredAll(c, b, [], [], outside) == b && DueIds(b, [], []) == []
  {
  }

  lemma ClearedByPrefix(b: Book, keys: seq<Key>, n: nat, i: nat)
    requires i < n <= |keys| && keys[i] in b.positions
    ensures ClearedFor(b, keys[..n], i) <==> ClearedFor(b, keys, i)
  {
    hide ReachedBy;
    assert keys[..n][..i] == keys[..i];
  }

  /** Seen from the last round, the orders left standing are those that matter. */
  lemma ClearedIsSpelledAlike(c: Config, b: Book, keys: seq<Key>, ids: seq<OrderId>, outside: Key -> Outside)
    requires Coherent(b) && c.Valid() && |ids| == |keys| && NewIds(b, ids) && AllReadable(c, outside)
    requires Distinct(keys) && keys != [] && keys[|keys| - 1] in b.positions
    ensures var n := |keys| - 1;
      var before := SquaredAll(c, b, keys[..n], ids[..n], outside);
      keys[n] in before.positions && (SpelledAlike(before, keys[n]) <==> ClearedFor(b, keys, n))
  {
    hide SquaredAll, SharesOn, ReachedBy, Coherent, Due;
    var n := |keys| - 1;
    LaterLinesWait(c, b, keys[..n], ids[..n], outside, keys[n]);
    var before := SquaredAll(c, b, keys[..n], ids[..n], outside);
    if SpelledAlike(before, keys[n]) {
      forall id | id in b.orders && SharesOn(b.orders[id], keys[n]) > 0
        ensures b.orders[id].symbol == b.positions[keys[n]].symbol || ReachedBy(b, keys[..n], b.orders[id].symbol)
      {
        assert id in before.orders;
      }
    }
  }

  /** Lines whose orders all spell their symbol as the position does are cleared. */
  lemma SpelledAlikeIsCleared(b: Book, keys: seq<Key>, i: nat)
    requires i < |keys| && keys[i] in b.positions
    ensures SpelledAlike(b, keys[i]) ==> ClearedFor(b, keys, i)
  {
    hide SharesOn, ReachedBy;
  }

  /** Every line that was due and not stopped by a gate has its sale on file, and exactly those not
      cleared are refused for want of shares. */
  ghost predicate SoldWhereCleared(
      b: Book, r: Book, keys: seq<Key>, ids: seq<OrderId>, outside: Key -> Outside, placed: seq<OrderId>)
    requires |ids| == |keys|
  {
    forall i :: 0 <= i < |keys| && Due(b, keys[i]) && !outside(keys[i]).degraded && !outside(keys[i]).gate ==>
      ids[i] in placed && ids[i] in r.orders && (Refusable(r, ids[i]) <==> !ClearedFor(b, keys, i))
  }

  lemma SquareOffSells(c: Config, b: Book, keys: seq<Key>, ids: seq<OrderId>, outside: Key -> Outside)
    requires Holdings(b) && c.Valid() && |ids| == |keys| && NewIds(b, ids) && AllReadable(c, outside) && Distinct(keys)
    ensures SoldWhereCleared(b, SquaredAll(c, b, keys, ids, outside), keys, ids, outside, DueIds(b, keys, ids))
  {
    hide SquaredAll, DueIds, MoneyOf, Reservations, OrdersTidy, SharesCovered, ClearedFor;
    forall i | 0 <= i < |keys| && Due(b, keys[i]) && !outside(keys[i]).degraded && !outside(keys[i]).gate
      ensures ids[i] in DueIds(b, keys, ids)
      ensures var r := SquaredAll(c, b, keys, ids, outside);
        ids[i] in r.orders && (Refusable(r, ids[i]) <==> !ClearedFor(b, keys, i))
    {
      SquareOffIsNeverShort(c, b, keys, ids, outside, i);
    }
  }
}
