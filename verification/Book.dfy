/** The paper book as a value: every mutation of the account as a function on whole books. */
module Book {
  import opened Market
  import opened Rounding
  import opened Costs
  import opened FillPlan
  import opened Affordable
  import opened Sums
  import opened Text

  type OrderId = nat

  datatype Status = Open | Partial | Complete | Cancelled | Rejected

  datatype Key = Key(exchange: string, symbol: string, product: Product)

  datatype PaperOrder = PaperOrder(
    id: OrderId, symbol: string, exchange: string, side: Side, qty: int, price: real,
    kind: OrderKind, product: Product, status: Status, filledQty: int,
    reservedCash: int, reservedQty: int, rejectReason: Option<Reason>)
  {
    function Key(): Key { PositionKey(symbol, exchange, product) }

    /** Past the static validation of a new order. */
    predicate Fresh() {
      && status == Open && filledQty == 0 && reservedCash == 0 && reservedQty == 0 && rejectReason.None?
      && qty > 0 && (kind != MarketOrder ==> price > 0.0)
    }
  }

  datatype Position = Position(symbol: string, exchange: string, product: Product,
                               quantity: int, costBasis: int, realised: int)
  {
    function Key(): Key { PositionKey(symbol, exchange, product) }
  }

  datatype Trade = Trade(orderId: OrderId, key: Key, side: Side, qty: int, notional: int, costs: int)

  datatype Book = Book(
    initial: int, cash: int, reserved: int, totalCosts: int,
    orders: map<OrderId, PaperOrder>, ids: seq<OrderId>,
    positions: map<Key, Position>, keys: seq<Key>, trades: seq<Trade>)

  // ---------------------------------------------------------------- identity

  function PositionKey(symbol: string, exchange: string, product: Product): Key {
    Key.Key(Upper(exchange), Upper(symbol), product)
  }

  // ---------------------------------------------------------------- views

  function Opened(initial: int): Book { Book(initial, initial, 0, 0, map[], [], map[], [], []) }

  function Available(b: Book): int { b.cash - b.reserved }

  function HeldIn(positions: map<Key, Position>, key: Key): int {
    if key in positions then positions[key].quantity else 0
  }

  function Held(b: Book, key: Key): int { HeldIn(b.positions, key) }

  ghost function CashHeld(orders: map<OrderId, PaperOrder>): map<OrderId, int> {
    map id | id in orders :: orders[id].reservedCash
  }

  function SharesOn(o: PaperOrder, key: Key): int {
    if o.status == Open && o.Key() == key then o.reservedQty else 0
  }

  ghost function SharesHeld(orders: map<OrderId, PaperOrder>, key: Key): map<OrderId, int> {
    map id | id in orders :: SharesOn(orders[id], key)
  }

  ghost function ReservedQty(b: Book, key: Key): int { Sum(SharesHeld(b.orders, key)) }

  ghost function FreeQty(b: Book, key: Key): int { Held(b, key) - ReservedQty(b, key) }

  ghost function Bases(positions: map<Key, Position>): map<Key, int> {
    map k | k in positions :: positions[k].costBasis
  }

  ghost function Realised(positions: map<Key, Position>): map<Key, int> {
    map k | k in positions :: positions[k].realised
  }

  /** Cash re-derived from the trade ledger. */
  function LedgerCash(initial: int, trades: seq<Trade>): int {
    if trades == [] then initial
    else
      var t := trades[|trades| - 1];
      LedgerCash(initial, trades[..|trades| - 1])
      + (if t.side == Buy then -t.notional else t.notional) - t.costs
  }

  function LedgerCosts(trades: seq<Trade>): int {
    if trades == [] then 0 else LedgerCosts(trades[..|trades| - 1]) + trades[|trades| - 1].costs
  }

  /** Shares bought minus shares sold on one line. */
  function SignedQty(trades: seq<Trade>, key: Key): int {
    if trades == [] then 0
    else
      var t := trades[|trades| - 1];
      SignedQty(trades[..|trades| - 1], key)
      + (if t.key != key then 0 else if t.side == Buy then t.qty else -t.qty)
  }

  function TradesOf(trades: seq<Trade>, id: OrderId): int {
    if trades == [] then 0
    else TradesOf(trades[..|trades| - 1], id) + (if trades[|trades| - 1].orderId == id then 1 else 0)
  }

  // ---------------------------------------------------------------- primitive mutations

  function Put(b: Book, o: PaperOrder): Book {
    b.(orders := b.orders[o.id := o], ids := if o.id in b.orders then b.ids else b.ids + [o.id])
  }

  function PutPosition(b: Book, key: Key, p: Position): Book {
    b.(positions := b.positions[key := p], keys := if key in b.positions then b.keys else b.keys + [key])
  }

  function Released(b: Book, id: OrderId): Book
    requires id in b.orders
  {
    var o := b.orders[id];
    Put(b, o.(reservedCash := 0, reservedQty := 0)).(reserved := b.reserved - o.reservedCash)
  }

  function Refused(b: Book, o: PaperOrder, reason: Reason): Book {
    Put(b, o.(status := Rejected, rejectReason := Some(reason), reservedCash := 0, reservedQty := 0))
  }

  function WithStatus(b: Book, id: OrderId, s: Status): Book
    requires id in b.orders
  {
    Put(b, b.orders[id].(status := s))
  }

  function Finalised(b: Book, id: OrderId): Book
    requires id in b.orders
  {
    var o := b.orders[id];
    if o.filledQty >= o.qty then Released(WithStatus(b, id, Complete), id)
    else if o.filledQty > 0 then Released(WithStatus(b, id, Partial), id)
    else Put(b, o.(status := Open, reservedQty := if o.reservedQty != 0 then o.qty else 0))
  }

  function BasisOut(basis: int, qty: int, quantity: int): int
    requires quantity > 0
  {
    RoundHalfEven((basis * qty) as real / quantity as real)
  }

  function BoughtPosition(b: Book, o: PaperOrder, qty: int, outflow: int): Position {
    var key := o.Key();
    if key in b.positions then
      var p := b.positions[key];
      p.(quantity := p.quantity + qty, costBasis := p.costBasis + outflow)
    else Position(o.symbol, o.exchange, o.product, qty, outflow, 0)
  }

  function SoldPosition(p: Position, qty: int, net: int): Position
    requires 0 < qty <= p.quantity
  {
    var out := BasisOut(p.costBasis, qty, p.quantity);
    var left := p.quantity - qty;
    p.(quantity := left, costBasis := if left == 0 then 0 else p.costBasis - out,
       realised := p.realised + net - out)
  }

  /** A buy consumes its own earmark first. */
  function TakenCash(o: PaperOrder, outflow: int): int {
    if o.side == Buy then Min(o.reservedCash, outflow) else 0
  }

  function FilledOrder(o: PaperOrder, qty: int, take: int): PaperOrder {
    o.(filledQty := o.filledQty + qty, reservedCash := o.reservedCash - take,
       reservedQty := if o.side == Buy then o.reservedQty
                      else if o.reservedQty > qty then o.reservedQty - qty else 0)
  }

  /** What a fill may be booked against: money for a buy, shares for a sell. */
  predicate Fillable(b: Book, id: OrderId, qty: int, price: real) {
    && id in b.orders && qty > 0
    && var o := b.orders[id];
       if o.side == Buy then Outflow(qty, price, o.product) <= b.cash
       else qty <= Held(b, o.Key())
  }

  /** The one place where cash and positions change. */
  function Applied(b: Book, id: OrderId, qty: int, price: real): Book
    requires Fillable(b, id, qty, price)
  {
    var o := b.orders[id];
    var notional := qty * ToPaise(price);
    var costs := CostsPaise(o.side, qty, price, o.product);
    var trade := Trade(id, o.Key(), o.side, qty, notional, costs);
    var take := TakenCash(o, notional + costs);
    var order := FilledOrder(o, qty, take);
    var position := if o.side == Buy then BoughtPosition(b, o, qty, notional + costs)
                    else SoldPosition(b.positions[o.Key()], qty, notional - costs);
    PutPosition(Put(b, order), o.Key(), position).(
      cash := b.cash + (if o.side == Buy then -notional else notional) - costs,
      reserved := b.reserved - take,
      totalCosts := b.totalCosts + costs,
      trades := b.trades + [trade])
  }

  // ---------------------------------------------------------------- operations

  datatype Attempt = Attempt(book: Book, reason: Option<Reason>)

  function Budget(b: Book, id: OrderId): int
    requires id in b.orders
  {
    b.cash - b.reserved + b.orders[id].reservedCash
  }

  predicate Quotable(c: Config, snap: Snapshot) { c.tick > 0.0 && snap.bid > 0.0 && snap.ask > 0.0 }

  /** Apply whatever fill the snapshot supports. */
  function Executed(c: Config, b: Book, id: OrderId, snap: Snapshot): Attempt
    requires id in b.orders && b.orders[id].reservedCash <= b.reserved
    requires Quotable(c, snap)
  {
    var o := b.orders[id];
    match PlanFill(c, o.side, o.kind, o.price, o.qty - o.filledQty, snap)
    case Refuse(reason) => Attempt(b, Some(reason))
    case Rest => Attempt(b, None)
    case Fill(planned, price) =>
      if planned <= 0 then Attempt(b, None)
      else if o.side == Buy then
        var qty := AffordableQty(Budget(b, id), planned, price, o.product);
        if qty <= 0 then Attempt(b, Some(InsufficientCash))
        else Attempt(Applied(b, id, qty, price), None)
      else
        var qty := Min(planned, Held(b, o.Key()));
        if qty <= 0 then Attempt(b, Some(InsufficientHoldings))
        else Attempt(Applied(b, id, qty, price), None)
  }

  /** The book right after the reservation of a placement. */
  function Earmarked(c: Config, b: Book, o: PaperOrder, price: real, snap: Snapshot): Book
    requires Quotable(c, snap)
  {
    var need := WorstCaseOutflow(c, o.qty, price, o.kind, o.product, snap);
    if o.side == Buy then Put(b, o.(reservedCash := need)).(reserved := b.reserved + need)
    else Put(b, o.(reservedQty := o.qty))
  }

  /** The immediate execution of a freshly reserved order, and its settlement. */
  function Attempted(c: Config, b: Book, id: OrderId, snap: Snapshot): Book
    requires id in b.orders && b.orders[id].reservedCash <= b.reserved
    requires Quotable(c, snap)
  {
    var a := Executed(c, b, id, snap);
    if a.reason.Some? && a.book.orders[id].filledQty == 0 then
      var released := Released(a.book, id);
      Refused(released, released.orders[id], a.reason.value)
    else Finalised(a.book, id)
  }

  /** Placement after the quote arrived: reserve, try to execute, settle. No suspension inside. */
  function Settled(c: Config, b: Book, o: PaperOrder, price: real, snap: Snapshot): Book
    requires o.Fresh() && Quotable(c, snap) && b.reserved >= 0
  {
    if o.side == Buy && WorstCaseOutflow(c, o.qty, price, o.kind, o.product, snap) > Available(b) then
      Refused(b, o, InsufficientCash)
    else Attempted(c, Earmarked(c, b, o, price, snap), o.id, snap)
  }

  datatype QuoteOutcome = Unquoted | Stale | Quoted(snap: Snapshot)

  /** The part of a placement that follows its one suspension point, the quote fetch. */
  function PlacedAfterQuote(c: Config, b: Book, o: PaperOrder, price: real, q: QuoteOutcome): Book
    requires o.Fresh() && b.reserved >= 0
    requires q.Quoted? ==> Quotable(c, q.snap)
  {
    match q
    case Unquoted => Refused(b, o, NoPrice)
    case Stale => Refused(b, o, StalePrice)
    case Quoted(snap) =>
      if snap.volume <= 0 then Refused(b, o, NoLiquidityData) else Settled(c, b, o, price, snap)
  }

  /** Checks made before the quote is fetched; `gate` is the session verdict (hours, square-off window). */
  ghost function Precheck(b: Book, o: PaperOrder, degraded: bool, gate: bool): Option<Reason> {
    if degraded then Some(PersistenceDegraded)
    else if o.qty <= 0 then Some(InvalidQuantity)
    else if o.kind != MarketOrder && o.price <= 0.0 then Some(InvalidPrice)
    else if gate then Some(SessionGate)
    else if o.side == Sell && o.qty > FreeQty(b, o.Key()) then
      Some(if FreeQty(b, o.Key()) <= 0 then ShortSellNotSupported else InsufficientHoldings)
    else None
  }

  /** One resting order re-evaluated against a fresh quote. The source checks OPEN before it awaits
      the quote and not after, so the order may have become terminal in between. */
  function Polled(c: Config, b: Book, id: OrderId, snap: Snapshot): Book
    requires id in b.orders && b.orders[id].reservedCash <= b.reserved && Quotable(c, snap)
  {
    var a := Executed(c, b, id, snap);
    if a.book.orders[id].filledQty > b.orders[id].filledQty then Finalised(a.book, id) else a.book
  }

  function CancelledOrder(b: Book, id: OrderId): Book {
    if id !in b.orders || b.orders[id].status != Open then b
    else WithStatus(Released(b, id), id, Cancelled)
  }

  /** True when `modify_order` turns a quantity down for want of shares, after writing it. */
  ghost predicate RefusedForHoldings(b: Book, id: OrderId, qty: Option<int>) {
    && id in b.orders && b.orders[id].status == Open && qty.Some?
    && var o := b.orders[id];
       && qty.value > o.filledQty && o.reservedQty != 0
       && qty.value - o.filledQty > FreeQty(b, o.Key()) + o.reservedQty
  }

  ghost function Modified(b: Book, id: OrderId, qty: Option<int>, price: Option<real>): Book {
    if id !in b.orders || b.orders[id].status != Open then b
    else
      var o := b.orders[id];
      if qty.Some? && qty.value <= o.filledQty then b
      else if RefusedForHoldings(b, id, qty) then Put(b, o.(qty := qty.value))
      else
        var o1 := if qty.None? then o
                  else o.(qty := qty.value,
                          reservedQty := if o.reservedQty != 0 then qty.value - o.filledQty else o.reservedQty);
        var o2 := if price.Some? && price.value > 0.0 then o1.(price := price.value) else o1;
        Put(b, o2)
  }
}
