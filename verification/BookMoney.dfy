/** What every reachable book keeps, whatever interleaving of calls produced it: conservation of
    money, agreement with the ledger, and reservations that add up. */
module BookMoney {
  import opened Market
  import opened Rounding
  import opened Costs
  import opened Sums
  import opened Book

  ghost predicate PositionsSound(positions: map<Key, Position>) {
    forall k :: k in positions ==>
      && positions[k].Key() == k
      && positions[k].quantity >= 0 && positions[k].costBasis >= 0
      && (positions[k].quantity == 0 ==> positions[k].costBasis == 0)
  }

  /** Cash and shares agree with the ledger, and no money appears or vanishes. */
  ghost predicate MoneyOf(initial: int, cash: int, totalCosts: int, positions: map<Key, Position>, trades: seq<Trade>) {
    && cash == LedgerCash(initial, trades)
    && totalCosts == LedgerCosts(trades)
    && PositionsSound(positions)
    && cash + Sum(Bases(positions)) == initial + Sum(Realised(positions))
    && forall k :: HeldIn(positions, k) == SignedQty(trades, k)
  }

  ghost predicate Money(b: Book) { MoneyOf(b.initial, b.cash, b.totalCosts, b.positions, b.trades) }

  predicate OrderSound(o: PaperOrder) {
    && o.reservedCash >= 0 && o.reservedQty >= 0 && o.filledQty >= 0
    && (o.status != Open ==> o.reservedCash == 0 && o.reservedQty == 0)
    && (o.side == Sell ==> o.reservedCash == 0)
    && (o.side == Buy ==> o.reservedQty == 0)
  }

  /** The ids list every order once. */
  ghost predicate Listing(orders: map<OrderId, PaperOrder>, ids: seq<OrderId>) {
    && (forall id :: id in orders <==> id in ids)
    && (forall i, j :: 0 <= i < j < |ids| ==> ids[i] != ids[j])
  }

  /** The keys list every position once. */
  ghost predicate Lines(positions: map<Key, Position>, keys: seq<Key>) {
    && (forall k :: k in positions <==> k in keys)
    && (forall i, j :: 0 <= i < j < |keys| ==> keys[i] != keys[j])
  }

  /** The earmarked total is the sum of what OPEN orders hold; terminal orders hold nothing. */
  ghost predicate Reservations(b: Book) {
    && b.reserved == Sum(CashHeld(b.orders))
    && (forall id :: id in b.orders ==> b.orders[id].id == id && OrderSound(b.orders[id]))
    && Listing(b.orders, b.ids)
    && Lines(b.positions, b.keys)
  }

  ghost predicate Coherent(b: Book) { Money(b) && Reservations(b) }

  predicate Solvent(b: Book) { 0 <= b.reserved <= b.cash }

  /** What `_assert_invariants` looks at, on any book whatever. */
  ghost predicate SelfChecked(b: Book) {
    && Solvent(b) && b.cash == LedgerCash(b.initial, b.trades)
    && forall k :: k in b.positions ==> b.positions[k].quantity >= 0 && b.positions[k].costBasis >= 0
  }

  /** On a coherent book the self-check can fail for one reason only. */
  lemma CoherentSelfCheck(b: Book)
    requires Coherent(b)
    ensures SelfChecked(b) <==> Solvent(b)
  {
  }

  // ---------------------------------------------------------------- reservations

  lemma ReservedIsNonNegative(b: Book, id: OrderId)
    requires Reservations(b)
    ensures b.reserved >= 0
    ensures id in b.orders ==> 0 <= b.orders[id].reservedCash <= b.reserved && b.orders[id].id == id
  {
    SumNonNegative(CashHeld(b.orders));
    if id in b.orders {
      SumAtLeast(CashHeld(b.orders), id);
    }
  }

  lemma ListedOrders(b: Book)
    requires Reservations(b)
    ensures forall id :: id in b.ids <==> id in b.orders
    ensures forall i, j :: 0 <= i < j < |b.ids| ==> b.ids[i] != b.ids[j]
  {
  }

  /** The reserved shares of one line, added up over a list of order ids. */
  ghost function SharesListed(orders: map<OrderId, PaperOrder>, ids: seq<OrderId>, key: Key): int {
    if ids == [] then 0
    else
      var id := ids[|ids| - 1];
      SharesListed(orders, ids[..|ids| - 1], key) + if id in orders then SharesOn(orders[id], key) else 0
  }

  ghost function SharesOf(orders: map<OrderId, PaperOrder>, ids: seq<OrderId>, key: Key): map<OrderId, int> {
    map id | id in ids && id in orders :: SharesOn(orders[id], key)
  }

  lemma {:induction false} ListedIsSum(orders: map<OrderId, PaperOrder>, ids: seq<OrderId>, key: Key)
    requires forall i, j :: 0 <= i < j < |ids| ==> ids[i] != ids[j]
    requires forall id :: id in ids ==> id in orders
    ensures SharesListed(orders, ids, key) == Sum(SharesOf(orders, ids, key))
  {
    if ids == [] {
      SumZero(SharesOf(orders, ids, key));
    } else {
      var n := |ids| - 1;
      var shorter := ids[..n];
      ListedIsSum(orders, shorter, key);
      SumUpdate(SharesOf(orders, shorter, key), ids[n], SharesOn(orders[ids[n]], key));
      assert ids[n] !in shorter;
      assert SharesOf(orders, ids, key) == SharesOf(orders, shorter, key)[ids[n] := SharesOn(orders[ids[n]], key)] by {
        assert forall id :: id in ids <==> id in shorter || id == ids[n];
      }
    }
  }

  lemma ListedIsReserved(b: Book, key: Key)
    requires Reservations(b)
    ensures SharesListed(b.orders, b.ids, key) == ReservedQty(b, key)
  {
    ListedIsSum(b.orders, b.ids, key);
    assert SharesOf(b.orders, b.ids, key) == SharesHeld(b.orders, key);
  }

  /** Any single-order update that moves the total by as much as the order keeps the books straight. */
  lemma UpdateOrder(b: Book, b': Book, o: PaperOrder)
    requires Reservations(b) && OrderSound(o)
    requires b'.orders == b.orders[o.id := o]
    requires b'.ids == if o.id in b.orders then b.ids else b.ids + [o.id]
    requires b'.reserved == b.reserved + o.reservedCash - (if o.id in b.orders then b.orders[o.id].reservedCash else 0)
    requires Lines(b'.positions, b'.keys)
    ensures Reservations(b')
  {
    hide OrderSound, Listing, Lines;
    ListOrder(b.orders, b.ids, o);
    SumUpdate(CashHeld(b.orders), o.id, o.reservedCash);
    assert CashHeld(b'.orders) == CashHeld(b.orders)[o.id := o.reservedCash];
  }

  lemma ListOrder(orders: map<OrderId, PaperOrder>, ids: seq<OrderId>, o: PaperOrder)
    requires Listing(orders, ids)
    ensures Listing(orders[o.id := o], if o.id in orders then ids else ids + [o.id])
  {
  }

  lemma PutLine(b: Book, key: Key, p: Position)
    requires Lines(b.positions, b.keys)
    ensures Lines(PutPosition(b, key, p).positions, PutPosition(b, key, p).keys)
  {
  }

  // ---------------------------------------------------------------- money

  lemma BasisOutBounds(basis: int, qty: int, quantity: int)
    requires basis >= 0 && 0 < qty <= quantity
    ensures 0 <= BasisOut(basis, qty, quantity) <= basis
    ensures qty == quantity ==> BasisOut(basis, qty, quantity) == basis
  {
    var d := quantity as real;
    var share := (basis * qty) as real / d;
    var rest := (basis * (quantity - qty)) as real / d;
    assert basis * qty >= 0 && basis * (quantity - qty) >= 0;
    assert basis * qty + basis * (quantity - qty) == basis * quantity;
    assert (basis * quantity) as real == basis as real * d;
    assert share + rest == basis as real by {
      assert share + rest == ((basis * qty) as real + (basis * (quantity - qty)) as real) / d;
    }
    RoundHalfEvenWhole(0);
    RoundHalfEvenWhole(basis);
    RoundHalfEvenMonotone(0.0, share);
    RoundHalfEvenMonotone(share, basis as real);
  }

  /** The nearest paisa to the proportional share. */
  predicate NearestShare(taken: int, basis: int, qty: int, quantity: int) {
    -quantity <= 2 * (taken * quantity - basis * qty) <= quantity
  }

  lemma BasisOutIsNearest(basis: int, qty: int, quantity: int)
    requires quantity > 0
    ensures NearestShare(BasisOut(basis, qty, quantity), basis, qty, quantity)
  {
    RoundedQuotient(basis * qty, quantity);
  }

  lemma RoundedQuotient(whole: int, quantity: int)
    requires quantity > 0
    ensures var n := RoundHalfEven(whole as real / quantity as real);
      -quantity <= 2 * (n * quantity - whole) <= quantity
  {
    hide RoundHalfEven;
    var d := quantity as real;
    var share := whole as real / d;
    var n := RoundHalfEven(share);
    RoundHalfEvenIsNearest(share);
    var off := n * quantity - whole;
    OffBy(n, whole, quantity, share);
    Within(n as real - share, d, off as real);
    assert -d <= (2 * off) as real <= d;
  }

  lemma Within(x: real, d: real, y: real)
    requires -0.5 <= x <= 0.5 && d > 0.0 && x * d == y
    ensures -d <= 2.0 * y <= d
  {
    Product(0.5 - x, d);
    Product(x + 0.5, d);
    assert (0.5 - x) * d == 0.5 * d - y;
    assert (x + 0.5) * d == y + 0.5 * d;
  }

  lemma Product(a: real, b: real)
    requires a >= 0.0 && b >= 0.0
    ensures a * b >= 0.0
  {
  }

  lemma OffBy(n: int, whole: int, quantity: int, share: real)
    requires quantity > 0 && share == whole as real / quantity as real
    ensures (n as real - share) * quantity as real == (n * quantity - whole) as real
  {
    assert share * quantity as real == whole as real;
    assert (n * quantity) as real == n as real * quantity as real;
  }

  /** A sale takes its share of the basis, the nearest paisa and all of it at the end, and realises its
      proceeds less what it takes. */
  lemma SaleTakesItsShare(p: Position, qty: int, net: int)
    requires 0 < qty <= p.quantity && p.costBasis >= 0
    ensures var s := SoldPosition(p, qty, net);
      var taken := p.costBasis - s.costBasis;
      && s.quantity == p.quantity - qty && s.Key() == p.Key()
      && 0 <= taken <= p.costBasis && NearestShare(taken, p.costBasis, qty, p.quantity)
      && (s.quantity == 0 ==> taken == p.costBasis)
      && s.realised == p.realised + net - taken
  {
    hide PositionKey, BasisOut, NearestShare;
    BasisOutBounds(p.costBasis, qty, p.quantity);
    BasisOutIsNearest(p.costBasis, qty, p.quantity);
  }

  lemma PutPositionMoney(b: Book, b': Book, key: Key, p: Position, t: Trade)
    requires Money(b)
    requires b'.initial == b.initial && b'.trades == b.trades + [t] && t.key == key
    requires b'.positions == b.positions[key := p]
    requires b'.cash == b.cash + (if t.side == Buy then -t.notional else t.notional) - t.costs
    requires b'.totalCosts == b.totalCosts + t.costs
    requires p.quantity == Held(b, key) + (if t.side == Buy then t.qty else -t.qty) >= 0
    requires p.Key() == key && p.costBasis >= 0 && (p.quantity == 0 ==> p.costBasis == 0)
    requires var was := if key in b.positions then b.positions[key] else p.(costBasis := 0, realised := 0);
             b'.cash - b.cash + p.costBasis - was.costBasis == p.realised - was.realised
    ensures Money(b')
  {
    hide PositionKey;
    BasesUpdate(b.positions, key, p);
    HeldFollowsTrade(b.positions, key, p, b.trades, t);
    assert b'.trades[..|b'.trades| - 1] == b.trades;
  }

  lemma BasesUpdate(positions: map<Key, Position>, key: Key, p: Position)
    ensures var was := if key in positions then positions[key].costBasis else 0;
      Sum(Bases(positions[key := p])) == Sum(Bases(positions)) - was + p.costBasis
    ensures var was := if key in positions then positions[key].realised else 0;
      Sum(Realised(positions[key := p])) == Sum(Realised(positions)) - was + p.realised
  {
    SumUpdate(Bases(positions), key, p.costBasis);
    SumUpdate(Realised(positions), key, p.realised);
    assert Bases(positions[key := p]) == Bases(positions)[key := p.costBasis];
    assert Realised(positions[key := p]) == Realised(positions)[key := p.realised];
  }

  lemma HeldFollowsTrade(positions: map<Key, Position>, key: Key, p: Position, trades: seq<Trade>, t: Trade)
    requires t.key == key && forall k :: HeldIn(positions, k) == SignedQty(trades, k)
    requires p.quantity == HeldIn(positions, key) + (if t.side == Buy then t.qty else -t.qty)
    ensures forall k :: HeldIn(positions[key := p], k) == SignedQty(trades + [t], k)
  {
    assert (trades + [t])[..|trades|] == trades;
    forall k ensures HeldIn(positions[key := p], k) == SignedQty(trades + [t], k) {
      assert HeldIn(positions, k) == SignedQty(trades, k);
    }
  }

  /** A fill conserves money: what leaves the cash balance is in the basis or in realised loss. */
  lemma AppliedKeepsMoney(b: Book, id: OrderId, qty: int, price: real)
    requires Money(b) && Fillable(b, id, qty, price)
    requires b.orders[id].side == Buy ==> ToPaise(price) >= 0
    ensures Money(Applied(b, id, qty, price))
  {
    hide CostsPaise, ToPaise;
    var o := b.orders[id];
    CostsNonNegative(o.side, qty, price, o.product);
    var b' := Applied(b, id, qty, price);
    var t := b'.trades[|b.trades|];
    if o.side == Sell {
      var p := b.positions[o.Key()];
      BasisOutBounds(p.costBasis, qty, p.quantity);
      PutPositionMoney(b, b', o.Key(), SoldPosition(p, qty, t.notional - t.costs), t);
    } else {
      assert qty * ToPaise(price) >= 0;
      PutPositionMoney(b, b', o.Key(), BoughtPosition(b, o, qty, t.notional + t.costs), t);
    }
  }
}
