/** The paper broker itself: the account's fields and the methods that change them, each proved to
    take the book exactly where the functions of module Book say. */
module PaperBroker {
  import opened Market
  import opened Rounding
  import opened Costs
  import opened FillPlan
  import opened Affordable
  import opened Book
  import opened BookMoney
  import opened BookRuns
  import opened BookHoldings
  import opened BookSquareOff

  class PaperBroker {
    const config: Config
    var initialCash: int
    var cash: int
    var reservedCash: int
    var totalCosts: int
    var orders: map<OrderId, PaperOrder>
    var ids: seq<OrderId>
    var positions: map<Key, Position>
    var keys: seq<Key>
    var trades: seq<Trade>

    /** The account as one value. */
    ghost function Now(): Book
      reads this
    {
      Book(initialCash, cash, reservedCash, totalCosts, orders, ids, positions, keys, trades)
    }

    ghost predicate Valid()
      reads this
    {
      config.Valid() && Coherent(Now())
    }

    constructor (config: Config, initial: int)
      requires config.Valid() && initial >= 0
      ensures Valid() && Now() == Opened(initial) && this.config == config
    {
      this.config := config;
      initialCash, cash, reservedCash, totalCosts := initial, initial, 0, 0;
      orders, ids, positions, keys, trades := map[], [], map[], [], [];
      new;
      OpenedIsCoherent(initial);
    }

    // -------------------------------------------------------------- views

    method LedgerCashPaise() returns (derived: int)
      ensures derived == LedgerCash(initialCash, trades)
    {
      derived := initialCash;
      var i := 0;
      while i < |trades|
        invariant 0 <= i <= |trades|
        invariant derived == LedgerCash(initialCash, trades[..i])
      {
        var t := trades[i];
        assert trades[..i + 1][..i] == trades[..i];
        if t.side == Buy {
          derived := derived - t.notional;
        } else {
          derived := derived + t.notional;
        }
        derived := derived - t.costs;
        i := i + 1;
      }
      assert trades[..|trades|] == trades;
    }

    /** The full self-check, whatever the amounts: it only relies on `keys` listing the positions. */
    method AssertInvariants() returns (ok: bool)
      requires Lines(positions, keys)
      ensures ok <==> SelfChecked(Now())
    {
      if cash < 0 || reservedCash < 0 || reservedCash > cash {
        return false;
      }
      var i := 0;
      while i < |keys|
        invariant 0 <= i <= |keys|
        invariant forall j :: 0 <= j < i ==> positions[keys[j]].quantity >= 0 && positions[keys[j]].costBasis >= 0
      {
        assert keys[i] in positions;
        var p := positions[keys[i]];
        if p.quantity < 0 || p.costBasis < 0 {
          return false;
        }
        i := i + 1;
      }
      var derived := LedgerCashPaise();
      ok := derived == cash;
    }

    method ReservedQuantity(key: Key) returns (total: int)
      requires Valid()
      ensures total == ReservedQty(Now(), key)
    {
      hide MoneyOf, Reservations;
      ListedOrders(Now());
      total := 0;
      var i := 0;
      while i < |ids|
        invariant 0 <= i <= |ids|
        invariant total == SharesListed(orders, ids[..i], key)
      {
        var o := orders[ids[i]];
        assert ids[..i + 1][..i] == ids[..i];
        if o.status == Open && o.Key() == key {
          total := total + o.reservedQty;
        }
        i := i + 1;
      }
      assert ids[..|ids|] == ids;
      ListedIsReserved(Now(), key);
    }

    method FreeQuantity(key: Key) returns (free: int)
      requires Valid()
      ensures free == FreeQty(Now(), key)
    {
      var held := if key in positions then positions[key].quantity else 0;
      var reserved := ReservedQuantity(key);
      free := held - reserved;
    }

    // -------------------------------------------------------------- settlement

    method Release(id: OrderId)
      requires id in orders && orders[id].id == id
      modifies this`reservedCash, this`orders
      ensures Now() == Released(old(Now()), id)
    {
      var o := orders[id];
      if o.reservedCash != 0 {
        reservedCash := reservedCash - o.reservedCash;
        o := o.(reservedCash := 0);
      }
      orders := orders[id := o.(reservedQty := 0)];
    }

    method Finalise(id: OrderId)
      requires id in orders && orders[id].id == id
      modifies this`reservedCash, this`orders
      ensures Now() == Finalised(old(Now()), id)
    {
      var o := orders[id];
      if o.filledQty >= o.qty {
        orders := orders[id := o.(status := Complete)];
        Release(id);
      } else if o.filledQty > 0 {
        orders := orders[id := o.(status := Partial)];
        Release(id);
      } else {
        orders := orders[id := o.(status := Open, reservedQty := if o.reservedQty != 0 then o.qty else 0)];
      }
    }

    method Reject(o: PaperOrder, reason: Reason)
      modifies this`orders, this`ids
      ensures Now() == Refused(old(Now()), o, reason)
    {
      if o.id !in orders {
        ids := ids + [o.id];
      }
      var rejected := o.(status := Rejected, rejectReason := Some(reason), reservedCash := 0, reservedQty := 0);
      orders := orders[o.id := rejected];
    }

    /** The single place where cash and positions change. Its precondition is why neither of the two
        errors the source raises here (an overdrawing buy, a sale without shares) can occur. */
    method ApplyFill(id: OrderId, qty: int, price: real)
      requires Fillable(Now(), id, qty, price) && orders[id].id == id
      modifies this
      ensures Now() == Applied(old(Now()), id, qty, price)
    {
      hide CostsPaise, ToPaise, PositionKey, SoldPosition, BoughtPosition;
      ghost var before := Now();
      var o := orders[id];
      var key := o.Key();
      var notional := qty * ToPaise(price);
      var costs := CostsPaise(o.side, qty, price, o.product);
      if o.side == Buy {
        var outflow := notional + costs;
        var take := Min(o.reservedCash, outflow);
        reservedCash := reservedCash - take;
        o := o.(reservedCash := o.reservedCash - take);
        cash := cash - outflow;
        SameLineBought(before, Now(), orders[id], o, qty, outflow);
        AddToPosition(o, qty, outflow);
      } else {
        cash := cash + (notional - costs);
        TakeFromPosition(key, qty, notional - costs);
        if o.reservedQty != 0 {
          o := o.(reservedQty := if o.reservedQty > qty then o.reservedQty - qty else 0);
        }
      }
      totalCosts := totalCosts + costs;
      o := o.(filledQty := o.filledQty + qty);
      orders := orders[id := o];
      trades := trades + [Trade(id, key, o.side, qty, notional, costs)];
    }

    method AddToPosition(o: PaperOrder, qty: int, outflow: int)
      modifies this`positions, this`keys
      ensures Now() == PutPosition(old(Now()), o.Key(), BoughtPosition(old(Now()), o, qty, outflow))
    {
      hide PositionKey;
      var key := o.Key();
      if key !in positions {
        positions := positions[key := Position(o.symbol, o.exchange, o.product, qty, outflow, 0)];
        keys := keys + [key];
      } else {
        var p := positions[key];
        positions := positions[key := p.(quantity := p.quantity + qty, costBasis := p.costBasis + outflow)];
      }
    }

    method TakeFromPosition(key: Key, qty: int, net: int)
      requires key in positions && 0 < qty <= positions[key].quantity
      modifies this`positions
      ensures Now() == PutPosition(old(Now()), key, SoldPosition(old(positions)[key], qty, net))
    {
      hide BasisOut;
      var p := positions[key];
      var basisOut := BasisOut(p.costBasis, qty, p.quantity);
      p := p.(quantity := p.quantity - qty, costBasis := p.costBasis - basisOut,
              realised := p.realised + (net - basisOut));
      if p.quantity == 0 {
        p := p.(costBasis := 0);
      }
      positions := positions[key := p];
    }

    // -------------------------------------------------------------- operations

    method ExecuteAgainst(id: OrderId, snap: Snapshot) returns (reason: Option<Reason>)
      requires Valid() && id in orders && Quotable(config, snap)
      modifies this
      ensures Valid()
      ensures old(orders[id].reservedCash <= reservedCash)
      ensures Executed(config, old(Now()), id, snap) == Attempt(Now(), reason)
    {
      hide MoneyOf, PlanFill, AffordableQty, Outflow, Applied;
      ReservedIsNonNegative(Now(), id);
      ExecutedKeepsCoherent(config, Now(), id, snap);
      var o := orders[id];
      match PlanFill(config, o.side, o.kind, o.price, o.qty - o.filledQty, snap) {
        case Refuse(why) => return Some(why);
        case Rest => return None;
        case Fill(planned, price) =>
          if planned <= 0 {
            return None;
          }
          var qty: int;
          if o.side == Buy {
            var budget := cash - reservedCash + o.reservedCash;
            qty := ComputeAffordableQty(budget, planned, price, o.product);
            if qty <= 0 {
              return Some(InsufficientCash);
            }
          } else {
            var held := if o.Key() in positions then positions[o.Key()].quantity else 0;
            qty := Min(planned, held);
            if qty <= 0 {
              return Some(InsufficientHoldings);
            }
          }
          ApplyFill(id, qty, price);
          return None;
      }
    }

    /** The checks before the quote is awaited. */
    method EarlyVerdict(o: PaperOrder, degraded: bool, gate: bool) returns (verdict: Option<Reason>)
      requires Valid()
      ensures verdict == Precheck(Now(), o, degraded, gate)
    {
      if degraded {
        return Some(PersistenceDegraded);
      }
      if o.qty <= 0 {
        return Some(InvalidQuantity);
      }
      if o.kind != MarketOrder && o.price <= 0.0 {
        return Some(InvalidPrice);
      }
      if gate {
        return Some(SessionGate);
      }
      if o.side == Sell {
        var free := FreeQuantity(o.Key());
        if o.qty > free {
          return Some(if free <= 0 then ShortSellNotSupported else InsufficientHoldings);
        }
      }
      verdict := None;
    }

    /** What runs once the quote is there, uninterrupted: reserve, execute, settle, self-check.
        `ok` is false where the source raises its accounting error. */
    method FinishPlacement(o: PaperOrder, price: real, q: QuoteOutcome) returns (ok: bool)
      requires Valid() && o.Fresh() && o.id !in orders
      requires q.Quoted? ==> Quotable(config, q.snap)
      requires o.kind == LimitOrder ==> price == o.price
      modifies this
      ensures Valid() && old(reservedCash) >= 0
      ensures Now() == PlacedAfterQuote(config, old(Now()), o, price, q)
      ensures orders.Keys == old(orders).Keys + {o.id}
      ensures ok == (orders[o.id].status == Rejected || Solvent(Now()))
    {
      hide MoneyOf, Settled, Reservations, Solvent;
      PlacedKeepsCoherent(config, Now(), o, price, q);
      ok := true;
      match q {
        case Unquoted => Reject(o, NoPrice);
        case Stale => Reject(o, StalePrice);
        case Quoted(snap) =>
          if snap.volume <= 0 {
            Reject(o, NoLiquidityData);
          } else {
            ok := Settle(o, price, snap);
          }
      }
    }

    method Settle(o: PaperOrder, price: real, snap: Snapshot) returns (ok: bool)
      requires Valid() && o.Fresh() && o.id !in orders && Quotable(config, snap)
      requires o.kind == LimitOrder ==> price == o.price
      modifies this
      ensures Valid() && old(reservedCash) >= 0
      ensures Now() == Settled(config, old(Now()), o, price, snap)
      ensures orders.Keys == old(orders).Keys + {o.id}
      ensures o.id in orders && ok == (orders[o.id].status == Rejected || Solvent(Now()))
    {
      hide MoneyOf, Reservations, WorstCaseOutflow, Attempted, Solvent;
      ghost var before := Now();
      SettledKeepsCoherent(config, before, o, price, snap);
      var order := o;
      if o.side == Buy {
        var need := WorstCaseOutflow(config, o.qty, price, o.kind, o.product, snap);
        if need > cash - reservedCash {
          Reject(o, InsufficientCash);
          return true;
        }
        order := order.(reservedCash := need);
        reservedCash := reservedCash + need;
      } else {
        order := order.(reservedQty := o.qty);
      }
      orders := orders[o.id := order];
      ids := ids + [o.id];
      EarmarkedKeepsCoherent(config, before, o, price, snap);
      assert Now() == Earmarked(config, before, o, price, snap);
      ok := AttemptAndSettle(o.id, snap);
    }

    method AttemptAndSettle(id: OrderId, snap: Snapshot) returns (ok: bool)
      requires Valid() && id in orders && Quotable(config, snap)
      modifies this
      ensures Valid() && old(orders[id].reservedCash <= reservedCash)
      ensures Now() == Attempted(config, old(Now()), id, snap)
      ensures orders.Keys == old(orders).Keys && ok == (orders[id].status == Rejected || Solvent(Now()))
    {
      hide MoneyOf, Reservations, Executed, Solvent;
      ghost var before := Now();
      ExecutedKeepsCoherent(config, before, id, snap);
      AttemptedKeepsCoherent(config, before, id, snap);
      var reason := ExecuteAgainst(id, snap);
      if reason.Some? && orders[id].filledQty == 0 {
        Release(id);
        Reject(orders[id], reason.value);
        return true;
      }
      Finalise(id);
      CoherentSelfCheck(Now());
      BookIsListed(Now());
      ok := AssertInvariants();
      assert orders[id].status != Rejected;
    }

    /** A whole placement during which nothing else runs. */
    method PlaceOrder(o: PaperOrder, price: real, x: Outside) returns (ok: bool)
      requires Valid() && Placeable(config, Now(), o, price, x)
      modifies this
      ensures Valid()
      ensures Now() == Placed(config, old(Now()), o, price, x)
      ensures orders.Keys == old(orders).Keys + {o.id}
      ensures o.id in orders && ok == (orders[o.id].status == Rejected || Solvent(Now()))
    {
      hide MoneyOf, Reservations, PlacedAfterQuote, Holdings;
      ghost var whole := Placed(config, Now(), o, price, x);
      var verdict := EarlyVerdict(o, x.degraded, x.gate);
      if verdict.Some? {
        Reject(o, verdict.value);
        ok := true;
      } else {
        ok := FinishPlacement(o, price, x.quote);
      }
      assert Now() == whole;
    }

    /** Re-evaluate every resting order once, in placement order. */
    method PollOpenOrders(quotes: OrderId -> Option<Snapshot>) returns (filled: int, ok: bool)
      requires Valid() && QuotesReadable(config, quotes)
      modifies this
      ensures Valid()
      ensures Now() == PolledAll(config, old(Now()), old(ids), quotes)
      ensures filled == |trades| - |old(trades)|
      ensures ok <==> filled == 0 || Solvent(Now())
    {
      hide MoneyOf, Reservations, Polled, Holdings, Solvent;
      ListedOrders(Now());
      filled := 0;
      var pending := ids;
      ghost var before := Now();
      var i := 0;
      while i < |pending|
        invariant 0 <= i <= |pending|
        invariant Valid() && 0 <= filled == |trades| - |before.trades|
        invariant Now() == PolledAll(config, before, pending[..i], quotes)
      {
        assert pending[..i + 1][..i] == pending[..i];
        var id := pending[i];
        var q := quotes(id);
        if orders[id].status == Open && q.Some? {
          var traded := PollOne(id, q.value);
          if traded {
            filled := filled + 1;
          }
        }
        i := i + 1;
      }
      assert pending[..|pending|] == pending;
      ok := true;
      if filled > 0 {
        CoherentSelfCheck(Now());
        BookIsListed(Now());
        ok := AssertInvariants();
      }
    }

    method PollOne(id: OrderId, snap: Snapshot) returns (traded: bool)
      requires Valid() && id in orders && Quotable(config, snap)
      modifies this
      ensures Valid() && old(orders[id].reservedCash <= reservedCash)
      ensures Now() == Polled(config, old(Now()), id, snap)
      ensures id in orders && traded == (orders[id].filledQty > old(orders[id].filledQty))
      ensures |trades| == |old(trades)| + if traded then 1 else 0
    {
      hide MoneyOf, Reservations, Executed;
      TradeCount(config, Now(), id, snap);
      ghost var before := Now();
      PolledKeepsCoherent(config, before, id, snap);
      var was := orders[id].filledQty;
      var reason := ExecuteAgainst(id, snap);
      ExecutedKeepsCoherent(config, before, id, snap);
      traded := orders[id].filledQty > was;
      if traded {
        Finalise(id);
      }
    }

    /** `ok` is false where the closing self-check raises, here and below. */
    method CancelOrder(id: OrderId) returns (done: bool, ok: bool)
      requires Valid()
      modifies this
      ensures Valid() && Now() == CancelledOrder(old(Now()), id)
      ensures done == (id in old(orders) && old(orders)[id].status == Open)
      ensures ok == (done ==> Solvent(Now()))
      ensures old(Solvent(Now())) ==> Solvent(Now())
    {
      hide MoneyOf, Reservations;
      CancelledKeepsCoherent(Now(), id);
      CancelledStaysSolvent(Now(), id);
      CoherentSelfCheck(CancelledOrder(Now(), id));
      BookIsListed(CancelledOrder(Now(), id));
      if id !in orders || orders[id].status != Open {
        return false, true;
      }
      ReservedIsNonNegative(Now(), id);
      Release(id);
      orders := orders[id := orders[id].(status := Cancelled)];
      done := true;
      ok := AssertInvariants();
    }

    method ModifyOrder(id: OrderId, qty: Option<int>, price: Option<real>) returns (done: bool, ok: bool)
      requires Valid()
      modifies this
      ensures Valid() && Now() == Modified(old(Now()), id, qty, price)
      ensures done <==>
        && id in old(orders) && old(orders)[id].status == Open
        && (qty.Some? ==> qty.value > old(orders)[id].filledQty)
        && !RefusedForHoldings(old(Now()), id, qty)
        && (price.Some? ==> price.value > 0.0)
      ensures ok == (done ==> Solvent(Now()))
    {
      hide MoneyOf, Reservations, FreeQty;
      ghost var before := Now();
      ReservedIsNonNegative(before, id);
      ModifiedKeepsCoherent(before, id, qty, price);
      CoherentSelfCheck(Modified(before, id, qty, price));
      BookIsListed(Modified(before, id, qty, price));
      if id !in orders || orders[id].status != Open {
        return false, true;
      }
      var o := orders[id];
      if qty.Some? {
        if qty.value <= o.filledQty {
          return false, true;
        }
        var free := FreeQuantity(o.Key());
        o := o.(qty := qty.value);
        if o.reservedQty != 0 {
          if qty.value - o.filledQty > free + o.reservedQty {
            orders := orders[id := o];
            return false, true;
          }
          o := o.(reservedQty := qty.value - o.filledQty);
        }
      }
      done, ok := true, true;
      if price.Some? {
        if price.value > 0.0 {
          o := o.(price := price.value);
        } else {
          done := false;
        }
      }
      orders := orders[id := o];
      if done {
        ok := AssertInvariants();
      }
    }

    // -------------------------------------------------------------- square-off

    method CancelFor(symbol: string) returns (ok: bool)
      requires Valid()
      modifies this
      ensures Valid() && (old(Holdings(Now())) ==> Holdings(Now()))
      ensures if ok then Now() == CancelledFor(old(Now()), symbol, old(ids)) else !Solvent(Now())
      ensures old(Solvent(Now())) ==> ok && Solvent(Now())
    {
      hide MoneyOf, Holdings, CancelledOrder, Reservations, CancelledLike, Solvent;
      ListedOrders(Now());
      var listed := ids;
      ghost var before := Now();
      var i := 0;
      while i < |listed|
        invariant 0 <= i <= |listed|
        invariant Valid() && Now() == CancelledFor(before, symbol, listed[..i])
        invariant Solvent(before) ==> Solvent(Now())
      {
        assert listed[..i + 1][..i] == listed[..i];
        var id := listed[i];
        if id in orders && orders[id].symbol == symbol {
          var done, fine := CancelOrder(id);
          assert Now() == CancelledFor(before, symbol, listed[..i + 1]);
          if !fine {
            return false;
          }
        }
        i := i + 1;
      }
      assert listed[..|listed|] == listed;
      ok := true;
    }

    /** One round of the square-off; a self-check that raises ends it. From a solvent account only the
        one after the sale can. */
    method SquareOffLine(key: Key, newId: OrderId, x: Outside) returns (drew: bool, ok: bool)
      requires Valid() && newId !in orders && Readable(config, x)
      modifies this
      ensures Valid() && (old(Holdings(Now())) ==> Holdings(Now())) && drew == Due(old(Now()), key)
      ensures ok || old(Solvent(Now())) ==> Now() == SquaredOne(config, old(Now()), key, newId, x)
      ensures !ok ==> !Solvent(Now())
      ensures old(Solvent(Now())) ==>
        ok == (drew ==> newId in orders && (orders[newId].status == Rejected || Solvent(Now())))
    {
      hide MoneyOf, Reservations, Holdings, Solvent;
      ghost var before := Now();
      drew := key in positions && Intraday(positions[key].product) && positions[key].quantity > 0;
      ok := true;
      if drew {
        var p := positions[key];
        ok := CancelFor(p.symbol);
        if ok {
          ok := PlaceOrder(ClosingOrder(newId, p), 0.0, x);
          assert Now() == SquaredOne(config, before, key, newId, x);
        }
      }
    }

    /** Close every open intraday line at market. `newIds` are the ids the placements will draw. Unless
        a self-check raised on the way, a sale is placed for every line that was due, and refused for
        want of shares exactly where orders holding them, spelled otherwise, were left standing. */
    method SquareOffIntraday(newIds: seq<OrderId>, outside: Key -> Outside)
      returns (placed: seq<OrderId>, ok: bool)
      requires Valid() && |newIds| == |keys| && NewIds(Now(), newIds) && AllReadable(config, outside)
      modifies this
      ensures Valid() && (old(Holdings(Now())) ==> Holdings(Now()))
      ensures !ok ==> !Solvent(Now())
      ensures ok ==> Now() == SquaredAll(config, old(Now()), old(keys), newIds, outside)
      ensures ok ==> placed == DueIds(old(Now()), old(keys), newIds)
      ensures ok && old(Holdings(Now())) ==>
        SoldWhereCleared(old(Now()), Now(), old(keys), newIds, outside, placed)
    {
      hide Coherent, Holdings, SquaredOne, SquaredAll, DueIds, SoldWhereCleared, Solvent, Due;
      placed := [];
      ghost var before := Now();
      var lines := keys;
      LinesAreDistinct(before);
      NoRounds(config, before, outside);
      assert lines[..0] == [] && newIds[..0] == [];
      var i := 0;
      while i < |lines|
        invariant 0 <= i <= |lines| == |newIds|
        invariant Valid()
        invariant Now() == SquaredAll(config, before, lines[..i], newIds[..i], outside)
        invariant placed == DueIds(before, lines[..i], newIds[..i])
      {
        OneMoreRound(config, before, lines, newIds, outside, i);
        var drew, fine := SquareOffLine(lines[i], newIds[i], outside(lines[i]));
        if !fine {
          return placed, false;
        }
        if drew {
          placed := placed + [newIds[i]];
        }
        i := i + 1;
      }
      assert lines[..i] == lines && newIds[..i] == newIds;
      if Holdings(before) {
        SquareOffSells(config, before, lines, newIds, outside);
      }
      ok := true;
    }
  }

  /** What a purchase adds to depends on the positions and on the line of the order only. */
  lemma SameLineBought(b: Book, b': Book, o: PaperOrder, o': PaperOrder, qty: int, outflow: int)
    requires b.positions == b'.positions
    requires o'.symbol == o.symbol && o'.exchange == o.exchange && o'.product == o.product
    ensures BoughtPosition(b', o', qty, outflow) == BoughtPosition(b, o, qty, outflow)
  {
    hide PositionKey;
  }

  lemma CancelledStaysSolvent(b: Book, id: OrderId)
    requires Coherent(b)
    ensures Solvent(b) ==> Solvent(CancelledOrder(b, id))
  {
    hide MoneyOf;
    CancelledKeepsCoherent(b, id);
    ReservedIsNonNegative(CancelledOrder(b, id), id);
    if Solvent(b) {
      QuietSolvency(b, id, None, None);
    }
  }

  lemma BookIsListed(b: Book)
    requires Coherent(b)
    ensures Lines(b.positions, b.keys)
  {
  }

  lemma LinesAreDistinct(b: Book)
    requires Coherent(b)
    ensures Distinct(b.keys)
  {
  }
}
