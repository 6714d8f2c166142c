/** The deterministic execution model of the paper broker: snapshot, impact, fill planner and
    the worst case used to earmark buying power. */
module FillPlan {
  import opened Market
  import opened Rounding
  import opened Costs

  /** `root` stands for `math.sqrt`, known only through its defining square. */
  datatype Config = Config(slippage: real, impactCoef: real, maxParticipation: real, tick: real, root: real -> real) {
    ghost predicate Valid() {
      && tick > 0.0
      && 0.0 < maxParticipation <= 1.0
      && slippage >= 0.0
      && forall x :: x >= 0.0 ==> root(x) >= 0.0 && root(x) * root(x) == x
    }
  }

  datatype Quote = Quote(last: real, volume: int, bid: real, ask: real)

  datatype Snapshot = Snapshot(lastPrice: real, bid: real, ask: real, volume: int) {
    /** What a snapshot taken on a whole-paise tick grid satisfies (SnapshotSane). */
    predicate Sane() {
      && bid > 0.0 && ask > 0.0
      && Round2(bid) == bid && Round2(ask) == ask
    }

    function Touch(side: Side): real { if side == Buy then ask else bid }
  }

  datatype Plan = Rest | Refuse(reason: Reason) | Fill(qty: int, price: real)

  // ---------------------------------------------------------------- snapshot

  function ModelHalfSpreadBps(price: real, volume: int, tick: real): real {
    var turnover := price * (if volume > 0 then volume else 0) as real;
    var bps :=
      if turnover >= 1000000000.0 then 2.0
      else if turnover >= 100000000.0 then 5.0
      else if turnover >= 10000000.0 then 15.0
      else 40.0;
    MaxReal(bps, (tick / 2.0) / MaxReal(price, 0.000000001) * 10000.0)
  }

  function HalfSpread(q: Quote, tick: real): real
    requires q.last > 0.0
  {
    var model := ModelHalfSpreadBps(q.last, q.volume, tick);
    var bps :=
      if q.ask > q.bid > 0.0 then MaxReal((q.ask - q.bid) / 2.0 / q.last * 10000.0, model)
      else model;
    q.last * bps / 10000.0
  }

  function TakeSnapshot(q: Quote, tick: real): Snapshot
    requires q.last > 0.0 && tick > 0.0
  {
    var half := HalfSpread(q, tick);
    Snapshot(q.last, MaxReal(FloorTick(q.last - half, tick), tick), CeilTick(q.last + half, tick), q.volume)
  }

  /** On a whole-paise tick every snapshot is sane and its touch brackets at least one tick. */
  lemma SnapshotSane(q: Quote, tick: real)
    requires q.last > 0.0 && tick > 0.0 && Round2(tick) == tick
    ensures TakeSnapshot(q, tick).Sane()
    ensures TakeSnapshot(q, tick).bid <= TakeSnapshot(q, tick).ask
    ensures Round2(q.last) <= TakeSnapshot(q, tick).ask
  {
    hide Round2, HalfSpread, Grid;
    var half := HalfSpread(q, tick);
    HalfSpreadPositive(q, tick);
    GridOnPaise(Ticks(q.last - half, tick).Floor, tick);
    GridOnPaise(Ceil(Ticks(q.last + half, tick)), tick);
    TickOnGrid(tick, q.last + half);
    FloorTickBelow(q.last - half, tick);
    CeilTickAbove(q.last + half, tick);
    Round2Monotone(q.last - half, q.last + half);
    Round2Monotone(q.last, q.last + half);
  }

  lemma HalfSpreadPositive(q: Quote, tick: real)
    requires q.last > 0.0 && tick > 0.0
    ensures HalfSpread(q, tick) > 0.0
  {
    var bps := HalfSpread(q, tick);
    assert ModelHalfSpreadBps(q.last, q.volume, tick) >= 2.0;
  }

  lemma TickOnGrid(tick: real, x: real)
    requires tick > 0.0 && x > 0.0
    ensures CeilTick(x, tick) >= Round2(tick)
  {
    assert Ticks(x, tick) > 0.0;
    GridMonotone(1, Ceil(Ticks(x, tick)), tick);
  }

  // ---------------------------------------------------------------- impact

  function Participation(qty: int, volume: int): real
    requires volume > 0
  {
    qty as real / volume as real
  }

  function ImpactFrac(c: Config, qty: int, volume: int): real {
    if volume <= 0 then 1.0
    else MaxReal(c.slippage, c.impactCoef * c.root(Participation(qty, volume)))
  }

  /** Participation whose square-root impact is exactly `allowed`. */
  function MaxParticipation(allowed: real, coef: real): real
    requires coef > 0.0
  {
    (allowed / coef) * (allowed / coef)
  }

  function SharesOf(participation: real, volume: int): int { (participation * volume as real).Floor }

  const UNBOUNDED := 1_000_000_000_000

  function Allowed(limit: real, touch: real, side: Side): real
    requires touch > 0.0
  {
    if side == Buy then limit / touch - 1.0 else 1.0 - limit / touch
  }

  function MaxQtyWithinLimit(c: Config, limit: real, touch: real, volume: int, side: Side): int
    requires touch > 0.0
  {
    var allowed := Allowed(limit, touch, side);
    if allowed < c.slippage then 0
    else if c.impactCoef <= 0.0 then UNBOUNDED
    else SharesOf(MaxParticipation(allowed, c.impactCoef), volume)
  }

  function MarkedUp(base: real, frac: real): real { base * (1.0 + frac) }

  function MarkedDown(base: real, frac: real): real { base * (1.0 - frac) }

  /** Price the whole size would pay after impact. */
  function Impacted(c: Config, touch: real, qty: int, volume: int, side: Side): real {
    if side == Buy then MarkedUp(touch, ImpactFrac(c, qty, volume))
    else MarkedDown(touch, ImpactFrac(c, qty, volume))
  }

  predicate WithinLimit(price: real, limit: real, side: Side) {
    if side == Buy then price <= limit else price >= limit
  }

  function SnapLimit(c: Config, price: real, side: Side): real
    requires c.tick > 0.0
  {
    if side == Buy then FloorTick(price, c.tick) else CeilTick(price, c.tick)
  }

  function TowardsTrader(c: Config, raw: real, side: Side): real
    requires c.tick > 0.0
  {
    if side == Buy then CeilTick(raw, c.tick) else FloorTick(raw, c.tick)
  }

  // ---------------------------------------------------------------- planner

  function PlanFill(c: Config, side: Side, kind: OrderKind, price: real, remaining: int, snap: Snapshot): Plan
    requires c.tick > 0.0 && snap.bid > 0.0 && snap.ask > 0.0
  {
    if remaining <= 0 then Rest
    else if snap.volume <= 0 then Refuse(NoLiquidityData)
    else
      var capacity := (snap.volume as real * c.maxParticipation).Floor;
      if capacity < 1 then Refuse(NoLiquidity)
      else
        var touch := snap.Touch(side);
        match kind
        case MarketOrder =>
          var qty := Min(remaining, capacity);
          Fill(qty, TowardsTrader(c, Impacted(c, touch, qty, snap.volume, side), side))
        case LimitOrder =>
          var limit := SnapLimit(c, price, side);
          if !WithinLimit(touch, limit, side) then Rest
          else
            var qty := Min(Min(remaining, capacity), MaxQtyWithinLimit(c, limit, touch, snap.volume, side));
            if qty < 1 then Rest
            else
              var rounded := TowardsTrader(c, Impacted(c, touch, qty, snap.volume, side), side);
              Fill(qty, if side == Buy then MinReal(limit, rounded) else MaxReal(limit, rounded))
        case _ =>
          if (if side == Buy then touch < price else touch > price) then Rest
          else
            var qty := Min(remaining, capacity);
            var rounded := TowardsTrader(c, Impacted(c, touch, qty, snap.volume, side), side);
            Fill(qty, if side == Buy then MaxReal(price, rounded) else MinReal(price, rounded))
  }

  /** Buying power earmarked for a BUY. `price` is the caller's limit price, not the trigger. */
  function WorstCaseOutflow(c: Config, qty: int, price: real, kind: OrderKind, product: Product, snap: Snapshot): int
    requires c.tick > 0.0
  {
    var ref :=
      if kind == LimitOrder then SnapLimit(c, price, Buy)
      else
        var base := if kind == MarketOrder then snap.ask else MaxReal(price, snap.ask);
        CeilTick(MarkedUp(base, ImpactFrac(c, qty, if snap.volume > 1 then snap.volume else 1)), c.tick);
    qty * ToPaise(ref) + CostsPaise(Buy, qty, ref, product)
  }

  function Outflow(qty: int, price: real, product: Product): int {
    qty * ToPaise(price) + CostsPaise(Buy, qty, price, product)
  }

  // ---------------------------------------------------------------- impact lemmas

  lemma SquareOrder(r: real, s: real)
    requires r >= 0.0 && s >= 0.0
    ensures r <= s <==> r * r <= s * s
  {
    var d := r - s;
    assert r * r - s * s == d * (r + s);
    if d > 0.0 {
      assert r + s > 0.0;
      assert d * (r + s) > 0.0;
    } else {
      assert d * (r + s) <= 0.0;
    }
  }

  lemma RootBelow(c: Config, x: real, s: real)
    requires c.Valid() && x >= 0.0 && s >= 0.0
    ensures c.root(x) <= s <==> x <= s * s
  {
    SquareOrder(c.root(x), s);
  }

  lemma RootMonotone(c: Config, x: real, y: real)
    requires c.Valid() && 0.0 <= x <= y
    ensures c.root(x) <= c.root(y)
  {
    RootBelow(c, x, c.root(y));
  }

  lemma ParticipationMonotone(q: int, q': int, volume: int)
    requires 0 <= q <= q' && volume > 0
    ensures 0.0 <= Participation(q, volume) <= Participation(q', volume)
  {
    var v := volume as real;
    assert q' as real / v - q as real / v == (q' - q) as real / v;
  }

  /** Impact never shrinks when the order grows. */
  lemma ImpactMonotone(c: Config, q: int, q': int, volume: int)
    requires c.Valid() && 0 <= q <= q'
    ensures 0.0 <= ImpactFrac(c, q, volume) <= ImpactFrac(c, q', volume)
  {
    if volume > 0 {
      ParticipationMonotone(q, q', volume);
      var x, y := Participation(q, volume), Participation(q', volume);
      RootMonotone(c, x, y);
      if c.impactCoef >= 0.0 {
        assert c.impactCoef * c.root(x) <= c.impactCoef * c.root(y);
      } else {
        assert c.impactCoef * c.root(x) <= 0.0;
      }
    }
  }

  lemma ScaledRoot(c: Config, x: real, allowed: real)
    requires c.Valid() && c.impactCoef > 0.0 && x >= 0.0 && allowed >= 0.0
    ensures c.impactCoef * c.root(x) <= allowed
       <==> x <= MaxParticipation(allowed, c.impactCoef)
  {
    var s := allowed / c.impactCoef;
    assert s * c.impactCoef == allowed;
    RootBelow(c, x, s);
    assert (c.root(x) - s) * c.impactCoef == c.impactCoef * c.root(x) - allowed;
  }

  lemma FloorOfScaled(n: int, p: real, volume: int)
    requires volume > 0
    ensures n <= SharesOf(p, volume) <==> Participation(n, volume) <= p
  {
    var x := Participation(n, volume);
    assert x * volume as real == n as real;
    assert (p - x) * volume as real == p * volume as real - n as real;
  }

  lemma ImpactWithinAllowed(c: Config, limit: real, touch: real, qty: int, volume: int, side: Side)
    requires touch > 0.0
    ensures WithinLimit(Impacted(c, touch, qty, volume, side), limit, side)
       <==> ImpactFrac(c, qty, volume) <= Allowed(limit, touch, side)
  {
    hide ImpactFrac;
    var f := ImpactFrac(c, qty, volume);
    var a := Allowed(limit, touch, side);
    var ratio := limit / touch;
    assert ratio * touch == limit;
    SameSign(a - f, touch);
    if side == Buy {
      assert (a - f) * touch == ratio * touch - touch - f * touch;
      assert MarkedUp(touch, f) == touch + f * touch;
    } else {
      assert (a - f) * touch == touch - ratio * touch - f * touch;
      assert MarkedDown(touch, f) == touch - f * touch;
    }
  }

  lemma SameSign(x: real, t: real)
    requires t > 0.0
    ensures x * t >= 0.0 <==> x >= 0.0
  {
  }

  lemma CapInverts(c: Config, limit: real, touch: real, volume: int, side: Side, n: int)
    requires c.Valid() && touch > 0.0 && volume > 0 && n >= 1 && c.impactCoef > 0.0
    ensures n <= MaxQtyWithinLimit(c, limit, touch, volume, side)
       <==> ImpactFrac(c, n, volume) <= Allowed(limit, touch, side)
  {
    hide Allowed, Participation, MaxParticipation, SharesOf;
    var allowed := Allowed(limit, touch, side);
    ParticipationMonotone(0, n, volume);
    if allowed >= c.slippage {
      ScaledRoot(c, Participation(n, volume), allowed);
      FloorOfScaled(n, MaxParticipation(allowed, c.impactCoef), volume);
    }
  }

  lemma FlatImpactInverts(c: Config, limit: real, touch: real, volume: int, side: Side, n: int)
    requires c.Valid() && touch > 0.0 && volume > 0 && n >= 1 && c.impactCoef <= 0.0
    ensures n <= MaxQtyWithinLimit(c, limit, touch, volume, side)
       <==> ImpactFrac(c, n, volume) <= Allowed(limit, touch, side) && n <= UNBOUNDED
  {
    hide Allowed, Participation;
    var x := Participation(n, volume);
    ParticipationMonotone(0, n, volume);
    assert c.root(x) >= 0.0;
    assert c.impactCoef * c.root(x) <= 0.0;
  }

  /** The quantity cap is the exact inverse of the square-root law: a size fits under the cap
      precisely when its impacted price still respects the limit. */
  lemma LimitInversion(c: Config, limit: real, touch: real, volume: int, side: Side, n: int)
    requires c.Valid() && touch > 0.0 && volume > 0 && n >= 1
    ensures n <= MaxQtyWithinLimit(c, limit, touch, volume, side)
       <==> WithinLimit(Impacted(c, touch, n, volume, side), limit, side)
            && (c.impactCoef <= 0.0 ==> n <= UNBOUNDED)
  {
    hide Impacted, MaxQtyWithinLimit, Allowed, ImpactFrac;
    ImpactWithinAllowed(c, limit, touch, n, volume, side);
    if c.impactCoef > 0.0 {
      CapInverts(c, limit, touch, volume, side, n);
    } else {
      FlatImpactInverts(c, limit, touch, volume, side, n);
    }
  }

  // ---------------------------------------------------------------- planner lemmas

  lemma ImpactedPastTouch(c: Config, touch: real, qty: int, volume: int, side: Side)
    requires c.Valid() && qty >= 0 && touch > 0.0
    ensures side == Buy ==> Impacted(c, touch, qty, volume, side) >= touch
    ensures side == Sell ==> Impacted(c, touch, qty, volume, side) <= touch
  {
    ImpactMonotone(c, qty, qty, volume);
    var f := ImpactFrac(c, qty, volume);
    assert touch * f >= 0.0;
  }

  lemma RoundedPastTouch(c: Config, snap: Snapshot, qty: int, side: Side)
    requires c.Valid() && qty >= 0 && snap.Sane()
    ensures side == Buy ==> TowardsTrader(c, Impacted(c, snap.ask, qty, snap.volume, side), side) >= snap.ask
    ensures side == Sell ==> TowardsTrader(c, Impacted(c, snap.bid, qty, snap.volume, side), side) <= snap.bid
  {
    hide Impacted, Round2, CeilTick, FloorTick;
    var touch := snap.Touch(side);
    var raw := Impacted(c, touch, qty, snap.volume, side);
    ImpactedPastTouch(c, touch, qty, snap.volume, side);
    if side == Buy {
      CeilTickAbove(raw, c.tick);
      Round2Monotone(touch, raw);
    } else {
      FloorTickBelow(raw, c.tick);
      Round2Monotone(raw, touch);
    }
  }

  /** No fill is better than the touch, no limit fill is worse than the limit, and no stop fill
      is better than its trigger; size stays within the order and the liquidity budget. */
  lemma FillIsHonest(c: Config, side: Side, kind: OrderKind, price: real, remaining: int, snap: Snapshot)
    requires c.Valid() && snap.Sane()
    requires PlanFill(c, side, kind, price, remaining, snap).Fill?
    ensures var f := PlanFill(c, side, kind, price, remaining, snap);
      && 1 <= f.qty <= remaining
      && f.qty as real <= snap.volume as real * c.maxParticipation
      && (side == Buy ==> f.price >= snap.ask)
      && (side == Sell ==> f.price <= snap.bid)
      && (kind == LimitOrder ==>
            && WithinLimit(f.price, SnapLimit(c, price, side), side)
            && WithinLimit(Impacted(c, snap.Touch(side), f.qty, snap.volume, side), SnapLimit(c, price, side), side))
      && (kind in {StopLimit, StopMarket} ==>
            if side == Buy then f.price >= price && snap.ask >= price else f.price <= price && snap.bid <= price)
  {
    hide Impacted, Round2, CeilTick, FloorTick, MaxQtyWithinLimit;
    var f := PlanFill(c, side, kind, price, remaining, snap);
    RoundedPastTouch(c, snap, f.qty, side);
    if kind == LimitOrder {
      LimitInversion(c, SnapLimit(c, price, side), snap.Touch(side), snap.volume, side, f.qty);
    }
  }

  /** The touch moved by the impact of this size, against the trader. */
  function PriceAfterImpact(c: Config, side: Side, qty: int, snap: Snapshot): real {
    if side == Buy then snap.ask * (1.0 + ImpactFrac(c, qty, snap.volume))
    else snap.bid * (1.0 - ImpactFrac(c, qty, snap.volume))
  }

  /** The grid price next to it, again against the trader. */
  ghost predicate FairPrice(c: Config, side: Side, qty: int, snap: Snapshot, price: real)
    requires c.tick > 0.0
  {
    var raw := PriceAfterImpact(c, side, qty, snap);
    if side == Buy then RoundedUp(raw, c.tick, price) else RoundedDown(raw, c.tick, price)
  }

  /** Every fill pays for its own size: a MARKET order the impacted price on the grid, a LIMIT order the
      same but never past its limit, a stop the same but never better than its trigger. */
  lemma FillPaysItsImpact(c: Config, side: Side, kind: OrderKind, price: real, remaining: int, snap: Snapshot)
    requires c.tick > 0.0 && snap.bid > 0.0 && snap.ask > 0.0
    requires PlanFill(c, side, kind, price, remaining, snap).Fill?
    ensures var f := PlanFill(c, side, kind, price, remaining, snap);
      exists fair :: FairPrice(c, side, f.qty, snap, fair)
        && f.price == match kind
                      case MarketOrder => fair
                      case LimitOrder =>
                        var limit := SnapLimit(c, price, side);
                        if side == Buy then (if fair < limit then fair else limit)
                        else (if fair > limit then fair else limit)
                      case _ => if side == Buy then (if fair > price then fair else price)
                                else (if fair < price then fair else price)
  {
    hide Round2, FloorTick, CeilTick, ImpactFrac, MaxQtyWithinLimit;
    var f := PlanFill(c, side, kind, price, remaining, snap);
    var raw := PriceAfterImpact(c, side, f.qty, snap);
    TickRounding(raw, c.tick);
    assert raw == Impacted(c, snap.Touch(side), f.qty, snap.volume, side);
    var fair := TowardsTrader(c, raw, side);
    assert FairPrice(c, side, f.qty, snap, fair);
  }

  /** A purchase of 1000 at an ask of 100 in a market of 10000 shares fills at 100.65. */
  lemma ImpactInFigures(c: Config)
    requires c.Valid() && c.slippage == 0.0005 && c.impactCoef == 0.02 && c.maxParticipation == 0.1 && c.tick == 0.05
    ensures PlanFill(c, Buy, MarketOrder, 0.0, 1000, Snapshot(100.0, 99.95, 100.0, 10000)) == Fill(1000, 100.65)
  {
    var root := c.root(0.1);
    assert Participation(1000, 10000) == 0.1;
    SquareOrder(0.316, root);
    SquareOrder(root, 0.317);
    var f := ImpactFrac(c, 1000, 10000);
    assert 0.00632 <= f <= 0.00634;
    assert 2012.0 < Ticks(MarkedUp(100.0, f), 0.05) <= 2013.0;
    assert Ceil(Ticks(MarkedUp(100.0, f), 0.05)) == 2013;
    assert Grid(2013, 0.05) == 100.65 by { RoundHalfEvenWhole(10065); }
  }

  /** The impact law itself, without naming a root: never below the floor, and above it the square of
      the impact over the coefficient is the share of the volume. */
  lemma ImpactLaw(c: Config, qty: int, volume: int)
    requires c.Valid() && qty >= 0 && volume > 0 && c.impactCoef > 0.0
    ensures var f := ImpactFrac(c, qty, volume);
      && f >= c.slippage
      && (f / c.impactCoef) * (f / c.impactCoef) >= qty as real / volume as real
      && (f > c.slippage ==> (f / c.impactCoef) * (f / c.impactCoef) == qty as real / volume as real)
  {
    var x := Participation(qty, volume);
    ParticipationMonotone(0, qty, volume);
    var r := c.root(x);
    var f := ImpactFrac(c, qty, volume);
    ScaledByCoef(r, c.impactCoef);
    if f > c.slippage {
      assert f / c.impactCoef == r;
    } else {
      DividedByCoef(c.impactCoef * r, f, c.impactCoef);
      SquareOrder(r, f / c.impactCoef);
    }
  }

  lemma ScaledByCoef(r: real, k: real)
    requires k > 0.0
    ensures (k * r) / k == r
  {
  }

  lemma DividedByCoef(a: real, b: real, k: real)
    requires k > 0.0 && a <= b
    ensures a / k <= b / k
  {
    assert b / k - a / k == (b - a) / k;
  }

  /** When the planner does not fill, it says why: no known volume, less than one share of liquidity,
      or nothing at all, and then the order rests. */
  lemma PlanVerdict(c: Config, side: Side, kind: OrderKind, price: real, remaining: int, snap: Snapshot)
    requires c.Valid() && snap.Sane()
    ensures var p := PlanFill(c, side, kind, price, remaining, snap);
      && (p == Refuse(NoLiquidityData) <==> remaining > 0 && snap.volume <= 0)
      && (p == Refuse(NoLiquidity) <==>
            remaining > 0 && snap.volume > 0 && snap.volume as real * c.maxParticipation < 1.0)
      && (p.Refuse? ==> p.reason in {NoLiquidityData, NoLiquidity})
      && (p.Rest? <==>
            || remaining <= 0
            || (snap.volume > 0 && snap.volume as real * c.maxParticipation >= 1.0
                && !Tradable(c, side, kind, price, remaining, snap, 1)))
  {
    hide Impacted, Round2, CeilTick, FloorTick, MaxQtyWithinLimit, Tradable;
    FillIsLargest(c, side, kind, price, remaining, snap, 1);
    BelowOne(snap.volume as real * c.maxParticipation);
  }

  lemma BelowOne(x: real)
    ensures x.Floor < 1 <==> x < 1.0
  {
  }

  /** The market lets n shares trade now: within the order and the liquidity budget, a limit not
      exceeded by their impacted price, a stop triggered. */
  predicate Tradable(c: Config, side: Side, kind: OrderKind, price: real, remaining: int, snap: Snapshot, n: int)
    requires c.tick > 0.0
  {
    && 1 <= n <= remaining && snap.volume > 0 && n as real <= snap.volume as real * c.maxParticipation
    && (kind == LimitOrder ==>
          && WithinLimit(Impacted(c, snap.Touch(side), n, snap.volume, side), SnapLimit(c, price, side), side)
          && (c.impactCoef <= 0.0 ==> n <= UNBOUNDED))
    && (kind in {StopLimit, StopMarket} ==> if side == Buy then snap.ask >= price else snap.bid <= price)
  }

  /** The planner fills whenever a single share may trade, and then as many as may trade. */
  lemma FillIsLargest(c: Config, side: Side, kind: OrderKind, price: real, remaining: int, snap: Snapshot, n: int)
    requires c.Valid() && snap.Sane()
    ensures var p := PlanFill(c, side, kind, price, remaining, snap);
      && (p.Fill? <==> Tradable(c, side, kind, price, remaining, snap, 1))
      && (p.Fill? ==> Tradable(c, side, kind, price, remaining, snap, p.qty))
      && (Tradable(c, side, kind, price, remaining, snap, n) ==> p.Fill? && n <= p.qty)
  {
    hide Impacted, Round2, CeilTick, FloorTick, MaxQtyWithinLimit;
    if snap.volume > 0 && remaining > 0 && kind == LimitOrder {
      var limit, touch := SnapLimit(c, price, side), snap.Touch(side);
      ImpactedPastTouch(c, touch, 1, snap.volume, side);
      LimitInversion(c, limit, touch, snap.volume, side, 1);
      if n >= 1 {
        ImpactedPastTouch(c, touch, n, snap.volume, side);
        LimitInversion(c, limit, touch, snap.volume, side, n);
      }
      var p := PlanFill(c, side, kind, price, remaining, snap);
      if p.Fill? {
        LimitInversion(c, limit, touch, snap.volume, side, p.qty);
      }
    }
  }

  lemma ScaleUp(a: real, b: real, f: real, g: real)
    requires 0.0 <= a <= b && 0.0 <= f <= g
    ensures MarkedUp(a, f) <= MarkedUp(b, g)
  {
    assert (b - a) * (1.0 + g) >= 0.0;
    assert a * (g - f) >= 0.0;
    assert b * (1.0 + g) == a * (1.0 + f) + a * (g - f) + (b - a) * (1.0 + g);
  }

  lemma OutflowMonotone(q: int, p: real, q': int, p': real, product: Product)
    requires 0 <= q <= q' && 0.0 <= p <= p'
    ensures 0 <= Outflow(q, p, product) <= Outflow(q', p', product)
  {
    hide CostsPaise;
    CostsPaiseMonotone(Buy, q, p, q', p', product);
    CostsNonNegative(Buy, q, p, product);
    ToPaiseMonotone(p, p');
    ToPaiseMonotone(0.0, p);
    var x, y := ToPaise(p), ToPaise(p');
    assert q' * y == q * x + q * (y - x) + (q' - q) * y;
    assert q * (y - x) >= 0 && (q' - q) * y >= 0;
    assert q * x >= 0;
  }

  lemma UnlimitedCovers(c: Config, base: real, qty: int, fillQty: int, product: Product, snap: Snapshot)
    requires c.Valid() && snap.Sane() && snap.volume > 0
    requires base >= snap.ask && 0 <= fillQty <= qty
    ensures var worst := CeilTick(MarkedUp(base, ImpactFrac(c, qty, snap.volume)), c.tick);
            var paid := TowardsTrader(c, Impacted(c, snap.ask, fillQty, snap.volume, Buy), Buy);
      snap.ask <= paid && 0 <= Outflow(fillQty, paid, product) <= Outflow(qty, worst, product)
  {
    hide Round2, CeilTick, ImpactFrac, Outflow, MarkedUp;
    var f, g := ImpactFrac(c, fillQty, snap.volume), ImpactFrac(c, qty, snap.volume);
    ImpactMonotone(c, fillQty, qty, snap.volume);
    ScaleUp(snap.ask, base, f, g);
    CeilTickMonotone(MarkedUp(snap.ask, f), MarkedUp(base, g), c.tick);
    RoundedPastTouch(c, snap, fillQty, Buy);
    OutflowMonotone(fillQty, CeilTick(MarkedUp(snap.ask, f), c.tick), qty, CeilTick(MarkedUp(base, g), c.tick),
                    product);
  }

  /** The earmark covers whatever the planner produces against the same snapshot, for every order
      type and whatever trigger accompanies the caller's price. */
  lemma WorstCaseCovers(c: Config, kind: OrderKind, price: real, trigger: real, qty: int, product: Product,
                        snap: Snapshot)
    requires c.Valid() && snap.Sane()
    requires kind in {MarketOrder, LimitOrder} ==> trigger == price
    requires PlanFill(c, Buy, kind, trigger, qty, snap).Fill?
    ensures var f := PlanFill(c, Buy, kind, trigger, qty, snap);
      0 <= Outflow(f.qty, f.price, product) <= WorstCaseOutflow(c, qty, price, kind, product, snap)
  {
    hide Round2, CeilTick, FloorTick, MaxQtyWithinLimit, CostsPaise, ImpactFrac, Impacted;
    var f := PlanFill(c, Buy, kind, trigger, qty, snap);
    FillIsHonest(c, Buy, kind, trigger, qty, snap);
    if kind == LimitOrder {
      OutflowMonotone(f.qty, f.price, qty, SnapLimit(c, price, Buy), product);
    } else {
      var base := if kind == MarketOrder then snap.ask else MaxReal(price, snap.ask);
      UnlimitedCovers(c, base, qty, f.qty, product, snap);
    }
  }

  /** The earmark is no larger than it must be: for a LIMIT order it is what the whole order would cost at
      its limit, for the others what it does cost when it fills whole on the same snapshot, its trigger
      being the price it was sized with. */
  lemma WorstCaseIsAttained(c: Config, kind: OrderKind, price: real, qty: int, product: Product, snap: Snapshot)
    requires c.Valid() && snap.Sane()
    ensures kind == LimitOrder ==>
      WorstCaseOutflow(c, qty, price, kind, product, snap) == Outflow(qty, SnapLimit(c, price, Buy), product)
    ensures var p := PlanFill(c, Buy, kind, price, qty, snap);
      kind != LimitOrder && p.Fill? && p.qty == qty ==>
        WorstCaseOutflow(c, qty, price, kind, product, snap) == Outflow(p.qty, p.price, product)
  {
    hide Round2, FloorTick, MaxQtyWithinLimit, CostsPaise, ImpactFrac, CeilTick;
    var p := PlanFill(c, Buy, kind, price, qty, snap);
    if kind != LimitOrder && p.Fill? && p.qty == qty {
      FillIsHonest(c, Buy, kind, price, qty, snap);
      FillIsLargest(c, Buy, kind, price, qty, snap, 1);
      RoundedPastTouch(c, snap, qty, Buy);
    }
  }

  // ---------------------------------------------------------------- the spread

  /** What the model charges of a price on a day with this turnover. */
  function ModelledShare(turnover: real): real {
    if turnover >= 1000000000.0 then 0.0002
    else if turnover >= 100000000.0 then 0.0005
    else if turnover >= 10000000.0 then 0.0015
    else 0.004
  }

  function Modelled(last: real, volume: int): real {
    last * ModelledShare(last * (if volume > 0 then volume else 0) as real)
  }

  /** Half the spread is the widest of three: half of what the quote shows, half a tick, and a share of the
      price that depends on the day's turnover only. */
  lemma HalfSpreadMeans(q: Quote, tick: real)
    requires q.last > 0.000000001 && tick > 0.0
    ensures var half, quoted := HalfSpread(q, tick), (q.ask - q.bid) / 2.0;
      && half >= tick / 2.0 && half >= Modelled(q.last, q.volume) && (q.ask > q.bid > 0.0 ==> half >= quoted)
      && (half == tick / 2.0 || half == Modelled(q.last, q.volume) || (q.ask > q.bid > 0.0 && half == quoted))
  {
    hide HalfSpread, ModelHalfSpreadBps, Modelled, ShownBps;
    ModelMeans(q.last, q.volume, tick);
    HalfSpreadShape(q, tick);
    ShownMeans(q);
    Wider(q.last, ShownBps(q), ModelHalfSpreadBps(q.last, q.volume, tick));
  }

  function ShownBps(q: Quote): real
    requires q.last > 0.0
  {
    (q.ask - q.bid) / 2.0 / q.last * 10000.0
  }

  lemma ShownMeans(q: Quote)
    requires q.last > 0.0
    ensures q.last * ShownBps(q) / 10000.0 == (q.ask - q.bid) / 2.0
  {
    InBasisPoints(q.last, (q.ask - q.bid) / 2.0);
  }

  lemma HalfSpreadShape(q: Quote, tick: real)
    requires q.last > 0.0
    ensures var model := ModelHalfSpreadBps(q.last, q.volume, tick);
      HalfSpread(q, tick)
      == q.last * (if q.ask > q.bid > 0.0 then MaxReal(ShownBps(q), model) else model) / 10000.0
  {
    hide ModelHalfSpreadBps;
  }

  lemma Wider(last: real, a: real, b: real)
    requires last > 0.0
    ensures last * MaxReal(a, b) / 10000.0 == MaxReal(last * a / 10000.0, last * b / 10000.0)
  {
    if a <= b {
      MoreBasisPoints(last, a, b);
    } else {
      MoreBasisPoints(last, b, a);
    }
  }

  lemma ModelMeans(last: real, volume: int, tick: real)
    requires last > 0.000000001 && tick > 0.0
    ensures var half := last * ModelHalfSpreadBps(last, volume, tick) / 10000.0;
      && half >= tick / 2.0 && half >= Modelled(last, volume)
      && (half == tick / 2.0 || half == Modelled(last, volume))
  {
    var turnover := last * (if volume > 0 then volume else 0) as real;
    var tier := ModelledShare(turnover) * 10000.0;
    var floor := (tick / 2.0) / last * 10000.0;
    assert ModelHalfSpreadBps(last, volume, tick) == MaxReal(tier, floor);
    hide ModelHalfSpreadBps;
    InBasisPoints(last, tick / 2.0);
    Tier(last, ModelledShare(turnover));
    hide ModelledShare;
    if tier <= floor {
      MoreBasisPoints(last, tier, floor);
    } else {
      MoreBasisPoints(last, floor, tier);
    }
  }

  lemma Tier(last: real, share: real)
    ensures last * (share * 10000.0) / 10000.0 == last * share
  {
  }

  lemma InBasisPoints(last: real, x: real)
    requires last > 0.0
    ensures last * (x / last * 10000.0) / 10000.0 == x
  {
    var y := x / last;
    assert y * last == x;
    assert last * (y * 10000.0) == (y * last) * 10000.0;
  }

  lemma MoreBasisPoints(last: real, a: real, b: real)
    requires last > 0.0 && a <= b
    ensures last * a / 10000.0 <= last * b / 10000.0
  {
    assert last * (b - a) >= 0.0;
    assert last * b == last * a + last * (b - a);
  }

  ghost predicate AtLeastATick(raw: real, tick: real, bid: real)
    requires tick > 0.0
  {
    exists down :: RoundedDown(raw, tick, down) && bid == if down >= tick then down else tick
  }

  /** The bid is the last grid price not above the mid less half the spread, at least one tick; the ask
      the first not below the mid plus half the spread. */
  lemma SnapshotOnGrid(q: Quote, tick: real)
    requires q.last > 0.0 && tick > 0.0
    ensures var s := TakeSnapshot(q, tick);
      && RoundedUp(q.last + HalfSpread(q, tick), tick, s.ask)
      && AtLeastATick(q.last - HalfSpread(q, tick), tick, s.bid)
      && s.lastPrice == q.last && s.volume == q.volume
  {
    hide HalfSpread, Grid, RoundedUp, RoundedDown, FloorTick, CeilTick;
    TickRounding(q.last + HalfSpread(q, tick), tick);
    TickRounding(q.last - HalfSpread(q, tick), tick);
    var down := FloorTick(q.last - HalfSpread(q, tick), tick);
    assert RoundedDown(q.last - HalfSpread(q, tick), tick, down);
  }
}
