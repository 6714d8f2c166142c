/** The Zerodha cost schedule. Amounts are rupees; `round(_, 4)` on each field is taken as exact. */
module Costs {
  import opened Market
  import opened Rounding

  const INTRADAY_BROKERAGE_PCT := 0.0003
  const INTRADAY_BROKERAGE_MAX := 20.0
  const DELIVERY_BROKERAGE_PCT := 0.0
  const INTRADAY_STT_SELL_PCT := 0.00025
  const DELIVERY_STT_BUY_PCT := 0.001
  const DELIVERY_STT_SELL_PCT := 0.001
  const NSE_EXCHANGE_CHARGE_PCT := 0.0000322
  const SEBI_CHARGE_PCT := 0.000001
  const GST_PCT := 0.18
  const INTRADAY_STAMP_DUTY_PCT := 0.00003
  const DELIVERY_STAMP_DUTY_PCT := 0.00015
  const DP_CHARGE := 15.93

  datatype CostBreakdown = CostBreakdown(
    brokerage: real, stt: real, exchangeCharge: real, sebiCharge: real,
    gst: real, stampDuty: real, dpCharges: real, total: real)

  /** Cover and bracket orders are charged as MIS. */
  predicate ChargedIntraday(p: Product) { p in {MIS, CO, BO} }

  function Breakdown(side: Side, value: real, product: Product): CostBreakdown {
    if value <= 0.0 then CostBreakdown(0.0, 0.0, 0.0, 0.0, 0.0, 0.0, 0.0, 0.0)
    else
      var intraday := ChargedIntraday(product);
      var brokerage :=
        if intraday then MinReal(value * INTRADAY_BROKERAGE_PCT, INTRADAY_BROKERAGE_MAX)
        else value * DELIVERY_BROKERAGE_PCT;
      var stt :=
        if intraday then (if side == Sell then value * INTRADAY_STT_SELL_PCT else 0.0)
        else if side == Buy then value * DELIVERY_STT_BUY_PCT
        else value * DELIVERY_STT_SELL_PCT;
      var exchange := value * NSE_EXCHANGE_CHARGE_PCT;
      var sebi := value * SEBI_CHARGE_PCT;
      var gst := (brokerage + exchange + sebi) * GST_PCT;
      var stamp :=
        if side == Buy then value * (if intraday then INTRADAY_STAMP_DUTY_PCT else DELIVERY_STAMP_DUTY_PCT)
        else 0.0;
      var dp := if !intraday && side == Sell then DP_CHARGE else 0.0;
      CostBreakdown(brokerage, stt, exchange, sebi, gst, stamp, dp,
                    brokerage + stt + exchange + sebi + gst + stamp + dp)
  }

  function CalculateCosts(side: Side, qty: int, price: real, product: Product): CostBreakdown {
    Breakdown(side, qty as real * price, product)
  }

  function CostsPaise(side: Side, qty: int, price: real, product: Product): int {
    ToPaise(CalculateCosts(side, qty, price, product).total)
  }

  lemma TotalMonotone(side: Side, v: real, w: real, product: Product)
    requires v <= w
    ensures 0.0 <= Breakdown(side, v, product).total <= Breakdown(side, w, product).total
  {
  }

  lemma CostsNonNegative(side: Side, qty: int, price: real, product: Product)
    ensures CostsPaise(side, qty, price, product) >= 0
  {
    TotalMonotone(side, qty as real * price, qty as real * price, product);
  }

  lemma ValueMonotone(q: int, p: real, q': int, p': real)
    requires 0 <= q <= q' && 0.0 <= p <= p'
    ensures q as real * p <= q' as real * p'
  {
    var d := (q' - q) as real;
    assert q' as real == q as real + d;
    assert q as real * (p' - p) >= 0.0;
    assert d * p' >= 0.0;
    assert q' as real * p' == q as real * p + q as real * (p' - p) + d * p';
  }

  /** A bigger or dearer fill never costs less, in whole paise, brokerage cap included. */
  lemma CostsPaiseMonotone(side: Side, q: int, p: real, q': int, p': real, product: Product)
    requires 0 <= q <= q' && 0.0 <= p <= p'
    ensures CostsPaise(side, q, p, product) <= CostsPaise(side, q', p', product)
  {
    ValueMonotone(q, p, q', p');
    TotalMonotone(side, q as real * p, q' as real * p', product);
    ToPaiseMonotone(CalculateCosts(side, q, p, product).total, CalculateCosts(side, q', p', product).total);
  }

  /** Slope of the part of the schedule that is proportional to value. */
  function Slope(side: Side, product: Product): real {
    (NSE_EXCHANGE_CHARGE_PCT + SEBI_CHARGE_PCT) * 1.18 +
    if ChargedIntraday(product) then
      (if side == Sell then INTRADAY_STT_SELL_PCT else INTRADAY_STAMP_DUTY_PCT)
    else if side == Buy then DELIVERY_STT_BUY_PCT + DELIVERY_STAMP_DUTY_PCT
    else DELIVERY_STT_SELL_PCT
  }

  function Brokerage(value: real, product: Product): real {
    if ChargedIntraday(product) then MinReal(value * INTRADAY_BROKERAGE_PCT, INTRADAY_BROKERAGE_MAX) else 0.0
  }

  function FlatCharge(side: Side, product: Product): real {
    if !ChargedIntraday(product) && side == Sell then DP_CHARGE else 0.0
  }

  /** The total is a line, plus brokerage with its GST, plus the flat depository charge. */
  lemma TotalShape(side: Side, value: real, product: Product)
    requires value > 0.0
    ensures Breakdown(side, value, product).total
         == value * Slope(side, product) + Brokerage(value, product) * 1.18 + FlatCharge(side, product)
  {
  }

  lemma CappedShare(v: real, w: real, rate: real, cap: real)
    requires 0.0 < v <= w && rate >= 0.0 && cap >= 0.0
    ensures MinReal(w * rate, cap) * v <= MinReal(v * rate, cap) * w
  {
    assert (w * rate) * v == (v * rate) * w;
    assert cap * v <= cap * w;
    assert v * rate <= w * rate;
    if w * rate <= cap {
    } else if v * rate <= cap {
      assert cap * v <= (w * rate) * v;
    }
  }

  lemma CrossMultiply(v: real, w: real, a: real, x: real, y: real, d: real)
    requires 0.0 < v <= w && y * v <= x * w && d >= 0.0
    ensures (w * a + y * 1.18 + d) * v <= (v * a + x * 1.18 + d) * w
  {
    assert (w * a) * v == (v * a) * w;
    assert (y * 1.18) * v == (y * v) * 1.18;
    assert (x * 1.18) * w == (x * w) * 1.18;
    assert d * v <= d * w;
    assert (w * a + y * 1.18 + d) * v == (w * a) * v + (y * 1.18) * v + d * v;
    assert (v * a + x * 1.18 + d) * w == (v * a) * w + (x * 1.18) * w + d * w;
  }

  /** Cost per rupee traded never rises with the value traded. */
  lemma CostPerRupeeFalls(side: Side, v: real, w: real, product: Product)
    requires 0.0 < v <= w
    ensures Breakdown(side, w, product).total * v <= Breakdown(side, v, product).total * w
  {
    hide Breakdown, Slope;
    TotalShape(side, v, product);
    TotalShape(side, w, product);
    CappedShare(v, w, INTRADAY_BROKERAGE_PCT, INTRADAY_BROKERAGE_MAX);
    CrossMultiply(v, w, Slope(side, product), Brokerage(v, product), Brokerage(w, product),
                  FlatCharge(side, product));
  }

  lemma Unscale(tv: real, tw: real, q: real, q': real, price: real)
    requires price > 0.0 && tw * (q * price) <= tv * (q' * price)
    ensures tw * q <= tv * q'
  {
    assert tw * (q * price) == (tw * q) * price;
    assert tv * (q' * price) == (tv * q') * price;
    assert (tv * q' - tw * q) * price >= 0.0;
  }

  /** Per share, before rounding to paise, the cost of a fill never rises with its size. */
  lemma CostPerShareFalls(side: Side, q: int, q': int, price: real, product: Product)
    requires 0 < q <= q' && price > 0.0
    ensures CalculateCosts(side, q', price, product).total * q as real
         <= CalculateCosts(side, q, price, product).total * q' as real
  {
    hide Breakdown;
    ValueMonotone(q, price, q', price);
    ValuePositive(q, price);
    CostPerRupeeFalls(side, q as real * price, q' as real * price, product);
    Unscale(CalculateCosts(side, q, price, product).total, CalculateCosts(side, q', price, product).total,
            q as real, q' as real, price);
  }

  lemma ValuePositive(q: int, price: real)
    requires q > 0 && price > 0.0
    ensures q as real * price > 0.0
  {
  }

  // ---------------------------------------------------------------- the schedule in figures

  /** One lakh of rupees on each side and schedule, and an intraday purchase below the brokerage cap. */
  lemma ScheduleInFigures()
    ensures Breakdown(Buy, 100000.0, MIS).total == 30.5176
    ensures Breakdown(Sell, 100000.0, MIS).total == 52.5176
    ensures Breakdown(Buy, 100000.0, CNC).total == 118.9176
    ensures Breakdown(Sell, 100000.0, CNC).total == 119.8476
    ensures Breakdown(Buy, 10000.0, MIS).total == 4.23176
    ensures Breakdown(Sell, 100000.0, CO) == Breakdown(Sell, 100000.0, BO) == Breakdown(Sell, 100000.0, MIS)
    ensures Breakdown(Sell, 100000.0, NRML) == Breakdown(Sell, 100000.0, CNC)
  {
  }
}
