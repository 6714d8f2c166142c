/** Money and tick rounding of the paper broker.
    Floats are modelled as exact reals; the noise guard `round(price / tick, 9)` is the identity. */
module Rounding {

  function Min(a: int, b: int): int { if a <= b then a else b }

  function MaxReal(a: real, b: real): real { if a >= b then a else b }

  function MinReal(a: real, b: real): real { if a <= b then a else b }

  function Ceil(x: real): (n: int)
    ensures x <= n as real < x + 1.0
  {
    -((-x).Floor)
  }

  /** Python's `round(x)`: nearest integer, ties to the even one. */
  function RoundHalfEven(x: real): int {
    var f := x.Floor;
    var d := x - f as real;
    if d < 0.5 then f
    else if d > 0.5 then f + 1
    else if f % 2 == 0 then f else f + 1
  }

  /** Python's `round(x, 2)`. */
  function Round2(x: real): real { RoundHalfEven(x * 100.0) as real / 100.0 }

  /** Rupees to whole paise, half away from zero. */
  function ToPaise(rupees: real): int {
    if rupees >= 0.0 then (rupees * 100.0 + 0.5).Floor
    else -((-rupees * 100.0 + 0.5).Floor)
  }

  /** Price of the n-th tick, in whole paise. */
  function Grid(n: int, tick: real): real { Round2(n as real * tick) }

  function Ticks(price: real, tick: real): real
    requires tick > 0.0
  {
    price / tick
  }

  function FloorTick(price: real, tick: real): real
    requires tick > 0.0
  {
    Grid(Ticks(price, tick).Floor, tick)
  }

  function CeilTick(price: real, tick: real): real
    requires tick > 0.0
  {
    Grid(Ceil(Ticks(price, tick)), tick)
  }

  lemma RoundHalfEvenMonotone(x: real, y: real)
    requires x <= y
    ensures RoundHalfEven(x) <= RoundHalfEven(y)
  {
    if x.Floor == y.Floor {
    } else {
      assert x.Floor + 1 <= y.Floor;
    }
  }

  lemma RoundHalfEvenWhole(n: int)
    ensures RoundHalfEven(n as real) == n
  {
  }

  lemma Round2Monotone(x: real, y: real)
    requires x <= y
    ensures Round2(x) <= Round2(y)
  {
    RoundHalfEvenMonotone(x * 100.0, y * 100.0);
  }

  /** Rounding to paise a second time changes nothing. */
  lemma Round2Idempotent(x: real)
    ensures Round2(Round2(x)) == Round2(x)
  {
    var n := RoundHalfEven(x * 100.0);
    assert Round2(x) * 100.0 == n as real;
    RoundHalfEvenWhole(n);
  }

  lemma ToPaiseMonotone(x: real, y: real)
    requires x <= y
    ensures ToPaise(x) <= ToPaise(y)
  {
  }

  lemma TicksMonotone(x: real, y: real, tick: real)
    requires x <= y && tick > 0.0
    ensures Ticks(x, tick) <= Ticks(y, tick)
  {
    assert Ticks(y, tick) - Ticks(x, tick) == (y - x) / tick;
  }

  lemma GridMonotone(m: int, n: int, tick: real)
    requires m <= n && tick > 0.0
    ensures Grid(m, tick) <= Grid(n, tick)
  {
    var d := (n - m) as real;
    assert d * tick >= 0.0;
    assert n as real * tick == m as real * tick + d * tick by {
      assert n as real == m as real + d;
    }
    Round2Monotone(m as real * tick, n as real * tick);
  }

  lemma CeilTickMonotone(x: real, y: real, tick: real)
    requires x <= y && tick > 0.0
    ensures CeilTick(x, tick) <= CeilTick(y, tick)
  {
    TicksMonotone(x, y, tick);
    GridMonotone(Ceil(Ticks(x, tick)), Ceil(Ticks(y, tick)), tick);
  }

  lemma ScaleBack(x: real, tick: real, n: int)
    requires tick > 0.0
    ensures Ticks(x, tick) <= n as real ==> x <= n as real * tick
    ensures n as real <= Ticks(x, tick) ==> n as real * tick <= x
  {
    var t := Ticks(x, tick);
    assert t * tick == x;
    assert (n as real - t) * tick == n as real * tick - x;
  }

  lemma GridOnPaise(n: int, tick: real)
    ensures Round2(Grid(n, tick)) == Grid(n, tick)
  {
    Round2Idempotent(n as real * tick);
  }

  lemma GridAbove(x: real, tick: real, n: int)
    requires tick > 0.0 && Ticks(x, tick) <= n as real
    ensures Round2(x) <= Grid(n, tick)
  {
    ScaleBack(x, tick, n);
    Round2Monotone(x, n as real * tick);
  }

  /** Rounding up to the tick grid never undercuts the paise-rounded price, whatever the tick. */
  lemma CeilTickAbove(x: real, tick: real)
    requires tick > 0.0
    ensures Round2(x) <= CeilTick(x, tick)
  {
    var n := Ceil(Ticks(x, tick));
    GridAbove(x, tick, n);
  }

  lemma GridBelow(x: real, tick: real, n: int)
    requires tick > 0.0 && n as real <= Ticks(x, tick)
    ensures Grid(n, tick) <= Round2(x)
  {
    ScaleBack(x, tick, n);
    Round2Monotone(n as real * tick, x);
  }

  lemma FloorTickBelow(x: real, tick: real)
    requires tick > 0.0
    ensures FloorTick(x, tick) <= Round2(x)
  {
    GridBelow(x, tick, Ticks(x, tick).Floor);
  }

  // ---------------------------------------------------------------- what rounding means

  /** The nearest paisa; whole paise stay. */
  lemma ToPaiseIsNearest(x: real)
    ensures 100.0 * x - 0.5 <= ToPaise(x) as real <= 100.0 * x + 0.5
    ensures x >= 0.0 ==> ToPaise(x) as real > 100.0 * x - 0.5
  {
  }

  /** The nearest integer, the even one when two are as near. */
  lemma RoundHalfEvenIsNearest(x: real)
    ensures x - 0.5 <= RoundHalfEven(x) as real <= x + 0.5
    ensures RoundHalfEven(x) as real == x + 0.5 || RoundHalfEven(x) as real == x - 0.5 ==> RoundHalfEven(x) % 2 == 0
  {
  }

  /** On a whole-paise tick the n-th grid price is n ticks. */
  lemma GridIsMultiple(n: int, tick: real)
    requires Round2(tick) == tick
    ensures Grid(n, tick) == n as real * tick
  {
    var t := RoundHalfEven(tick * 100.0);
    assert tick == t as real / 100.0;
    assert n as real * tick * 100.0 == (n * t) as real by { assert (n * t) as real == n as real * t as real; }
    RoundHalfEvenWhole(n * t);
  }

  /** The least grid price not below. */
  ghost predicate RoundedUp(raw: real, tick: real, price: real)
    requires tick > 0.0
  {
    exists n: int :: price == Grid(n, tick) && (n - 1) as real < raw / tick <= n as real
  }

  /** The greatest grid price not above. */
  ghost predicate RoundedDown(raw: real, tick: real, price: real)
    requires tick > 0.0
  {
    exists n: int :: price == Grid(n, tick) && n as real <= raw / tick < (n + 1) as real
  }

  lemma TickRounding(raw: real, tick: real)
    requires tick > 0.0
    ensures RoundedUp(raw, tick, CeilTick(raw, tick)) && RoundedDown(raw, tick, FloorTick(raw, tick))
  {
    var up, down := Ceil(Ticks(raw, tick)), Ticks(raw, tick).Floor;
    assert CeilTick(raw, tick) == Grid(up, tick) && (up - 1) as real < raw / tick <= up as real;
    assert FloorTick(raw, tick) == Grid(down, tick) && down as real <= raw / tick < (down + 1) as real;
  }
}
