/** One-minute bars built tick by tick, against the bars of the whole session at once. */
module TickBars {
  import opened Market

  /** `ts` in seconds since the epoch; a price that is missing or not finite is None. */
  datatype Tick = Tick(symbol: string, ts: int, aware: bool, price: Option<real>, volume: Option<real>)

  datatype Bar = Bar(start: int, open: real, high: real, low: real, close: real, volume: int)

  datatype State = State(bars: map<string, map<int, Bar>>, date: Option<int>)

  /** A tick that reaches the bars: an invalid price is dropped, a naive timestamp raises. */
  predicate Counts(t: Tick) { t.price.Some? && t.price.value > 0.0 && t.aware }

  /** India is five and a half hours ahead; its minutes are UTC minutes. */
  function DateOf(ts: int): int { (ts + 19800) / 86400 }

  function MinuteOf(ts: int): int { ts / 60 * 60 }

  function Shares(t: Tick): nat {
    if t.volume.Some? && t.volume.value > 0.0 then t.volume.value.Floor else 0
  }

  function Price(t: Tick): real { if t.price.Some? then t.price.value else 0.0 }

  /** A minute is the whole minute a time falls into; two times share a date exactly when no Indian
      midnight lies between them. */
  lemma ClockMeans(a: int, b: int)
    ensures MinuteOf(a) % 60 == 0 && MinuteOf(a) <= a < MinuteOf(a) + 60
    ensures DateOf(a) * 86400 - 19800 <= a < (DateOf(a) + 1) * 86400 - 19800
    ensures a <= b ==> (DateOf(a) < DateOf(b) <==> exists day: int :: a < Midnight(day) <= b)
  {
    if a <= b && DateOf(a) < DateOf(b) {
      assert a < Midnight(DateOf(b)) <= b;
    }
  }

  /** Five and a half hours before the day begins in UTC. */
  function Midnight(day: int): int { day * 86400 - 19800 }

  /** The whole part of a positive volume; none otherwise. */
  lemma SharesMean(t: Tick)
    ensures if t.volume.Some? && t.volume.value > 0.0 then Shares(t) as real <= t.volume.value < Shares(t) as real + 1.0
            else Shares(t) == 0
  {
  }

  // ---------------------------------------------------------------- tick by tick

  function Folded(b: Bar, t: Tick): Bar {
    b.(high := if b.high >= Price(t) then b.high else Price(t), low := if b.low <= Price(t) then b.low else Price(t),
       close := Price(t), volume := b.volume + Shares(t))
  }

  function Bucket(s: State, symbol: string): map<int, Bar> { if symbol in s.bars then s.bars[symbol] else map[] }

  function EnsuredSession(s: State, t: Tick): State {
    if s.date == None || s.date == Some(DateOf(t.ts)) then s.(date := Some(DateOf(t.ts)))
    else State(map[], Some(DateOf(t.ts)))
  }

  function Taken(s: State, t: Tick): State {
    if !Counts(t) then s
    else
      var u, minute := EnsuredSession(s, t), MinuteOf(t.ts);
      var bucket := Bucket(u, t.symbol);
      var bar := if minute in bucket then Folded(bucket[minute], t)
                 else Bar(minute, Price(t), Price(t), Price(t), Price(t), Shares(t));
      u.(bars := u.bars[t.symbol := bucket[minute := bar]])
  }

  function AllTaken(ticks: seq<Tick>): State {
    if ticks == [] then State(map[], None) else Taken(AllTaken(ticks[..|ticks| - 1]), ticks[|ticks| - 1])
  }

  // ---------------------------------------------------------------- all at once

  function Valid(ticks: seq<Tick>): seq<Tick> {
    if ticks == [] then []
    else
      var before, t := Valid(ticks[..|ticks| - 1]), ticks[|ticks| - 1];
      if Counts(t) then before + [t] else before
  }

  /** The longest run of ticks up to the last one that all fall on its date. */
  function Session(valid: seq<Tick>): seq<Tick> {
    if valid == [] then []
    else
      var n := |valid| - 1;
      if n > 0 && DateOf(valid[n - 1].ts) == DateOf(valid[n].ts) then Session(valid[..n]) + [valid[n]] else [valid[n]]
  }

  /** `s` ends `valid`, is all of the last tick's date, and cannot be extended to the left. */
  ghost predicate LongestRun(valid: seq<Tick>, s: seq<Tick>) {
    && 0 < |s| <= |valid| && s == valid[|valid| - |s|..]
    && (forall i :: 0 <= i < |s| ==> DateOf(s[i].ts) == DateOf(valid[|valid| - 1].ts))
    && (|s| < |valid| ==> DateOf(valid[|valid| - |s| - 1].ts) != DateOf(valid[|valid| - 1].ts))
  }

  lemma LongestRunGrows(valid: seq<Tick>, s: seq<Tick>, t: Tick)
    requires LongestRun(valid, s) && DateOf(valid[|valid| - 1].ts) == DateOf(t.ts)
    ensures LongestRun(valid + [t], s + [t])
  {
    hide DateOf;
    var k := |valid| - |s|;
    assert (valid + [t])[k..] == valid[k..] + [t];
    assert |s| < |valid| ==> (valid + [t])[k - 1] == valid[k - 1];
  }

  lemma LongestRunStarts(valid: seq<Tick>, t: Tick)
    requires valid == [] || DateOf(valid[|valid| - 1].ts) != DateOf(t.ts)
    ensures LongestRun(valid + [t], [t])
  {
    hide DateOf;
    assert (valid + [t])[|valid|..] == [t];
  }

  lemma {:induction false} SessionIsTheLongest(valid: seq<Tick>)
    requires valid != []
    ensures LongestRun(valid, Session(valid))
  {
    hide LongestRun, DateOf;
    var n := |valid| - 1;
    assert valid == valid[..n] + [valid[n]];
    if n > 0 && DateOf(valid[n - 1].ts) == DateOf(valid[n].ts) {
      SessionIsTheLongest(valid[..n]);
      LongestRunGrows(valid[..n], Session(valid[..n]), valid[n]);
    } else {
      LongestRunStarts(valid[..n], valid[n]);
    }
  }

  function Of(ticks: seq<Tick>, symbol: string): seq<Tick> {
    if ticks == [] then []
    else
      var before, t := Of(ticks[..|ticks| - 1], symbol), ticks[|ticks| - 1];
      if t.symbol == symbol then before + [t] else before
  }

  function In(ticks: seq<Tick>, minute: int): seq<Tick> {
    if ticks == [] then []
    else
      var before, t := In(ticks[..|ticks| - 1], minute), ticks[|ticks| - 1];
      if MinuteOf(t.ts) == minute then before + [t] else before
  }

  function Highest(g: seq<Tick>): real
    requires g != []
  {
    if |g| == 1 then Price(g[0])
    else if Highest(g[1..]) > Price(g[0]) then Highest(g[1..]) else Price(g[0])
  }

  function Lowest(g: seq<Tick>): real
    requires g != []
  {
    if |g| == 1 then Price(g[0])
    else if Lowest(g[1..]) < Price(g[0]) then Lowest(g[1..]) else Price(g[0])
  }

  function Volume(g: seq<Tick>): nat { if g == [] then 0 else Shares(g[0]) + Volume(g[1..]) }

  lemma {:induction false} ExtremesMean(g: seq<Tick>)
    requires g != []
    ensures forall i :: 0 <= i < |g| ==> Lowest(g) <= Price(g[i]) <= Highest(g)
    ensures exists i :: 0 <= i < |g| && Price(g[i]) == Highest(g)
    ensures exists i :: 0 <= i < |g| && Price(g[i]) == Lowest(g)
  {
    if |g| > 1 {
      ExtremesMean(g[1..]);
      assert forall i :: 1 <= i < |g| ==> g[i] == g[1..][i - 1];
      var h :| 0 <= h < |g[1..]| && Price(g[1..][h]) == Highest(g[1..]);
      var l :| 0 <= l < |g[1..]| && Price(g[1..][l]) == Lowest(g[1..]);
      assert Price(g[h + 1]) == Highest(g[1..]) && Price(g[l + 1]) == Lowest(g[1..]);
    } else {
      assert Price(g[0]) == Highest(g) && Price(g[0]) == Lowest(g);
    }
  }

  /** The bar of all ticks of one symbol and minute. */
  function BarOf(g: seq<Tick>): Bar
    requires g != []
  {
    Bar(MinuteOf(g[0].ts), Price(g[0]), Highest(g), Lowest(g), Price(g[|g| - 1]), Volume(g))
  }

  ghost predicate BucketOf(bucket: map<int, Bar>, g: seq<Tick>) {
    forall minute :: if In(g, minute) == [] then minute !in bucket
                     else minute in bucket && bucket[minute] == BarOf(In(g, minute))
  }

  /** Exactly the bars of these ticks. */
  ghost predicate Bars(s: State, session: seq<Tick>) {
    forall symbol ::
      && (symbol in s.bars <==> Of(session, symbol) != [])
      && BucketOf(Bucket(s, symbol), Of(session, symbol))
  }

  // ---------------------------------------------------------------- they agree

  lemma {:induction false} Extended(g: seq<Tick>, t: Tick)
    requires g != []
    ensures Highest(g + [t]) == if Highest(g) >= Price(t) then Highest(g) else Price(t)
    ensures Lowest(g + [t]) == if Lowest(g) <= Price(t) then Lowest(g) else Price(t)
    ensures Volume(g + [t]) == Volume(g) + Shares(t)
  {
    assert (g + [t])[1..] == g[1..] + [t];
    if |g| > 1 {
      Extended(g[1..], t);
    } else {
      assert g[1..] + [t] == [t] && [t][1..] == [];
    }
  }

  lemma BarGrows(g: seq<Tick>, t: Tick)
    requires g != []
    ensures BarOf(g + [t]) == Folded(BarOf(g), t)
  {
    Extended(g, t);
  }

  /** A later stretch of the same minute moves the close, widens the range and adds its volume. */
  lemma {:induction false} BarsCombine(a: seq<Tick>, b: seq<Tick>)
    requires a != [] && b != []
    ensures var x, y, bar := BarOf(a), BarOf(b), BarOf(a + b);
      && bar.start == x.start && bar.open == x.open && bar.close == y.close && bar.volume == x.volume + y.volume
      && bar.high == (if x.high >= y.high then x.high else y.high)
      && bar.low == (if x.low <= y.low then x.low else y.low)
  {
    hide Price, Shares, MinuteOf;
    assert (a + b)[1..] == a[1..] + b && (a + b)[|a + b| - 1] == b[|b| - 1];
    if |a| > 1 {
      BarsCombine(a[1..], b);
    } else {
      assert a[1..] == [] && [] + b == b;
    }
  }

  lemma {:induction false} InMeans(ticks: seq<Tick>, minute: int)
    ensures var g := In(ticks, minute);
      forall i :: 0 <= i < |g| ==> MinuteOf(g[i].ts) == minute && g[i] in ticks
    ensures In(ticks, minute) != [] <==> exists i :: 0 <= i < |ticks| && MinuteOf(ticks[i].ts) == minute
  {
    if ticks != [] {
      InMeans(ticks[..|ticks| - 1], minute);
      assert forall t :: t in ticks[..|ticks| - 1] ==> t in ticks;
    }
  }

  lemma SnocFilters(ticks: seq<Tick>, t: Tick)
    ensures forall symbol ::
      Of(ticks + [t], symbol) == if symbol == t.symbol then Of(ticks, symbol) + [t] else Of(ticks, symbol)
    ensures forall minute ::
      In(ticks + [t], minute) == if minute == MinuteOf(t.ts) then In(ticks, minute) + [t] else In(ticks, minute)
  {
    assert (ticks + [t])[..|ticks|] == ticks;
  }

  lemma OneMoreTick(s: State, session: seq<Tick>, t: Tick)
    requires Counts(t) && Bars(s, session)
    requires s.date == None || s.date == Some(DateOf(t.ts))
    ensures Bars(Taken(s, t), session + [t])
  {
    hide BucketOf, DateOf, MinuteOf;
    SnocFilters(session, t);
    var minute, u := MinuteOf(t.ts), Taken(s, t);
    assert BucketOf(Bucket(s, t.symbol), Of(session, t.symbol));
    BucketGrows(Bucket(s, t.symbol), Of(session, t.symbol), t);
    forall symbol
      ensures symbol in u.bars <==> Of(session + [t], symbol) != []
      ensures BucketOf(Bucket(u, symbol), Of(session + [t], symbol))
    {
      if symbol != t.symbol {
        assert Bucket(u, symbol) == Bucket(s, symbol);
      }
    }
  }

  lemma BucketGrows(bucket: map<int, Bar>, g: seq<Tick>, t: Tick)
    requires BucketOf(bucket, g)
    ensures var minute := MinuteOf(t.ts);
      var bar := if minute in bucket then Folded(bucket[minute], t)
                 else Bar(minute, Price(t), Price(t), Price(t), Price(t), Shares(t));
      BucketOf(bucket[minute := bar], g + [t])
  {
    hide BarOf, Folded, MinuteOf, Shares, Price, In;
    SnocFilters(g, t);
    var same := In(g, MinuteOf(t.ts));
    if same != [] {
      BarGrows(same, t);
    } else {
      FirstBar(t);
    }
  }

  lemma FirstBar(t: Tick)
    ensures BarOf([t]) == Bar(MinuteOf(t.ts), Price(t), Price(t), Price(t), Price(t), Shares(t))
    ensures [] + [t] == [t]
  {
    assert [t][1..] == [];
    assert Volume([t]) == Shares(t) + Volume([t][1..]);
  }

  /** After any ticks, the bars are exactly those of the valid ticks in the longest run that shares
      the last one's date. */
  lemma {:induction false} IncrementalIsBatch(ticks: seq<Tick>)
    ensures var valid := Valid(ticks);
      && Bars(AllTaken(ticks), Session(valid))
      && AllTaken(ticks).date == if valid == [] then None else Some(DateOf(valid[|valid| - 1].ts))
  {
    hide Bars, Taken;
    if ticks == [] {
      assert Bars(AllTaken(ticks), []) by { NoBars(None); }
    } else {
      var before, t := ticks[..|ticks| - 1], ticks[|ticks| - 1];
      IncrementalIsBatch(before);
      var s, valid := AllTaken(before), Valid(before);
      if Counts(t) {
        assert (valid + [t])[..|valid|] == valid;
        TakenDate(s, t);
        if valid == [] || DateOf(valid[|valid| - 1].ts) == DateOf(t.ts) {
          OneMoreTick(s, Session(valid), t);
          assert Session(valid + [t]) == Session(valid) + [t];
        } else {
          NoBars(Some(DateOf(t.ts)));
          OneMoreTick(State(map[], Some(DateOf(t.ts))), [], t);
          assert [] + [t] == [t];
        }
      } else {
        assert Taken(s, t) == s by { Ignored(s, t); }
      }
    }
  }

  lemma NoBars(date: Option<int>)
    ensures Bars(State(map[], date), [])
  {
  }

  lemma Ignored(s: State, t: Tick)
    requires !Counts(t)
    ensures Taken(s, t) == s
  {
  }

  lemma TakenDate(s: State, t: Tick)
    requires Counts(t)
    ensures Taken(s, t).date == Some(DateOf(t.ts))
    ensures s.date.Some? && s.date != Some(DateOf(t.ts)) ==> Taken(s, t) == Taken(State(map[], Some(DateOf(t.ts))), t)
  {
  }

  // ---------------------------------------------------------------- the read doors

  predicate Ascending(rows: seq<Bar>) { forall i, j :: 0 <= i < j < |rows| ==> rows[i].start < rows[j].start }

  /** Every bar of the bucket, oldest minute first. */
  ghost predicate RowsOf(rows: seq<Bar>, bucket: map<int, Bar>) {
    && Ascending(rows)
    && (forall i :: 0 <= i < |rows| ==> rows[i].start in bucket && bucket[rows[i].start] == rows[i])
    && (forall minute :: minute in bucket ==> bucket[minute] in rows)
  }

  /** Bars carry the minute they are filed under. */
  ghost predicate Filed(bucket: map<int, Bar>) { forall minute :: minute in bucket ==> bucket[minute].start == minute }

  lemma BucketIsFiled(bucket: map<int, Bar>, g: seq<Tick>)
    requires BucketOf(bucket, g)
    ensures Filed(bucket)
  {
    hide MinuteOf;
    forall minute | minute in bucket
      ensures bucket[minute].start == minute
    {
      InMeans(g, minute);
      assert In(g, minute) != [];
    }
  }

  lemma {:induction false} LastIn(g: seq<Tick>, minute: int)
    requires g != [] && MinuteOf(g[|g| - 1].ts) == minute
    ensures In(g, minute) != [] && In(g, minute)[|In(g, minute)| - 1] == g[|g| - 1]
  {
  }

  /** The latest minute of the bucket. */
  ghost predicate Latest(minute: int, bucket: map<int, Bar>) {
    minute in bucket && forall m :: m in bucket ==> m <= minute
  }

  /** The close of the latest minute is the last tick of that minute; it is the last tick of all when
      the last tick falls into the latest minute, so always when times never go back. */
  lemma LastPriceMeans(bucket: map<int, Bar>, g: seq<Tick>, minute: int)
    requires g != [] && BucketOf(bucket, g) && Latest(minute, bucket)
    ensures In(g, minute) != [] && bucket[minute].close == Price(In(g, minute)[|In(g, minute)| - 1])
    ensures forall i :: 0 <= i < |g| ==> MinuteOf(g[i].ts) <= minute
    ensures MinuteOf(g[|g| - 1].ts) == minute ==> bucket[minute].close == Price(g[|g| - 1])
    ensures (forall i :: 0 <= i < |g| ==> g[i].ts <= g[|g| - 1].ts) ==> MinuteOf(g[|g| - 1].ts) == minute
  {
    forall i | 0 <= i < |g|
      ensures MinuteOf(g[i].ts) <= minute && MinuteOf(g[i].ts) in bucket
    {
      InMeans(g, MinuteOf(g[i].ts));
    }
    InMeans(g, minute);
    var i :| 0 <= i < |g| && MinuteOf(g[i].ts) == minute;
    if MinuteOf(g[|g| - 1].ts) == minute {
      LastIn(g, minute);
    }
    MinutesAscend(g[i].ts, g[|g| - 1].ts);
  }

  lemma MinutesAscend(a: int, b: int)
    ensures a <= b ==> MinuteOf(a) <= MinuteOf(b)
  {
  }

  // ---------------------------------------------------------------- volume-weighted price

  function Typical(b: Bar): real { (b.high + b.low + b.close) / 3.0 }

  function ValueOf(b: Bar): real { Typical(b) * b.volume as real }

  function Turnover(rows: seq<Bar>): real {
    if rows == [] then 0.0 else Turnover(rows[..|rows| - 1]) + ValueOf(rows[|rows| - 1])
  }

  function Traded(rows: seq<Bar>): int {
    if rows == [] then 0 else Traded(rows[..|rows| - 1]) + rows[|rows| - 1].volume
  }

  function Vwap(rows: seq<Bar>): Option<real> {
    if Traded(rows) <= 0 then None else Some(Turnover(rows) / Traded(rows) as real)
  }

  /** One bar is weighted at the mean of its high, low and close. */
  lemma VwapOfOne(b: Bar)
    requires b.volume > 0
    ensures Vwap([b]) == Some((b.high + b.low + b.close) / 3.0)
  {
    assert [b][..0] == [];
    assert Turnover([b]) == ValueOf(b) && Traded([b]) == b.volume;
    var k := b.volume as real;
    Undone(Typical(b), k);
    assert Vwap([b]).value == Typical(b);
  }

  lemma Undone(x: real, k: real)
    requires k > 0.0
    ensures (x * k) / k == x
  {
  }

  /** And bars combine by volume. */
  lemma {:induction false} VwapCombines(a: seq<Bar>, b: seq<Bar>)
    ensures Turnover(a + b) == Turnover(a) + Turnover(b) && Traded(a + b) == Traded(a) + Traded(b)
    ensures Vwap(a).Some? ==> Vwap(a).value * Traded(a) as real == Turnover(a)
  {
    hide ValueOf;
    if b == [] {
      assert a + b == a;
    } else {
      var n := |b| - 1;
      VwapCombines(a, b[..n]);
      assert (a + b)[..|a| + n] == a + b[..n];
    }
  }

  predicate Within(b: Bar, low: real, high: real) { low <= b.low <= b.close <= b.high <= high && b.volume >= 0 }

  lemma {:induction false} TurnoverBounds(rows: seq<Bar>, low: real, high: real)
    requires forall i :: 0 <= i < |rows| ==> Within(rows[i], low, high)
    ensures Traded(rows) >= 0
    ensures low * Traded(rows) as real <= Turnover(rows) <= high * Traded(rows) as real
  {
    hide Within, ValueOf;
    if rows == [] {
      ByZero(low);
      ByZero(high);
    } else {
      var n := |rows| - 1;
      TurnoverBounds(rows[..n], low, high);
      OneRow(rows[n], low, high);
      Adds(low, Traded(rows[..n]) as real, rows[n].volume as real);
      Adds(high, Traded(rows[..n]) as real, rows[n].volume as real);
    }
  }

  lemma ByZero(x: real)
    ensures x * 0.0 == 0.0
  {
  }

  lemma Adds(x: real, a: real, b: real)
    ensures x * (a + b) == x * a + x * b
  {
  }

  lemma OneRow(b: Bar, low: real, high: real)
    requires Within(b, low, high)
    ensures b.volume >= 0 && low * b.volume as real <= ValueOf(b) <= high * b.volume as real
  {
    Scaled(low, Typical(b), b.volume as real);
    Scaled(Typical(b), high, b.volume as real);
  }

  lemma Scaled(a: real, b: real, k: real)
    requires a <= b && k >= 0.0
    ensures a * k <= b * k
  {
  }

  lemma Unscaled(a: real, b: real, k: real)
    requires a * k <= b * k && k > 0.0
    ensures a <= b
  {
    assert (b - a) * k >= 0.0;
  }

  lemma QuotientBounds(low: real, x: real, high: real, k: real)
    requires low * k <= x <= high * k && k > 0.0
    ensures low <= x / k <= high
  {
    assert (x / k) * k == x;
    Unscaled(low, x / k, k);
    Unscaled(x / k, high, k);
  }

  /** Whenever there is a volume-weighted price, it lies between the lowest and the highest price of
      the symbol's ticks in the session. */
  lemma VwapIsBetween(rows: seq<Bar>, bucket: map<int, Bar>, g: seq<Tick>)
    requires g != [] && BucketOf(bucket, g) && RowsOf(rows, bucket)
    ensures Vwap(rows).Some? ==> Lowest(g) <= Vwap(rows).value <= Highest(g)
    ensures Vwap(rows).None? <==> forall i :: 0 <= i < |rows| ==> rows[i].volume == 0
  {
    hide BucketOf, RowsOf, Lowest, Highest;
    forall i | 0 <= i < |rows|
      ensures Within(rows[i], Lowest(g), Highest(g))
    {
      RowIsWithin(rows, bucket, g, i);
    }
    TurnoverBounds(rows, Lowest(g), Highest(g));
    if Traded(rows) > 0 {
      QuotientBounds(Lowest(g), Turnover(rows), Highest(g), Traded(rows) as real);
    }
    TradedIsZero(rows, Lowest(g), Highest(g));
  }

  lemma {:induction false} TradedIsZero(rows: seq<Bar>, low: real, high: real)
    requires forall i :: 0 <= i < |rows| ==> Within(rows[i], low, high)
    ensures Traded(rows) <= 0 <==> forall i :: 0 <= i < |rows| ==> rows[i].volume == 0
  {
    if rows != [] {
      TradedIsZero(rows[..|rows| - 1], low, high);
      TurnoverBounds(rows[..|rows| - 1], low, high);
      assert forall i :: 0 <= i < |rows| - 1 ==> rows[i] == rows[..|rows| - 1][i];
    }
  }

  lemma RowIsWithin(rows: seq<Bar>, bucket: map<int, Bar>, g: seq<Tick>, i: nat)
    requires g != [] && BucketOf(bucket, g) && RowsOf(rows, bucket) && i < |rows|
    ensures Within(rows[i], Lowest(g), Highest(g))
  {
    hide MinuteOf;
    var minute := rows[i].start;
    var part := In(g, minute);
    assert part != [] && rows[i] == BarOf(part);
    InMeans(g, minute);
    ExtremesMean(part);
    ExtremesMean(g);
  }

  /** All read doors after any ticks, in terms of the symbol's ticks in the session: no bars without
      ticks; the last price is the last tick's when its times do not go back; the volume-weighted
      price lies between the extremes. */
  lemma ReadDoors(ticks: seq<Tick>, symbol: string, rows: seq<Bar>)
    requires RowsOf(rows, Bucket(AllTaken(ticks), symbol))
    ensures Filed(Bucket(AllTaken(ticks), symbol))
    ensures var g := Of(Session(Valid(ticks)), symbol);
      && (rows == [] <==> g == [])
      && (g != [] && (forall i :: 0 <= i < |g| ==> g[i].ts <= g[|g| - 1].ts) ==>
            rows[|rows| - 1].close == Price(g[|g| - 1]))
      && (g != [] && Vwap(rows).Some? ==> Lowest(g) <= Vwap(rows).value <= Highest(g))
  {
    hide AllTaken, Session, Valid, Vwap, MinuteOf, Lowest, Highest;
    var bucket, g := Bucket(AllTaken(ticks), symbol), Of(Session(Valid(ticks)), symbol);
    IncrementalIsBatch(ticks);
    BucketIsFiled(bucket, g);
    if g != [] {
      var minute := MinuteOf(g[|g| - 1].ts);
      LastIn(g, minute);
      assert bucket[minute] in rows;
      VwapIsBetween(rows, bucket, g);
      LatestRow(rows, bucket);
      LastPriceMeans(bucket, g, rows[|rows| - 1].start);
    } else {
      NoTicksNoRows(rows, bucket);
    }
  }

  lemma NoTicksNoRows(rows: seq<Bar>, bucket: map<int, Bar>)
    requires BucketOf(bucket, []) && RowsOf(rows, bucket)
    ensures rows == []
  {
    FirstRowIsFiled(rows, bucket);
    assert forall minute :: In([], minute) == [] && minute !in bucket;
  }

  lemma FirstRowIsFiled(rows: seq<Bar>, bucket: map<int, Bar>)
    requires RowsOf(rows, bucket)
    ensures rows != [] ==> rows[0].start in bucket
  {
  }

  lemma LatestRow(rows: seq<Bar>, bucket: map<int, Bar>)
    requires rows != [] && RowsOf(rows, bucket) && Filed(bucket)
    ensures Latest(rows[|rows| - 1].start, bucket)
  {
    var last := rows[|rows| - 1];
    forall m | m in bucket
      ensures m <= last.start
    {
      assert bucket[m] in rows && bucket[m].start == m;
    }
  }

  // ---------------------------------------------------------------- the aggregator

  class TickBarAggregator {
    var bars: map<string, map<int, Bar>>
    var sessionDate: Option<int>

    function Now(): State
      reads this
    {
      State(bars, sessionDate)
    }

    constructor ()
      ensures Now() == AllTaken([])
    {
      bars, sessionDate := map[], None;
    }

    method EnsureSession(date: int)
      modifies this
      ensures sessionDate == Some(date)
      ensures bars == if old(sessionDate) == None || old(sessionDate) == Some(date) then old(bars) else map[]
    {
      if sessionDate.Some? && sessionDate.value != date {
        bars := map[];
      }
      sessionDate := Some(date);
    }

    /** False where a naive timestamp raises; the bars are then as they were. */
    method OnTick(t: Tick) returns (ok: bool)
      modifies this
      ensures Now() == Taken(old(Now()), t)
      ensures !ok <==> t.price.Some? && t.price.value > 0.0 && !t.aware
    {
      hide DateOf, MinuteOf;
      if t.price.None? || t.price.value <= 0.0 {
        return true;
      }
      if !t.aware {
        return false;
      }
      var price, volume := t.price.value, Shares(t);
      EnsureSession(DateOf(t.ts));
      var minute := MinuteOf(t.ts);
      var bucket := if t.symbol in bars then bars[t.symbol] else map[];
      if minute !in bucket {
        bars := bars[t.symbol := bucket[minute := Bar(minute, price, price, price, price, volume)]];
        return true;
      }
      var bar := bucket[minute];
      bar := bar.(high := if bar.high >= price then bar.high else price);
      bar := bar.(low := if bar.low <= price then bar.low else price);
      bar := bar.(close := price, volume := bar.volume + volume);
      bars := bars[t.symbol := bucket[minute := bar]];
      ok := true;
    }

    method Bars(symbol: string) returns (rows: seq<Bar>)
      requires Filed(Bucket(Now(), symbol))
      ensures RowsOf(rows, Bucket(Now(), symbol))
    {
      var bucket := if symbol in bars then bars[symbol] else map[];
      var left := bucket.Items;
      rows := [];
      while left != {}
        invariant left <= bucket.Items && Ascending(rows)
        invariant forall i :: 0 <= i < |rows| ==> rows[i].start in bucket && bucket[rows[i].start] == rows[i]
        invariant forall i, item :: 0 <= i < |rows| && item in left ==> rows[i].start < item.0
        invariant forall m :: m in bucket && (m, bucket[m]) !in left ==> bucket[m] in rows
        decreases |left|
      {
        var item := Earliest(left);
        rows := rows + [item.1];
        left := left - {item};
      }
      assert forall m :: m in bucket ==> (m, bucket[m]) in bucket.Items;
    }

    /** The close of the latest minute. */
    method LastPrice(symbol: string) returns (r: Option<real>)
      requires Filed(Bucket(Now(), symbol))
      ensures r.None? <==> Bucket(Now(), symbol) == map[]
      ensures r.Some? ==> exists m :: Latest(m, Bucket(Now(), symbol)) && r.value == Bucket(Now(), symbol)[m].close
    {
      var rows := Bars(symbol);
      ghost var bucket := Bucket(Now(), symbol);
      if rows == [] {
        assert forall m :: m !in bucket;
        return None;
      }
      ghost var last := rows[|rows| - 1];
      forall m | m in bucket
        ensures m <= last.start
      {
        assert bucket[m] in rows && bucket[m].start == m;
      }
      assert Latest(last.start, bucket);
      r := Some(rows[|rows| - 1].close);
    }

    method VolumeWeightedPrice(symbol: string) returns (r: Option<real>)
      requires Filed(Bucket(Now(), symbol))
      ensures exists rows :: RowsOf(rows, Bucket(Now(), symbol)) && r == Vwap(rows)
    {
      var rows := Bars(symbol);
      var turnover, traded, i := 0.0, 0, 0;
      while i < |rows|
        invariant 0 <= i <= |rows|
        invariant turnover == Turnover(rows[..i]) && traded == Traded(rows[..i])
      {
        assert rows[..i + 1][..i] == rows[..i];
        turnover := turnover + ValueOf(rows[i]);
        traded := traded + rows[i].volume;
        i := i + 1;
      }
      assert rows[..i] == rows;
      r := if traded <= 0 then None else Some(turnover / traded as real);
    }
  }

  /** The bar of the earliest minute. */
  method Earliest(left: set<(int, Bar)>) returns (first: (int, Bar))
    requires left != {}
    ensures first in left && forall x :: x in left ==> first.0 <= x.0
  {
    first :| first in left;
    var rest := left - {first};
    while rest != {}
      invariant rest <= left && first in left && forall x :: x in left && x !in rest ==> first.0 <= x.0
      decreases |rest|
    {
      var x :| x in rest;
      first := if x.0 < first.0 then x else first;
      rest := rest - {x};
    }
  }
}
