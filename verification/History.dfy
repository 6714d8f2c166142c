/** Daily history: filling short gaps in the closes, and adjusting for corporate actions. */
module History {
  import opened Market

  const MAX_FILL_DAYS := 5

  // ---------------------------------------------------------------- filling the closes

  type Column = seq<Option<real>>

  /** Numbers the runs of equal missingness: one more at every change. */
  function Groups(c: Column): (g: seq<int>)
    ensures |g| == |c|
  {
    if c == [] then []
    else
      var n := |c| - 1;
      var before := Groups(c[..n]);
      before + [if n == 0 then 1 else before[n - 1] + if c[n].None? != c[n - 1].None? then 1 else 0]
  }

  /** Missing closes among the first n rows that belong to one group. */
  function MissingIn(c: Column, g: seq<int>, group: int, n: nat): nat
    requires |g| == |c| && n <= |c|
  {
    if n == 0 then 0 else MissingIn(c, g, group, n - 1) + if g[n - 1] == group && c[n - 1].None? then 1 else 0
  }

  function RunLength(c: Column, i: nat): nat
    requires i < |c|
  {
    MissingIn(c, Groups(c), Groups(c)[i], |c|)
  }

  function Carried(c: Column, i: nat): Option<real>
    requires i < |c|
  {
    if c[i].Some? || i == 0 then c[i] else Carried(c, i - 1)
  }

  function FilledAt(c: Column, i: nat): Option<real>
    requires i < |c|
  {
    if c[i].Some? || RunLength(c, i) <= MAX_FILL_DAYS then Carried(c, i) else None
  }

  function Filled(c: Column): (f: Column)
    ensures |f| == |c| && forall i :: 0 <= i < |c| ==> f[i] == FilledAt(c, i)
  {
    seq(|c|, i requires 0 <= i < |c| => FilledAt(c, i))
  }

  // ---------------------------------------------------------------- what a run is

  /** Rows a..b-1 are missing, and no longer stretch around them is. */
  ghost predicate Gap(c: Column, a: nat, b: nat) {
    && a < b <= |c| && (forall j :: a <= j < b ==> c[j].None?)
    && (a > 0 ==> c[a - 1].Some?) && (b < |c| ==> c[b].Some?)
  }

  function GapStart(c: Column, i: nat): (a: nat)
    requires i < |c| && c[i].None?
    ensures a <= i && (forall j :: a <= j <= i ==> c[j].None?) && (a > 0 ==> c[a - 1].Some?)
  {
    if i == 0 || c[i - 1].Some? then i else GapStart(c, i - 1)
  }

  function GapEnd(c: Column, i: nat): (b: nat)
    requires i < |c| && c[i].None?
    ensures i < b <= |c| && (forall j :: i <= j < b ==> c[j].None?) && (b < |c| ==> c[b].Some?)
    decreases |c| - i
  {
    if i + 1 == |c| || c[i + 1].Some? then i + 1 else GapEnd(c, i + 1)
  }

  /** The numbering never goes down, stays within a run and goes up at every change. */
  lemma {:induction false} GroupsMean(c: Column, i: nat)
    requires i + 1 < |c|
    ensures Groups(c)[i + 1] == Groups(c)[i] + if c[i + 1].None? != c[i].None? then 1 else 0
  {
    var n := |c| - 1;
    if i + 1 < n {
      GroupsMean(c[..n], i);
    }
  }

  lemma {:induction false} GroupsAscend(c: Column, i: nat, j: nat)
    requires i <= j < |c|
    ensures Groups(c)[i] <= Groups(c)[j]
  {
    if i < j {
      GroupsAscend(c, i, j - 1);
      GroupsMean(c, j - 1);
    }
  }

  lemma {:induction false} OneGroup(c: Column, a: nat, b: nat, i: nat)
    requires Gap(c, a, b) && a <= i < b
    ensures Groups(c)[i] == Groups(c)[a]
  {
    if a < i {
      OneGroup(c, a, b, i - 1);
      GroupsMean(c, i - 1);
    }
  }

  /** A missing row shares its group with the rows of its gap and no others. */
  lemma GapIsGroup(c: Column, a: nat, b: nat, j: nat)
    requires Gap(c, a, b) && j < |c| && c[j].None?
    ensures Groups(c)[j] == Groups(c)[a] <==> a <= j < b
  {
    hide Groups;
    if a <= j < b {
      OneGroup(c, a, b, j);
    } else if j < a {
      GroupsAscend(c, j, a - 1);
      GroupsMean(c, a - 1);
    } else {
      OneGroup(c, a, b, b - 1);
      GroupsMean(c, b - 1);
      GroupsAscend(c, b, j);
    }
  }

  lemma {:induction false} CountGap(c: Column, a: nat, b: nat, n: nat)
    requires Gap(c, a, b) && n <= |c|
    ensures MissingIn(c, Groups(c), Groups(c)[a], n) == if n <= a then 0 else if n <= b then n - a else b - a
  {
    hide Groups, Gap;
    if n > 0 {
      CountGap(c, a, b, n - 1);
      GapBounds(c, a, b);
      if c[n - 1].None? {
        GapIsGroup(c, a, b, n - 1);
      } else {
        NotInGap(c, a, b, n - 1);
      }
    } else {
      GapBounds(c, a, b);
    }
  }

  lemma GapBounds(c: Column, a: nat, b: nat)
    requires Gap(c, a, b)
    ensures a < b <= |c|
  {
  }

  lemma NotInGap(c: Column, a: nat, b: nat, j: nat)
    requires Gap(c, a, b) && j < |c| && c[j].Some?
    ensures !(a <= j < b)
  {
  }

  /** The grouped count is the length of the gap around the row. */
  lemma RunLengthMeans(c: Column, a: nat, b: nat, i: nat)
    requires Gap(c, a, b) && a <= i < b
    ensures RunLength(c, i) == b - a
  {
    OneGroup(c, a, b, i);
    CountGap(c, a, b, |c|);
  }

  lemma {:induction false} CarriedMeans(c: Column, a: nat, b: nat, i: nat)
    requires Gap(c, a, b) && a <= i < b
    ensures Carried(c, i) == if a > 0 then c[a - 1] else None
  {
    if i > a {
      CarriedMeans(c, a, b, i - 1);
    }
  }

  /** Every missing row lies in a gap. */
  lemma GapAround(c: Column, i: nat) returns (a: nat, b: nat)
    requires i < |c| && c[i].None?
    ensures Gap(c, a, b) && a <= i < b && a == GapStart(c, i) && b == GapEnd(c, i)
  {
    a, b := GapStart(c, i), GapEnd(c, i);
  }

  /** Observed closes stay. In a gap of at most five rows with an observation before it, every row
      takes that observation, at most five rows back; in any other gap every row stays missing. */
  lemma FillInventsNothing(c: Column, a: nat, b: nat, i: nat)
    requires i < |c|
    ensures c[i].Some? ==> Filled(c)[i] == c[i]
    ensures Gap(c, a, b) && a <= i < b && a > 0 && b - a <= 5 ==>
      Filled(c)[i] == c[a - 1] && c[a - 1].Some? && i - (a - 1) <= 5
    ensures Gap(c, a, b) && a <= i < b && (a == 0 || b - a > 5) ==> Filled(c)[i].None?
  {
    hide RunLength;
    if Gap(c, a, b) && a <= i < b {
      RunLengthMeans(c, a, b, i);
      CarriedMeans(c, a, b, i);
    }
  }

  /** The repeated pass changes nothing. */
  lemma SecondPassIsIdle(c: Column)
    ensures Filled(Filled(c)) == Filled(c)
  {
    hide FilledAt;
    var f := Filled(c);
    forall i | 0 <= i < |c|
      ensures Filled(f)[i] == f[i]
    {
      if f[i].Some? {
        FillInventsNothing(f, 0, 0, i);
      } else {
        StillMissing(c, i);
      }
    }
  }

  lemma StillMissing(c: Column, i: nat)
    requires i < |c| && Filled(c)[i].None?
    ensures Filled(Filled(c))[i].None?
  {
    hide FilledAt;
    var f := Filled(c);
    assert c[i].None? by { FillInventsNothing(c, 0, 0, i); }
    var a, b := GapAround(c, i);
    FillInventsNothing(c, a, b, i);
    forall j | 0 <= j < |c|
      ensures a <= j < b ==> f[j].None?
      ensures c[j].Some? ==> f[j].Some?
    {
      FillInventsNothing(c, a, b, j);
    }
    assert Gap(f, a, b);
    FillInventsNothing(f, a, b, i);
  }

  // ---------------------------------------------------------------- the whole frame

  datatype Row = Row(date: int, open: Option<real>, high: Option<real>, low: Option<real>, close: Option<real>,
                     volume: Option<real>)

  function Closes(f: seq<Row>): (c: Column)
    ensures |c| == |f| && forall i :: 0 <= i < |f| ==> c[i] == f[i].close
  {
    seq(|f|, i requires 0 <= i < |f| => f[i].close)
  }

  function Or(x: Option<real>, y: Option<real>): Option<real> { if x.Some? then x else y }

  /** Both passes, the price columns and the volume, as the source writes them. */
  function HandleMissing(f: seq<Row>): (r: seq<Row>)
    ensures |r| == |f|
  {
    var once := Filled(Closes(f));
    var twice := Filled(once);
    seq(|f|, i requires 0 <= i < |f| =>
      Row(f[i].date, Or(f[i].open, once[i]), Or(f[i].high, once[i]), Or(f[i].low, once[i]),
          twice[i], Some(if f[i].volume.Some? then f[i].volume.value else 0.0)))
  }

  /** Every observed value survives; a missing price is the row's filled close; missing volume is
      none; the closes are those of one pass. */
  lemma HandleMissingMeans(f: seq<Row>, i: nat)
    requires i < |f|
    ensures var r := HandleMissing(f);
      && r[i].date == f[i].date && r[i].close == Filled(Closes(f))[i]
      && (f[i].close.Some? ==> r[i].close == f[i].close)
      && r[i].open == Or(f[i].open, r[i].close) && r[i].high == Or(f[i].high, r[i].close)
      && r[i].low == Or(f[i].low, r[i].close)
      && r[i].volume == Some(if f[i].volume.Some? then f[i].volume.value else 0.0)
    ensures HandleMissing(HandleMissing(f)) == HandleMissing(f)
  {
    hide Filled;
    var c := Closes(f);
    SecondPassIsIdle(c);
    FillInventsNothing(c, 0, 0, i);
    var r := HandleMissing(f);
    assert Closes(r) == Filled(c);
  }

  // ---------------------------------------------------------------- corporate actions

  datatype Event = Event(date: int, factor: real)

  /** Later dates first; ties keep their order. */
  function Inserted(e: Event, es: seq<Event>): (r: seq<Event>)
    ensures multiset(r) == multiset(es) + multiset{e}
  {
    if es == [] || e.date >= es[0].date then [e] + es
    else
      assert es == [es[0]] + es[1..];
      [es[0]] + Inserted(e, es[1..])
  }

  function LatestFirst(es: seq<Event>): (r: seq<Event>)
    ensures multiset(r) == multiset(es)
  {
    if es == [] then []
    else
      assert es == [es[0]] + es[1..];
      Inserted(es[0], LatestFirst(es[1..]))
  }

  function Factor(e: Event, date: int): (k: real)
    ensures k > 0.0
  {
    if e.factor > 0.0 && date < e.date then e.factor else 1.0
  }

  /** The product of the factors of the events after this date. */
  function Product(es: seq<Event>, date: int): (k: real)
    ensures k > 0.0
  {
    if es == [] then 1.0 else Product(es[..|es| - 1], date) * Factor(es[|es| - 1], date)
  }

  function Times(x: Option<real>, k: real): Option<real> { if x.Some? then Some(x.value * k) else None }

  function Over(x: Option<real>, k: real): Option<real>
    requires k > 0.0
  {
    if x.Some? then Some(x.value / k) else None
  }

  function Scaled(r: Row, k: real): Row
    requires k > 0.0
  {
    Row(r.date, Times(r.open, k), Times(r.high, k), Times(r.low, k), Times(r.close, k), Over(r.volume, k))
  }

  function Adjusted(f: seq<Row>, es: seq<Event>): (r: seq<Row>)
    ensures |r| == |f| && forall i :: 0 <= i < |f| ==> r[i] == Scaled(f[i], Product(es, f[i].date))
  {
    seq(|f|, i requires 0 <= i < |f| => Scaled(f[i], Product(es, f[i].date)))
  }

  /** The order of the events does not matter. */
  lemma {:induction false} ProductOfAnyOrder(es: seq<Event>, fs: seq<Event>, date: int)
    requires multiset(es) == multiset(fs)
    ensures Product(es, date) == Product(fs, date)
    decreases |es|
  {
    if es == [] {
      assert |multiset(fs)| == |fs|;
    } else {
      var n := |es| - 1;
      assert es == es[..n] + [es[n]];
      assert multiset(es) == multiset(es[..n]) + multiset{es[n]};
      assert es[n] in multiset(fs);
      var rest := WithoutEvent(fs, es[n], date);
      SameRest(multiset(rest), multiset(es[..n]), es[n]);
      ProductOfAnyOrder(es[..n], rest, date);
    }
  }

  lemma WithoutEvent(fs: seq<Event>, e: Event, date: int) returns (rest: seq<Event>)
    requires e in fs
    ensures multiset(fs) == multiset(rest) + multiset{e}
    ensures Product(fs, date) == Product(rest, date) * Factor(e, date)
  {
    hide Product, Factor;
    var j :| 0 <= j < |fs| && fs[j] == e;
    ProductWithout(fs, j, date);
    TakenOut(fs, j);
    rest := fs[..j] + fs[j + 1..];
  }

  lemma TakenOut(fs: seq<Event>, j: nat)
    requires j < |fs|
    ensures multiset(fs) == multiset(fs[..j] + fs[j + 1..]) + multiset{fs[j]}
  {
    assert fs == fs[..j] + ([fs[j]] + fs[j + 1..]);
  }

  lemma SameRest(a: multiset<Event>, b: multiset<Event>, e: Event)
    requires a + multiset{e} == b + multiset{e}
    ensures a == b
  {
    assert a == (a + multiset{e}) - multiset{e};
    assert b == (b + multiset{e}) - multiset{e};
  }

  lemma {:induction false} ProductWithout(es: seq<Event>, j: nat, date: int)
    requires j < |es|
    ensures Product(es, date) == Product(es[..j] + es[j + 1..], date) * Factor(es[j], date)
  {
    hide Factor, Product;
    var n := |es| - 1;
    var shorter := es[..n];
    assert es == shorter + [es[n]];
    OneMoreFactor(shorter, es[n], date);
    if j < n {
      ProductWithout(shorter, j, date);
      var rest := shorter[..j] + shorter[j + 1..];
      assert es[..j] + es[j + 1..] == rest + [es[n]];
      OneMoreFactor(rest, es[n], date);
      Swap(Product(rest, date), Factor(es[j], date), Factor(es[n], date));
    } else {
      assert es[..j] + es[j + 1..] == shorter;
    }
  }

  lemma OneMoreFactor(es: seq<Event>, e: Event, date: int)
    ensures Product(es + [e], date) == Product(es, date) * Factor(e, date)
  {
    assert (es + [e])[..|es|] == es;
  }

  lemma Swap(a: real, b: real, c: real)
    ensures (a * b) * c == (a * c) * b
  {
  }

  /** One event more multiplies the prices of the rows before its date, and divides their volume; its own
      date and later rows keep theirs, and a factor that is not positive is no event. */
  lemma OneMoreEvent(f: seq<Row>, es: seq<Event>, e: Event, i: nat)
    requires i < |f|
    ensures var was, now := Adjusted(f, es)[i], Adjusted(f, es + [e])[i];
      if e.factor > 0.0 && f[i].date < e.date then
        && now.date == was.date
        && Multiplied(was.open, now.open, e.factor) && Multiplied(was.high, now.high, e.factor)
        && Multiplied(was.low, now.low, e.factor) && Multiplied(was.close, now.close, e.factor)
        && Multiplied(now.volume, was.volume, e.factor)
      else now == was
    ensures Adjusted(f, [])[i] == f[i]
  {
    var all := es + [e];
    assert all[..|es|] == es && all[..|es| + 1] == all;
    RescaledOnce(f[i], all, |es|);
    Unscaled();
    assert Scaled(f[i], Product([], f[i].date)) == f[i];
    hide Product, Factor;
    var was := Adjusted(f, es)[i];
    if e.factor > 0.0 && f[i].date < e.date {
      assert Adjusted(f, all)[i] == Scaled(was, e.factor);
      ScaledMeans(was, e.factor);
      hide Scaled;
    }
  }

  /** Present or missing alike, and so many times the other. */
  predicate Multiplied(x: Option<real>, y: Option<real>, k: real) {
    (x.Some? <==> y.Some?) && (x.Some? ==> y.value == x.value * k)
  }

  lemma ScaledMeans(r: Row, k: real)
    requires k > 0.0
    ensures var s := Scaled(r, k);
      && s.date == r.date
      && Multiplied(r.open, s.open, k) && Multiplied(r.high, s.high, k) && Multiplied(r.low, s.low, k)
      && Multiplied(r.close, s.close, k) && Multiplied(s.volume, r.volume, k)
  {
    if r.volume.Some? {
      assert (r.volume.value / k) * k == r.volume.value;
    }
  }

  /** What a price is worth in shares traded, when both are known. */
  function Turnover(price: Option<real>, volume: Option<real>): Option<real> {
    if price.Some? && volume.Some? then Some(price.value * volume.value) else None
  }

  /** Adjustment moves prices and volume in opposite directions: every product of a price with the
      volume of its row stays, and what is missing stays missing. */
  lemma TurnoverIsKept(f: seq<Row>, es: seq<Event>, i: nat)
    requires i < |f|
    ensures var was, now := f[i], Adjusted(f, es)[i];
      && Turnover(now.open, now.volume) == Turnover(was.open, was.volume)
      && Turnover(now.high, now.volume) == Turnover(was.high, was.volume)
      && Turnover(now.low, now.volume) == Turnover(was.low, was.volume)
      && Turnover(now.close, now.volume) == Turnover(was.close, was.volume)
      && (now.close.None? <==> was.close.None?) && (now.volume.None? <==> was.volume.None?) && now.date == was.date
  {
    hide Turnover, Product;
    var k := Product(es, f[i].date);
    ScaledTurnover(f[i].open, f[i].volume, k);
    ScaledTurnover(f[i].high, f[i].volume, k);
    ScaledTurnover(f[i].low, f[i].volume, k);
    ScaledTurnover(f[i].close, f[i].volume, k);
  }

  lemma ScaledTurnover(price: Option<real>, volume: Option<real>, k: real)
    requires k > 0.0
    ensures Turnover(Times(price, k), Over(volume, k)) == Turnover(price, volume)
  {
    if price.Some? && volume.Some? {
      var p, v := price.value, volume.value;
      assert (v / k) * k == v;
      Associates(p, k, v / k);
      assert k * (v / k) == v;
      assert Turnover(Times(price, k), Over(volume, k)).value == Turnover(price, volume).value;
    }
  }

  /** One event at a time, latest first, over the rows before it; a factor that is not positive is
      skipped. The result is one multiplication by the product, whatever the order given. */
  method ApplyAdjustment(f: seq<Row>, events: seq<Event>) returns (r: seq<Row>)
    ensures r == Adjusted(f, events)
  {
    hide Factor, Product, Scaled;
    var es := LatestFirst(events);
    r := f;
    assert forall row: Row :: Scaled(row, Product([], row.date)) == row by { Unscaled(); }
    var i := 0;
    while i < |es|
      invariant 0 <= i <= |es| && |r| == |f|
      invariant forall j :: 0 <= j < |f| ==> r[j] == Scaled(f[j], Product(es[..i], f[j].date))
    {
      var before := r;
      var j := 0;
      while j < |r|
        invariant 0 <= j <= |r| && |r| == |f|
        invariant forall m :: 0 <= m < j ==> r[m] == Scaled(f[m], Product(es[..i + 1], f[m].date))
        invariant forall m :: j <= m < |f| ==> r[m] == before[m]
      {
        RescaledOnce(f[j], es, i);
        if es[i].factor > 0.0 && r[j].date < es[i].date {
          r := r[j := Scaled(r[j], es[i].factor)];
        }
        j := j + 1;
      }
      i := i + 1;
    }
    assert es[..i] == es;
    forall j | 0 <= j < |f|
      ensures r[j] == Scaled(f[j], Product(events, f[j].date))
    {
      ProductOfAnyOrder(es, events, f[j].date);
    }
  }

  lemma Unscaled()
    ensures forall row: Row :: Scaled(row, Product([], row.date)) == row
  {
  }

  lemma RescaledOnce(row: Row, es: seq<Event>, i: nat)
    requires i < |es|
    ensures var before := Scaled(row, Product(es[..i], row.date));
      && before.date == row.date
      && Scaled(row, Product(es[..i + 1], row.date))
         == if es[i].factor > 0.0 && row.date < es[i].date then Scaled(before, es[i].factor) else before
  {
    var p, k := Product(es[..i], row.date), Factor(es[i], row.date);
    assert Product(es[..i + 1], row.date) == p * k by {
      assert es[..i + 1][..i] == es[..i] && es[..i + 1][i] == es[i];
    }
    ScaledTwice(row, p, k);
    if k == 1.0 {
      assert p * k == p;
      ScaledByOne(Scaled(row, p));
    }
    hide Scaled, Product;
  }

  lemma ScaledByOne(row: Row)
    ensures Scaled(row, 1.0) == row
  {
  }

  lemma ScaledTwice(row: Row, p: real, k: real)
    requires p > 0.0 && k > 0.0
    ensures p * k > 0.0 && Scaled(Scaled(row, p), k) == Scaled(row, p * k)
  {
    hide Times, Over;
    TimesTwice(row.open, p, k);
    TimesTwice(row.high, p, k);
    TimesTwice(row.low, p, k);
    TimesTwice(row.close, p, k);
    OverTwice(row.volume, p, k);
  }

  lemma TimesTwice(x: Option<real>, p: real, k: real)
    ensures Times(Times(x, p), k) == Times(x, p * k)
  {
    if x.Some? {
      Associates(x.value, p, k);
      assert Times(Times(x, p), k).value == Times(x, p * k).value;
    }
  }

  lemma Associates(x: real, p: real, k: real)
    ensures (x * p) * k == x * (p * k)
  {
  }

  lemma OverTwice(x: Option<real>, p: real, k: real)
    requires p > 0.0 && k > 0.0
    ensures p * k > 0.0 && Over(Over(x, p), k) == Over(x, p * k)
  {
    if x.Some? {
      DividedTwice(x.value, p, k);
    }
  }

  lemma DividedTwice(v: real, p: real, k: real)
    requires p > 0.0 && k > 0.0
    ensures p * k > 0.0 && (v / p) / k == v / (p * k)
  {
    var x := (v / p) / k;
    assert x * k == v / p;
    assert x * (p * k) == v;
  }
}
