/** The event-driven backtester: its bar loop, what a bar may see, and where the money goes. */
module Backtest {
  import opened Market

  // ---------------------------------------------------------------- inputs

  /** One date of the panel; a missing value is None. */
  datatype Row = Row(
    close: map<string, Option<real>>, open: map<string, Option<real>>, high: map<string, Option<real>>,
    low: map<string, Option<real>>, volume: map<string, Option<real>>, index: Option<real>)

  datatype Panel = Panel(columns: set<string>, rows: seq<Row>)

  type Features = map<string, map<string, real>>

  datatype Signal = Signal(symbol: string, direction: string, valid: bool, stopLossPct: real, targetPct: real)

  datatype Position = Position(
    symbol: string, entryRow: int, entryPrice: real, qty: real,
    stop: real, target: real, signal: Signal, costIn: real)

  datatype Trade = Trade(
    symbol: string, entryRow: int, exitRow: int, entryPrice: real, exitPrice: real, qty: real,
    pnlGross: real, pnlNet: real, cost: real, reason: string)

  /** Arbitrary functions of what they are handed; None where they raise. */
  datatype Strategy = Strategy(
    features: seq<Row> -> Option<Features>,
    shouldExit: (Position, real, int) -> bool,
    signals: (Features, seq<Row>, seq<(string, Option<real>)>) -> Option<seq<Signal>>,
    size: (Signal, real) -> real)

  /** `offset` rows of the panel precede the window, which has `bars` rows. */
  datatype Config = Config(
    strategy: Strategy, costs: Option<(Side, real, real) -> real>, maxDrawdown: real,
    largeCaps: set<string>, multiplier: real, wholeShares: bool,
    initial: real, offset: nat, bars: nat)

  datatype State = State(
    capital: real, peak: real, positions: seq<Position>, equity: seq<(int, real)>, trades: seq<Trade>,
    featureErrors: nat, strategyErrors: nat, halted: Option<nat>)

  datatype Outcome = TooFewBars | FeaturesBroken | StrategyBroken | Done(final: State)

  // ---------------------------------------------------------------- prices and costs

  function Price(p: Panel, row: nat, symbol: string): Option<real>
    requires row < |p.rows|
  {
    if symbol in p.columns && symbol in p.rows[row].close then p.rows[row].close[symbol] else None
  }

  function Slippage(c: Config, symbol: string): real {
    var slip := (if symbol in c.largeCaps then 0.0005 else 0.0015) * c.multiplier;
    if slip < 0.005 then slip else 0.005
  }

  function Slipped(c: Config, price: real, side: Side, symbol: string): real {
    if side == Buy then price * (1.0 + Slippage(c, symbol)) else price * (1.0 - Slippage(c, symbol))
  }

  function CostOf(c: Config, side: Side, qty: real, price: real): real {
    if c.costs.None? then qty * price * 0.0015 else c.costs.value(side, qty, price)
  }

  /** Python's `int`, toward zero. */
  function Truncated(q: real): int { if q >= 0.0 then q.Floor else -(-q).Floor }

  function Tradable(c: Config, q: real): real { if c.wholeShares then Truncated(q) as real else q }

  // ---------------------------------------------------------------- one bar

  function Worth(p: Panel, row: nat, pos: Position): real
    requires row < |p.rows|
  {
    var px := Price(p, row, pos.symbol);
    if px.Some? then pos.qty * px.value else 0.0
  }

  function Held(p: Panel, row: nat, ps: seq<Position>): real
    requires row < |p.rows|
  {
    if ps == [] then 0.0 else Held(p, row, ps[..|ps| - 1]) + Worth(p, row, ps[|ps| - 1])
  }

  function ExitReason(c: Config, p: Panel, row: nat, pos: Position): Option<string>
    requires row < |p.rows|
  {
    if pos.symbol !in p.columns then Some("data_missing")
    else
      var px := Price(p, row, pos.symbol);
      if px.Some? && c.strategy.shouldExit(pos, px.value, row) then Some("strategy_exit") else None
  }

  function ToExit(c: Config, p: Panel, row: nat, ps: seq<Position>): seq<(string, string)>
    requires row < |p.rows|
  {
    if ps == [] then []
    else
      var before, reason := ToExit(c, p, row, ps[..|ps| - 1]), ExitReason(c, p, row, ps[|ps| - 1]);
      if reason.Some? then before + [(ps[|ps| - 1].symbol, reason.value)] else before
  }

  /** The place of a symbol in the book, |ps| when it is not held. */
  function Find(ps: seq<Position>, symbol: string): (i: nat)
    ensures i <= |ps| && (i < |ps| ==> ps[i].symbol == symbol)
    ensures forall j :: 0 <= j < i ==> ps[j].symbol != symbol
  {
    if ps == [] || ps[0].symbol == symbol then 0
    else
      assert forall j :: 1 <= j < |ps| ==> ps[j] == ps[1..][j - 1];
      1 + Find(ps[1..], symbol)
  }

  function TradeOf(pos: Position, px: real, costOut: real, row: nat, reason: string): Trade {
    var gross := pos.qty * (px - pos.entryPrice);
    Trade(pos.symbol, pos.entryRow, row, pos.entryPrice, px, pos.qty,
          gross, gross - pos.costIn - costOut, pos.costIn + costOut, reason)
  }

  /** Sell position i at this price before slippage. */
  function Sold(c: Config, s: State, i: nat, price: real, row: nat, reason: string): State
    requires i < |s.positions|
  {
    var pos := s.positions[i];
    var px := Slipped(c, price, Sell, pos.symbol);
    var costOut := CostOf(c, Sell, pos.qty, px);
    s.(positions := s.positions[..i] + s.positions[i + 1..],
       capital := s.capital + (pos.qty * px - costOut),
       trades := s.trades + [TradeOf(pos, px, costOut, row, reason)])
  }

  /** An exit at the next bar; without a price there, at the entry price. */
  function Exited(c: Config, p: Panel, s: State, next: nat, symbol: string, reason: string): State
    requires next < |p.rows|
  {
    var i := Find(s.positions, symbol);
    if i == |s.positions| then s
    else
      var px := Price(p, next, symbol);
      Sold(c, s, i, if px.Some? then px.value else s.positions[i].entryPrice, next, reason)
  }

  function AllExited(c: Config, p: Panel, s: State, next: nat, exits: seq<(string, string)>): State
    requires next < |p.rows|
  {
    if exits == [] then s
    else
      var last := exits[|exits| - 1];
      Exited(c, p, AllExited(c, p, s, next, exits[..|exits| - 1]), next, last.0, last.1)
  }

  datatype Ticket = Ticket(qty: real, cost: real)

  /** What to buy with at most `capital`: the wanted size, else one scaled down to 99% of cash. */
  function Ordered(c: Config, price: real, want: real, capital: real): Option<Ticket> {
    if want <= 0.0 || price <= 0.0 then None
    else
      var qty := Tradable(c, (if want < capital then want else capital) / price);
      if qty <= 0.0 then None
      else
        var cost := CostOf(c, Buy, qty, price);
        if qty * price + cost <= capital then Some(Ticket(qty, cost))
        else
          var less := Tradable(c, (capital * 0.99 - cost) / price);
          if less <= 0.0 then None
          else
            var lessCost := CostOf(c, Buy, less, price);
            if less * price + lessCost > capital then None else Some(Ticket(less, lessCost))
  }

  predicate Whole(q: real) { q == q.Floor as real }

  /** A ticket is affordable, positive, priced by the cost model, and in whole shares if asked. */
  lemma OrderedFits(c: Config, price: real, want: real, capital: real)
    ensures var t := Ordered(c, price, want, capital);
      t.Some? ==>
        && t.value.qty > 0.0 && price > 0.0 && t.value.qty * price + t.value.cost <= capital
        && t.value.cost == CostOf(c, Buy, t.value.qty, price) && (c.wholeShares ==> Whole(t.value.qty))
  {
    hide CostOf, Tradable, Whole;
    TradableIsWhole(c);
  }

  lemma TradableIsWhole(c: Config)
    ensures forall q :: c.wholeShares ==> Whole(Tradable(c, q))
  {
  }

  /** What Python's `int` leaves of a quantity, when only whole shares trade. */
  lemma TradableMeans(c: Config, q: real)
    ensures var r := Tradable(c, q);
      if !c.wholeShares then r == q
      else Whole(r) && (q >= 0.0 ==> r <= q < r + 1.0) && (q < 0.0 ==> r - 1.0 < q <= r)
  {
  }

  predicate Affords(c: Config, price: real, qty: real, capital: real) {
    qty * price + CostOf(c, Buy, qty, price) <= capital
  }

  /** The size wanted, or all cash if that is less, in tradable shares; when cost takes it past the cash,
      what 99% of cash less that cost buys; nothing when that is not affordable either. */
  lemma OrderedWhen(c: Config, price: real, want: real, capital: real)
    requires want > 0.0 && price > 0.0
    ensures var wanted := Tradable(c, (if want < capital then want else capital) / price);
      var less := Tradable(c, (capital * 0.99 - CostOf(c, Buy, wanted, price)) / price);
      var t := Ordered(c, price, want, capital);
      && (wanted > 0.0 && Affords(c, price, wanted, capital) ==> t.Some? && t.value.qty == wanted)
      && (wanted > 0.0 && !Affords(c, price, wanted, capital) ==>
            (t.Some? <==> less > 0.0 && Affords(c, price, less, capital)) && (t.Some? ==> t.value.qty == less))
      && (wanted <= 0.0 ==> t.None?)
  {
    hide Tradable, CostOf;
  }

  function Entered(c: Config, p: Panel, s: State, next: nat, value: real, g: Signal): State
    requires next < |p.rows|
  {
    EnteredAt(c, s, next, Price(p, next, g.symbol), value, g)
  }

  function PositionOf(g: Signal, row: nat, price: real, qty: real, costIn: real): Position {
    Position(g.symbol, row, price, qty, price * (1.0 - g.stopLossPct), price * (1.0 + g.targetPct), g, costIn)
  }

  function EnteredAt(c: Config, s: State, next: nat, px: Option<real>, value: real, g: Signal): State {
    if Find(s.positions, g.symbol) < |s.positions| || !g.valid || px.None? then s
    else
      var price := Slipped(c, px.value, Buy, g.symbol);
      var ticket := Ordered(c, price, c.strategy.size(g, value), s.capital);
      if ticket.None? then s
      else
        var t := ticket.value;
        s.(capital := s.capital - (t.qty * price + t.cost),
           positions := s.positions + [PositionOf(g, next, price, t.qty, t.cost)])
  }

  function AllEntered(c: Config, p: Panel, s: State, next: nat, value: real, signals: seq<Signal>): State
    requires next < |p.rows|
  {
    if signals == [] then s
    else Entered(c, p, AllEntered(c, p, s, next, value, signals[..|signals| - 1]), next, value, signals[|signals| - 1])
  }

  function Exposure(p: Panel, row: nat, ps: seq<Position>): seq<(string, Option<real>)>
    requires row < |p.rows|
  {
    if ps == [] then []
    else
      var before, pos := Exposure(p, row, ps[..|ps| - 1]), ps[|ps| - 1];
      if pos.symbol in p.columns then before + [(pos.symbol, Times(pos.qty, Price(p, row, pos.symbol)))] else before
  }

  function Times(qty: real, px: Option<real>): Option<real> { if px.Some? then Some(qty * px.value) else None }

  /** Mark the book and check the drawdown: the halt names the next bar. */
  function Marked(c: Config, p: Panel, s: State, k: nat): (r: State)
    requires s.peak > 0.0 && c.offset + k < |p.rows|
    ensures r.peak >= s.peak && (r.halted.Some? ==> r.halted.value == c.offset + k + 1)
  {
    var value := s.capital + Held(p, c.offset + k, s.positions);
    var peak := if s.peak >= value then s.peak else value;
    s.(equity := s.equity + [(c.offset + k, value)], peak := peak,
       halted := if (peak - value) / peak > c.maxDrawdown then Some(c.offset + k + 1) else None)
  }

  function AfterExits(c: Config, p: Panel, s: State, k: nat): State
    requires c.offset + k + 1 < |p.rows|
  {
    AllExited(c, p, s, c.offset + k + 1, ToExit(c, p, c.offset + k, s.positions))
  }

  function FeaturesAt(c: Config, p: Panel, k: nat): Option<Features>
    requires c.offset + k < |p.rows|
  {
    c.strategy.features(p.rows[..c.offset + k + 1])
  }

  /** The strategy sees features of every row to the bar, and market data of the first k + 1 rows. */
  function SignalsAt(c: Config, p: Panel, ps: seq<Position>, k: nat): Option<seq<Signal>>
    requires c.offset + k < |p.rows|
  {
    var features := FeaturesAt(c, p, k);
    c.strategy.signals(if features.Some? then features.value else map[],
                       MarketDataAt(p, k), Exposure(p, c.offset + k, ps))
  }

  /** The per-symbol frames are cut by the number of the bar, counted from the start of the panel. */
  function MarketDataAt(p: Panel, k: nat): seq<Row>
    requires k < |p.rows|
  {
    p.rows[..k + 1]
  }

  /** Errors are counted and read as an empty frame and as no signals. */
  function Counted(c: Config, p: Panel, s: State, k: nat): State
    requires c.offset + k < |p.rows|
  {
    s.(featureErrors := s.featureErrors + (if FeaturesAt(c, p, k).None? then 1 else 0),
       strategyErrors := s.strategyErrors + (if SignalsAt(c, p, s.positions, k).None? then 1 else 0))
  }

  /** Exits, then signals, then entries, all filled at the next bar. */
  function Traded(c: Config, p: Panel, s: State, k: nat): State
    requires c.offset + k + 1 < |p.rows|
  {
    var value := s.capital + Held(p, c.offset + k, s.positions);
    var out := AfterExits(c, p, s, k);
    var signals := SignalsAt(c, p, out.positions, k);
    AllEntered(c, p, Counted(c, p, out, k), c.offset + k + 1, value, if signals.Some? then signals.value else [])
  }

  function Bar(c: Config, p: Panel, s: State, k: nat): (r: State)
    requires s.peak > 0.0 && c.offset + k + 1 < |p.rows|
    ensures r.peak >= s.peak && (r.halted == s.halted || r.halted == Some(c.offset + k + 1))
  {
    if s.halted.Some? then s
    else
      var marked := Marked(c, p, s, k);
      if marked.halted.Some? then marked
      else
        TradedKeepsPeak(c, p, marked, k);
        Traded(c, p, marked, k)
  }

  lemma {:induction false} ExitsKeepPeak(c: Config, p: Panel, s: State, next: nat, exits: seq<(string, string)>)
    requires next < |p.rows|
    ensures var r := AllExited(c, p, s, next, exits); r.peak == s.peak && r.halted == s.halted && r.equity == s.equity
  {
    if exits != [] {
      ExitsKeepPeak(c, p, s, next, exits[..|exits| - 1]);
    }
  }

  lemma {:induction false} EntriesKeepPeak(c: Config, p: Panel, s: State, next: nat, value: real, signals: seq<Signal>)
    requires next < |p.rows|
    ensures var r := AllEntered(c, p, s, next, value, signals);
      r.peak == s.peak && r.halted == s.halted && r.equity == s.equity
  {
    if signals != [] {
      EntriesKeepPeak(c, p, s, next, value, signals[..|signals| - 1]);
    }
  }

  lemma TradedKeepsPeak(c: Config, p: Panel, s: State, k: nat)
    requires c.offset + k + 1 < |p.rows|
    ensures var r := Traded(c, p, s, k); r.peak == s.peak && r.halted == s.halted && r.equity == s.equity
  {
    hide Held, AllExited, AllEntered, ToExit, SignalsAt, FeaturesAt;
    var value := s.capital + Held(p, c.offset + k, s.positions);
    var out := AfterExits(c, p, s, k);
    ExitsKeepPeak(c, p, s, c.offset + k + 1, ToExit(c, p, c.offset + k, s.positions));
    var signals := SignalsAt(c, p, out.positions, k);
    EntriesKeepPeak(c, p, Counted(c, p, out, k), c.offset + k + 1, value, if signals.Some? then signals.value else []);
  }

  // ---------------------------------------------------------------- a whole run

  function Start(c: Config): State { State(c.initial, c.initial, [], [], [], 0, 0, None) }

  /** The state on entering bar k. */
  function Entering(c: Config, p: Panel, k: nat): (s: State)
    requires c.initial > 0.0 && c.offset + k < |p.rows|
    ensures s.peak > 0.0 && (s.halted.Some? ==> c.offset < s.halted.value <= c.offset + k)
  {
    if k == 0 then Start(c) else Bar(c, p, Entering(c, p, k - 1), k - 1)
  }

  /** Close everything that has a price on the final row; the rest stays open. */
  function Liquidated(c: Config, p: Panel, s: State, row: nat, symbols: seq<string>): State
    requires row < |p.rows|
  {
    if symbols == [] then s
    else
      var t, symbol := Liquidated(c, p, s, row, symbols[..|symbols| - 1]), symbols[|symbols| - 1];
      var i, px := Find(t.positions, symbol), Price(p, row, symbol);
      if i == |t.positions| || px.None? then t else Sold(c, t, i, px.value, row, "end_of_backtest")
  }

  function Symbols(ps: seq<Position>): (r: seq<string>)
    ensures |r| == |ps| && forall i :: 0 <= i < |ps| ==> r[i] == ps[i].symbol
  {
    seq(|ps|, i requires 0 <= i < |ps| => ps[i].symbol)
  }

  function FinalRow(c: Config, s: State): nat
    requires c.bars >= 1
  {
    if s.halted.Some? then s.halted.value else c.offset + c.bars - 1
  }

  function Closed(c: Config, p: Panel, s: State): State
    requires c.bars >= 1 && FinalRow(c, s) < |p.rows|
  {
    var row := FinalRow(c, s);
    var t := Liquidated(c, p, s, row, Symbols(s.positions));
    t.(equity := t.equity + [(row, t.capital)])
  }

  /** More than one bar in twenty that raised invalidates the run. */
  function Judged(c: Config, s: State): Outcome
    requires c.bars >= 2
  {
    if s.featureErrors as real / (c.bars - 1) as real > 0.05 then FeaturesBroken
    else if s.strategyErrors as real / (c.bars - 1) as real > 0.05 then StrategyBroken
    else Done(s)
  }

  function Result(c: Config, p: Panel): Outcome
    requires c.initial > 0.0 && c.offset + c.bars <= |p.rows|
  {
    if c.bars < 2 then TooFewBars else Judged(c, Closed(c, p, Entering(c, p, c.bars - 1)))
  }

  // ---------------------------------------------------------------- no look-ahead

  /** The panels agree on rows 0..n-1. */
  ghost predicate Agree(p: Panel, q: Panel, n: nat) {
    p.columns == q.columns && n <= |p.rows| && n <= |q.rows| && p.rows[..n] == q.rows[..n]
  }

  lemma AgreeOnPrices(p: Panel, q: Panel, n: nat, row: nat)
    requires Agree(p, q, n) && row < n
    ensures forall symbol :: Price(p, row, symbol) == Price(q, row, symbol)
  {
    assert p.rows[..n][row] == q.rows[..n][row];
  }

  lemma {:induction false} AgreeOnBook(c: Config, p: Panel, q: Panel, row: nat, ps: seq<Position>)
    requires row < |p.rows| && row < |q.rows| && p.columns == q.columns
    requires forall symbol :: Price(p, row, symbol) == Price(q, row, symbol)
    ensures Held(p, row, ps) == Held(q, row, ps)
    ensures ToExit(c, p, row, ps) == ToExit(c, q, row, ps)
    ensures Exposure(p, row, ps) == Exposure(q, row, ps)
  {
    hide Price, Times;
    if ps != [] {
      AgreeOnBook(c, p, q, row, ps[..|ps| - 1]);
      var symbol := ps[|ps| - 1].symbol;
      assert Price(p, row, symbol) == Price(q, row, symbol);
    }
  }

  lemma {:induction false} AgreeOnExits(c: Config, p: Panel, q: Panel, s: State, next: nat,
                                        exits: seq<(string, string)>)
    requires next < |p.rows| && next < |q.rows|
    requires forall symbol :: Price(p, next, symbol) == Price(q, next, symbol)
    ensures AllExited(c, p, s, next, exits) == AllExited(c, q, s, next, exits)
  {
    hide Price, Sold;
    if exits != [] {
      AgreeOnExits(c, p, q, s, next, exits[..|exits| - 1]);
    }
  }

  lemma AgreeOnEntry(c: Config, p: Panel, q: Panel, s: State, next: nat, value: real, g: Signal)
    requires next < |p.rows| && next < |q.rows| && Price(p, next, g.symbol) == Price(q, next, g.symbol)
    ensures Entered(c, p, s, next, value, g) == Entered(c, q, s, next, value, g)
  {
    hide Price, EnteredAt;
  }

  lemma {:induction false} AgreeOnEntries(c: Config, p: Panel, q: Panel, s: State, next: nat, value: real,
                                          signals: seq<Signal>)
    requires next < |p.rows| && next < |q.rows|
    requires forall symbol :: Price(p, next, symbol) == Price(q, next, symbol)
    ensures AllEntered(c, p, s, next, value, signals) == AllEntered(c, q, s, next, value, signals)
  {
    hide Entered, Price;
    if signals != [] {
      AgreeOnEntries(c, p, q, s, next, value, signals[..|signals| - 1]);
      AgreeOnEntry(c, p, q, AllEntered(c, p, s, next, value, signals[..|signals| - 1]), next, value,
                   signals[|signals| - 1]);
    }
  }

  lemma AgreeOnViews(c: Config, p: Panel, q: Panel, k: nat, ps: seq<Position>)
    requires Agree(p, q, c.offset + k + 1)
    ensures FeaturesAt(c, p, k) == FeaturesAt(c, q, k) && SignalsAt(c, p, ps, k) == SignalsAt(c, q, ps, k)
  {
    var n := c.offset + k + 1;
    AgreeOnPrices(p, q, n, c.offset + k);
    AgreeOnBook(c, p, q, c.offset + k, ps);
    assert p.rows[..k + 1] == p.rows[..n][..k + 1];
    assert q.rows[..k + 1] == q.rows[..n][..k + 1];
  }

  lemma AgreeOnBar(c: Config, p: Panel, q: Panel, s: State, k: nat)
    requires s.peak > 0.0 && Agree(p, q, c.offset + k + 2)
    ensures Bar(c, p, s, k) == Bar(c, q, s, k)
  {
    hide Held, ToExit, Exposure, Price, AllExited, AllEntered, FeaturesAt, SignalsAt;
    var n, row := c.offset + k + 2, c.offset + k;
    AgreeOnPrices(p, q, n, row);
    AgreeOnPrices(p, q, n, row + 1);
    AgreeOnBook(c, p, q, row, s.positions);
    assert p.rows[..n - 1] == p.rows[..n][..n - 1];
    assert q.rows[..n - 1] == q.rows[..n][..n - 1];
    var marked := Marked(c, p, s, k);
    AgreeOnBook(c, p, q, row, marked.positions);
    AgreeOnExits(c, p, q, marked, row + 1, ToExit(c, p, row, marked.positions));
    var out := AfterExits(c, p, marked, k);
    AgreeOnViews(c, p, q, k, out.positions);
    var value := marked.capital + Held(p, row, marked.positions);
    var signals := SignalsAt(c, p, out.positions, k);
    AgreeOnEntries(c, p, q, Counted(c, p, out, k), row + 1, value, if signals.Some? then signals.value else []);
  }

  /** Two panels with the same rows up to bar k's date put the run in the same state entering bar k:
      cash, positions, trades, equity entries, error counts and halt. */
  lemma {:induction false} NoLookAhead(c: Config, p: Panel, q: Panel, k: nat)
    requires c.initial > 0.0 && Agree(p, q, c.offset + k + 1)
    ensures Entering(c, p, k) == Entering(c, q, k)
    ensures Marked(c, p, Entering(c, p, k), k) == Marked(c, q, Entering(c, q, k), k)
  {
    hide Bar, Held, Price;
    var n := c.offset + k + 1;
    if k > 0 {
      assert p.rows[..n - 1] == p.rows[..n][..n - 1];
      assert q.rows[..n - 1] == q.rows[..n][..n - 1];
      NoLookAhead(c, p, q, k - 1);
      AgreeOnBar(c, p, q, Entering(c, p, k - 1), k - 1);
    }
    AgreeOnPrices(p, q, n, n - 1);
    AgreeOnBook(c, p, q, n - 1, Entering(c, p, k).positions);
  }

  lemma {:induction false} AgreeOnLiquidation(c: Config, p: Panel, q: Panel, s: State, row: nat, symbols: seq<string>)
    requires row < |p.rows| && row < |q.rows|
    requires forall symbol :: Price(p, row, symbol) == Price(q, row, symbol)
    ensures Liquidated(c, p, s, row, symbols) == Liquidated(c, q, s, row, symbols)
  {
    hide Price, Sold;
    if symbols != [] {
      AgreeOnLiquidation(c, p, q, s, row, symbols[..|symbols| - 1]);
    }
  }

  lemma {:induction false} HaltedStaysPut(c: Config, p: Panel, k: nat, n: nat)
    requires c.initial > 0.0 && k <= n && c.offset + n < |p.rows| && Entering(c, p, k).halted.Some?
    ensures Entering(c, p, n) == Entering(c, p, k)
  {
    hide Marked, Traded;
    if k < n {
      HaltedStaysPut(c, p, k, n - 1);
    }
  }

  /** A drawdown halt at bar k - 1 fixes the whole result, liquidation included: nothing after the
      halt date can change it. */
  lemma HaltFixesTheResult(c: Config, p: Panel, q: Panel, k: nat)
    requires c.initial > 0.0 && k < c.bars && c.offset + c.bars <= |p.rows| && c.offset + c.bars <= |q.rows|
    requires Agree(p, q, c.offset + k + 1) && Entering(c, p, k).halted.Some?
    ensures Result(c, p) == Result(c, q)
  {
    hide Entering, Liquidated, Price;
    if c.bars >= 2 {
      NoLookAhead(c, p, q, k);
      HaltedStaysPut(c, p, k, c.bars - 1);
      HaltedStaysPut(c, q, k, c.bars - 1);
      var s := Entering(c, p, k);
      AgreeOnPrices(p, q, c.offset + k + 1, s.halted.value);
      AgreeOnLiquidation(c, p, q, s, s.halted.value, Symbols(s.positions));
    }
  }

  /** The market data of bar k is the panel up to the bar's own row exactly when no rows precede the
      window. */
  lemma MarketDataIsCurrentWhen(c: Config, p: Panel, k: nat)
    requires c.offset + k < |p.rows|
    ensures MarketDataAt(p, k) == p.rows[..c.offset + k + 1] <==> c.offset == 0
  {
    assert |MarketDataAt(p, k)| == k + 1 && |p.rows[..c.offset + k + 1]| == c.offset + k + 1;
  }

  /** The same panel with another row at this place. */
  function WithRow(p: Panel, row: nat, r: Row): Panel
    requires row < |p.rows|
  {
    p.(rows := p.rows[row := r])
  }

  /** A strategy that looks at market data only. */
  ghost predicate ReadsMarketData(strategy: Strategy) { forall rows :: strategy.features(rows).None? }

  ghost predicate SameSignals(c: Config, strategy: Strategy, p: Panel, q: Panel, k: nat)
    requires c.offset + k < |p.rows| && c.offset + k < |q.rows|
  {
    SignalsAt(c.(strategy := strategy), p, [], k) == SignalsAt(c.(strategy := strategy), q, [], k)
  }

  /** Replace the bar's own row by any other: no strategy that looks at market data can tell, exactly
      when there is a warm-up. With none, a strategy that compares the rows can. */
  lemma BarRowIsUnseenWhen(c: Config, p: Panel, k: nat, r: Row)
    requires c.offset + k < |p.rows| && r != p.rows[c.offset + k]
    ensures (forall strategy :: ReadsMarketData(strategy) ==>
               SameSignals(c, strategy, p, WithRow(p, c.offset + k, r), k))
       <==> c.offset > 0
  {
    var q := WithRow(p, c.offset + k, r);
    if c.offset > 0 {
      assert MarketDataAt(p, k) == MarketDataAt(q, k);
    } else {
      var seen := MarketDataAt(p, k);
      assert seen[k] != MarketDataAt(q, k)[k];
      var comparing := Strategy(rows => None, (pos, px, row) => false,
                                (features, rows, held) => if rows == seen then Some([]) else None, (g, value) => 0.0);
      assert ReadsMarketData(comparing) && !SameSignals(c, comparing, p, q, k);
    }
  }

  ghost predicate SameFeatures(c: Config, strategy: Strategy, p: Panel, q: Panel, k: nat)
    requires c.offset + k < |p.rows| && c.offset + k < |q.rows|
  {
    FeaturesAt(c.(strategy := strategy), p, k) == FeaturesAt(c.(strategy := strategy), q, k)
  }

  /** The features do see it: another row can go unnoticed by every strategy exactly when it comes after
      the bar. */
  lemma FeaturesSeeTheBar(c: Config, p: Panel, k: nat, i: nat, r: Row)
    requires c.offset + k < |p.rows| && i < |p.rows| && r != p.rows[i]
    ensures (forall strategy :: SameFeatures(c, strategy, p, WithRow(p, i, r), k)) <==> i > c.offset + k
  {
    var n, q := c.offset + k + 1, WithRow(p, i, r);
    if i >= n {
      assert p.rows[..n] == q.rows[..n];
    } else {
      var seen := p.rows[..n];
      assert seen[i] != q.rows[..n][i];
      var comparing := Strategy(rows => if rows == seen then Some(map[]) else None, (pos, px, row) => false,
                                (features, rows, held) => None, (g, value) => 0.0);
      assert !SameFeatures(c, comparing, p, q, k);
    }
  }

  // ---------------------------------------------------------------- equity, drawdown and slippage

  /** The largest of the initial capital and the equity entries. */
  function Highest(initial: real, equity: seq<(int, real)>): real {
    if equity == [] then initial
    else
      var before, last := Highest(initial, equity[..|equity| - 1]), equity[|equity| - 1].1;
      if before >= last then before else last
  }

  predicate Breaches(c: Config, equity: seq<(int, real)>, i: nat)
    requires i < |equity| && c.initial > 0.0
  {
    HighestIsPositive(c.initial, equity[..i + 1]);
    (Highest(c.initial, equity[..i + 1]) - equity[i].1) / Highest(c.initial, equity[..i + 1]) > c.maxDrawdown
  }

  lemma {:induction false} HighestIsPositive(initial: real, equity: seq<(int, real)>)
    requires initial > 0.0
    ensures Highest(initial, equity) > 0.0
  {
    if equity != [] {
      HighestIsPositive(initial, equity[..|equity| - 1]);
    }
  }

  /** One equity entry a bar, dated by the bar; the run is halted exactly when the last entry lies
      further below the highest so far than the drawdown allows, and no earlier entry did. */
  lemma {:induction false} HaltMeans(c: Config, p: Panel, k: nat)
    requires c.initial > 0.0 && c.offset + k < |p.rows|
    ensures var s := Entering(c, p, k);
      && s.peak == Highest(c.initial, s.equity)
      && (forall i :: 0 <= i < |s.equity| ==> s.equity[i].0 == c.offset + i)
      && (s.halted.None? ==> |s.equity| == k)
      && (s.halted.Some? ==> s.equity != [] && s.halted.value == c.offset + |s.equity|)
      && (forall i :: 0 <= i < |s.equity| ==>
            (Breaches(c, s.equity, i) <==> s.halted.Some? && i == |s.equity| - 1))
  {
    hide Traded, Held, Breaches, Marked, Highest;
    if k == 0 {
      NothingMarked(c, p);
    } else {
      HaltMeans(c, p, k - 1);
      var was := Entering(c, p, k - 1);
      if was.halted.None? {
        var marked := Marked(c, p, was, k - 1);
        TradedKeepsPeak(c, p, marked, k - 1);
        OneMoreMark(c, p, was, k - 1);
      }
    }
  }

  lemma NothingMarked(c: Config, p: Panel)
    requires c.initial > 0.0 && c.offset < |p.rows|
    ensures Entering(c, p, 0) == Start(c) && Highest(c.initial, []) == c.initial
  {
  }

  lemma OneMoreMark(c: Config, p: Panel, s: State, k: nat)
    requires c.initial > 0.0 && c.offset + k < |p.rows| && s.peak > 0.0 && s.peak == Highest(c.initial, s.equity)
    ensures var t := Marked(c, p, s, k);
      && t.peak == Highest(c.initial, t.equity) && |t.equity| == |s.equity| + 1 && s.equity <= t.equity
      && t.equity[|s.equity|].0 == c.offset + k
      && (t.halted.Some? <==> Breaches(c, t.equity, |s.equity|))
      && (forall i :: 0 <= i < |s.equity| ==> (Breaches(c, t.equity, i) <==> Breaches(c, s.equity, i)))
  {
    hide Held;
    var t := Marked(c, p, s, k);
    assert t.equity[..|s.equity|] == s.equity && t.equity[..|s.equity| + 1] == t.equity;
    forall i | 0 <= i < |s.equity|
      ensures t.equity[..i + 1] == s.equity[..i + 1] && t.equity[i] == s.equity[i]
    {
    }
  }

  /** Slippage never helps the trader and costs at most half a percent of the price. */
  lemma SlippageHurts(c: Config, price: real, symbol: string)
    requires price >= 0.0 && c.multiplier >= 0.0
    ensures price <= Slipped(c, price, Buy, symbol) <= price * 1.005
    ensures price * 0.995 <= Slipped(c, price, Sell, symbol) <= price
  {
    var slip := Slippage(c, symbol);
    assert 0.0 <= slip <= 0.005;
    SlipWithin(price, slip);
    assert Slipped(c, price, Buy, symbol) == price * (1.0 + slip) == price + price * slip;
    assert Slipped(c, price, Sell, symbol) == price * (1.0 - slip) == price - price * slip;
    assert price * 1.005 == price + price * 0.005;
    assert price * 0.995 == price - price * 0.005;
  }

  lemma SlipWithin(price: real, slip: real)
    requires price >= 0.0 && 0.0 <= slip <= 0.005
    ensures 0.0 <= price * slip <= price * 0.005
  {
    assert price * (0.005 - slip) >= 0.0;
  }

  // ---------------------------------------------------------------- where the money goes

  function Paid(pos: Position): real { pos.qty * pos.entryPrice + pos.costIn }

  /** What open positions cost, entry charges included. */
  function Invested(ps: seq<Position>): real {
    if ps == [] then 0.0 else Invested(ps[..|ps| - 1]) + Paid(ps[|ps| - 1])
  }

  function Realised(ts: seq<Trade>): real {
    if ts == [] then 0.0 else Realised(ts[..|ts| - 1]) + ts[|ts| - 1].pnlNet
  }

  /** Cash plus what is invested is the initial capital plus every realised net result; no symbol
      is held twice; every position is a positive (whole) quantity at a positive price. */
  ghost predicate Sound(c: Config, s: State) {
    && s.capital + Invested(s.positions) == c.initial + Realised(s.trades)
    && OnePerSymbol(s.positions)
    && (forall i :: 0 <= i < |s.positions| ==>
          && s.positions[i].qty > 0.0 && s.positions[i].entryPrice > 0.0
          && (c.wholeShares ==> Whole(s.positions[i].qty)))
  }

  lemma {:induction false} InvestedWithout(ps: seq<Position>, i: nat)
    requires i < |ps|
    ensures Invested(ps) == Invested(ps[..i] + ps[i + 1..]) + Paid(ps[i])
  {
    hide Paid;
    var n := |ps| - 1;
    var out := ps[..i] + ps[i + 1..];
    if i < n {
      InvestedWithout(ps[..n], i);
      assert out[..|out| - 1] == ps[..n][..i] + ps[..n][i + 1..];
      assert out[|out| - 1] == ps[n];
    } else {
      assert out == ps[..n];
    }
  }

  lemma SoldIsSound(c: Config, s: State, i: nat, price: real, row: nat, reason: string)
    requires Sound(c, s) && i < |s.positions|
    ensures Sound(c, Sold(c, s, i, price, row, reason))
  {
    hide Slipped, CostOf;
    var t := Sold(c, s, i, price, row, reason);
    InvestedWithout(s.positions, i);
    assert t.trades[..|s.trades|] == s.trades;
    var pos, px := s.positions[i], Slipped(c, price, Sell, s.positions[i].symbol);
    assert pos.qty * (px - pos.entryPrice) == pos.qty * px - pos.qty * pos.entryPrice;
  }

  /** An entry is paid in full from the cash there is. */
  lemma EntryIsSound(c: Config, p: Panel, s: State, next: nat, value: real, g: Signal)
    requires Sound(c, s) && next < |p.rows|
    ensures Sound(c, Entered(c, p, s, next, value, g))
    ensures Entered(c, p, s, next, value, g) != s ==> 0.0 <= Entered(c, p, s, next, value, g).capital
  {
    hide Price, EnteredAt;
    EnteredAtIsSound(c, s, next, Price(p, next, g.symbol), value, g);
  }

  lemma EnteredAtIsSound(c: Config, s: State, next: nat, px: Option<real>, value: real, g: Signal)
    requires Sound(c, s)
    ensures Sound(c, EnteredAt(c, s, next, px, value, g))
    ensures EnteredAt(c, s, next, px, value, g) != s ==> 0.0 <= EnteredAt(c, s, next, px, value, g).capital
  {
    hide Slipped, CostOf, Ordered, Invested, Sound, Whole;
    if px.Some? {
      OrderedFits(c, Slipped(c, px.value, Buy, g.symbol), c.strategy.size(g, value), s.capital);
    }
    var t := EnteredAt(c, s, next, px, value, g);
    if t != s {
      var pos := t.positions[|s.positions|];
      assert t == s.(capital := s.capital - Paid(pos), positions := s.positions + [pos]);
      BoughtIsSound(c, s, pos);
    }
  }

  lemma BoughtIsSound(c: Config, s: State, pos: Position)
    requires Sound(c, s) && pos.qty > 0.0 && pos.entryPrice > 0.0 && Find(s.positions, pos.symbol) == |s.positions|
    requires c.wholeShares ==> Whole(pos.qty)
    ensures Sound(c, s.(capital := s.capital - Paid(pos), positions := s.positions + [pos]))
  {
    hide Paid;
    assert (s.positions + [pos])[..|s.positions|] == s.positions;
  }

  lemma {:induction false} ExitsAreSound(c: Config, p: Panel, s: State, next: nat, exits: seq<(string, string)>)
    requires Sound(c, s) && next < |p.rows|
    ensures Sound(c, AllExited(c, p, s, next, exits))
  {
    hide Sound, Sold, Price;
    if exits != [] {
      var last := exits[|exits| - 1];
      ExitsAreSound(c, p, s, next, exits[..|exits| - 1]);
      var t := AllExited(c, p, s, next, exits[..|exits| - 1]);
      var i := Find(t.positions, last.0);
      if i < |t.positions| {
        var px := Price(p, next, last.0);
        SoldIsSound(c, t, i, if px.Some? then px.value else t.positions[i].entryPrice, next, last.1);
      }
    }
  }

  lemma {:induction false} EntriesAreSound(c: Config, p: Panel, s: State, next: nat, value: real, signals: seq<Signal>)
    requires Sound(c, s) && next < |p.rows|
    ensures Sound(c, AllEntered(c, p, s, next, value, signals))
  {
    hide Sound, Entered;
    if signals != [] {
      EntriesAreSound(c, p, s, next, value, signals[..|signals| - 1]);
      EntryIsSound(c, p, AllEntered(c, p, s, next, value, signals[..|signals| - 1]), next, value,
                   signals[|signals| - 1]);
    }
  }

  lemma {:induction false} LiquidationIsSound(c: Config, p: Panel, s: State, row: nat, symbols: seq<string>)
    requires Sound(c, s) && row < |p.rows|
    ensures Sound(c, Liquidated(c, p, s, row, symbols))
  {
    hide Sound, Sold, Price;
    if symbols != [] {
      LiquidationIsSound(c, p, s, row, symbols[..|symbols| - 1]);
      var t, symbol := Liquidated(c, p, s, row, symbols[..|symbols| - 1]), symbols[|symbols| - 1];
      var i, px := Find(t.positions, symbol), Price(p, row, symbol);
      if i < |t.positions| && px.Some? {
        SoldIsSound(c, t, i, px.value, row, "end_of_backtest");
      }
    }
  }

  lemma SameMoney(c: Config, s: State, t: State)
    requires Sound(c, s) && t.capital == s.capital && t.positions == s.positions && t.trades == s.trades
    ensures Sound(c, t)
  {
  }

  /** On entering every bar of every run. */
  lemma {:induction false} CashIsAccountedFor(c: Config, p: Panel, k: nat)
    requires c.initial > 0.0 && c.offset + k < |p.rows|
    ensures Sound(c, Entering(c, p, k))
  {
    hide Sound, Held, AllExited, AllEntered, ToExit;
    if k == 0 {
      StartIsSound(c);
    } else {
      CashIsAccountedFor(c, p, k - 1);
      var s := Entering(c, p, k - 1);
      var marked := Marked(c, p, s, k - 1);
      SameMoney(c, s, marked);
      var out := AfterExits(c, p, marked, k - 1);
      ExitsAreSound(c, p, marked, c.offset + k, ToExit(c, p, c.offset + k - 1, marked.positions));
      SameMoney(c, out, Counted(c, p, out, k - 1));
      var value := marked.capital + Held(p, c.offset + k - 1, marked.positions);
      var signals := SignalsAt(c, p, out.positions, k - 1);
      EntriesAreSound(c, p, Counted(c, p, out, k - 1), c.offset + k, value,
                      if signals.Some? then signals.value else []);
    }
  }

  lemma StartIsSound(c: Config)
    ensures Sound(c, Start(c))
  {
  }

  ghost predicate OnePerSymbol(ps: seq<Position>) {
    forall i, j :: 0 <= i < j < |ps| ==> ps[i].symbol != ps[j].symbol
  }

  /** The positions without a price on this row. */
  function Unpriced(p: Panel, row: nat, ps: seq<Position>): (r: seq<Position>)
    requires row < |p.rows|
    ensures forall i :: 0 <= i < |r| ==> r[i] in ps
    ensures r == [] <==> forall i :: 0 <= i < |ps| ==> Price(p, row, ps[i].symbol).Some?
  {
    if ps == [] then []
    else
      var before, pos := Unpriced(p, row, ps[..|ps| - 1]), ps[|ps| - 1];
      if Price(p, row, pos.symbol).None? then before + [pos] else before
  }

  ghost function LeftAfter(c: Config, p: Panel, s: State, row: nat, n: nat): seq<Position>
    requires row < |p.rows| && n <= |s.positions|
  {
    Liquidated(c, p, s, row, Symbols(s.positions)[..n]).positions
  }

  ghost function LeftOver(p: Panel, row: nat, ps: seq<Position>, n: nat): seq<Position>
    requires row < |p.rows| && n <= |ps|
  {
    Unpriced(p, row, ps[..n]) + ps[n..]
  }

  /** After n liquidations: of the first n positions those without a final price, then the others. */
  lemma {:induction false} LiquidationLeaves(c: Config, p: Panel, s: State, row: nat, n: nat)
    requires row < |p.rows| && n <= |s.positions| && OnePerSymbol(s.positions)
    ensures LeftAfter(c, p, s, row, n) == LeftOver(p, row, s.positions, n)
  {
    hide LeftAfter, LeftOver, OnePerSymbol;
    if n > 0 {
      LiquidationLeaves(c, p, s, row, n - 1);
      OneMoreLeaves(c, p, s, row, n - 1);
    } else {
      NothingLiquidated(c, p, s, row);
    }
  }

  lemma OneMoreLeaves(c: Config, p: Panel, s: State, row: nat, n: nat)
    requires row < |p.rows| && n < |s.positions| && OnePerSymbol(s.positions)
    requires LeftAfter(c, p, s, row, n) == LeftOver(p, row, s.positions, n)
    ensures LeftAfter(c, p, s, row, n + 1) == LeftOver(p, row, s.positions, n + 1)
  {
    hide Price, OnePerSymbol, Symbols, Liquidated, Unpriced, Find;
    OneMoreLiquidated(c, p, s, row, Symbols(s.positions), n);
    SymbolAt(s.positions, n);
    OneLeaves(p, row, s.positions, n, LeftAfter(c, p, s, row, n));
  }

  lemma OneLeaves(p: Panel, row: nat, ps: seq<Position>, n: nat, was: seq<Position>)
    requires row < |p.rows| && n < |ps| && OnePerSymbol(ps) && was == Unpriced(p, row, ps[..n]) + ps[n..]
    ensures var i := Find(was, ps[n].symbol);
      Unpriced(p, row, ps[..n + 1]) + ps[n + 1..]
      == if i == |was| || Price(p, row, ps[n].symbol).None? then was else was[..i] + was[i + 1..]
  {
    var before := Unpriced(p, row, ps[..n]);
    hide Unpriced, Price, Find, OnePerSymbol;
    NextInLine(ps, before, n);
    OneMoreUnpriced(p, row, ps, n);
  }

  lemma SymbolAt(ps: seq<Position>, i: nat)
    requires i < |ps|
    ensures Symbols(ps)[i] == ps[i].symbol
  {
  }

  lemma NothingLiquidated(c: Config, p: Panel, s: State, row: nat)
    requires row < |p.rows|
    ensures LeftAfter(c, p, s, row, 0) == LeftOver(p, row, s.positions, 0)
  {
    hide Symbols;
    assert Liquidated(c, p, s, row, Symbols(s.positions)[..0]) == s;
  }

  lemma OneMoreLiquidated(c: Config, p: Panel, s: State, row: nat, symbols: seq<string>, n: nat)
    requires row < |p.rows| && n < |symbols|
    ensures var was := Liquidated(c, p, s, row, symbols[..n]).positions;
      var i := Find(was, symbols[n]);
      Liquidated(c, p, s, row, symbols[..n + 1]).positions
      == if i == |was| || Price(p, row, symbols[n]).None? then was else was[..i] + was[i + 1..]
  {
    hide Find, Price, Slipped, CostOf, TradeOf;
    assert symbols[..n + 1][..n] == symbols[..n];
  }

  lemma OneMoreUnpriced(p: Panel, row: nat, ps: seq<Position>, n: nat)
    requires row < |p.rows| && n < |ps|
    ensures Unpriced(p, row, ps[..n + 1])
            == if Price(p, row, ps[n].symbol).None? then Unpriced(p, row, ps[..n]) + [ps[n]]
               else Unpriced(p, row, ps[..n])
  {
    hide Price;
    assert ps[..n + 1][..n] == ps[..n];
  }

  lemma NextInLine(ps: seq<Position>, before: seq<Position>, n: nat)
    requires n < |ps| && OnePerSymbol(ps) && forall i :: 0 <= i < |before| ==> before[i] in ps[..n]
    ensures var left := before + ps[n..];
      && Find(left, ps[n].symbol) == |before|
      && left[..|before|] + left[|before| + 1..] == before + ps[n + 1..]
      && left == before + [ps[n]] + ps[n + 1..]
  {
    var left := before + ps[n..];
    assert left[|before|] == ps[n];
    forall i | 0 <= i < |before|
      ensures left[i].symbol != ps[n].symbol
    {
      assert left[i] == before[i];
    }
  }

  /** The final capital and what is left invested make the initial capital plus every realised net
      result; nothing is left exactly when every open position had a price on the final row. */
  lemma FinalCapital(c: Config, p: Panel)
    requires c.initial > 0.0 && c.bars >= 2 && c.offset + c.bars <= |p.rows|
    ensures var s := Entering(c, p, c.bars - 1);
      && FinalRow(c, s) < |p.rows|
      && var t := Closed(c, p, s);
      && t.capital + Invested(t.positions) == c.initial + Realised(t.trades)
      && (t.positions == [] <==>
            forall i :: 0 <= i < |s.positions| ==> Price(p, FinalRow(c, s), s.positions[i].symbol).Some?)
  {
    hide Entering, Price, Liquidated;
    var s := Entering(c, p, c.bars - 1);
    CashIsAccountedFor(c, p, c.bars - 1);
    var row, n := FinalRow(c, s), |s.positions|;
    LiquidationIsSound(c, p, s, row, Symbols(s.positions));
    LiquidationLeaves(c, p, s, row, n);
    assert Symbols(s.positions)[..n] == Symbols(s.positions) && s.positions[..n] == s.positions;
    SameMoney(c, Liquidated(c, p, s, row, Symbols(s.positions)), Closed(c, p, s));
  }

  /** The equity of a run ends, after one entry a bar, with what the trades have made of the capital. */
  lemma FinalEquity(c: Config, p: Panel)
    requires c.initial > 0.0 && c.bars >= 2 && c.offset + c.bars <= |p.rows|
    ensures var s := Entering(c, p, c.bars - 1);
      && FinalRow(c, s) < |p.rows|
      && var t := Closed(c, p, s);
      && |t.equity| == |s.equity| + 1 && t.equity[..|s.equity|] == s.equity
      && t.equity[|s.equity|] == (FinalRow(c, s), c.initial + Realised(t.trades) - Invested(t.positions))
  {
    hide Entering, Liquidated, Realised, Invested, Symbols;
    FinalCapital(c, p);
    var s := Entering(c, p, c.bars - 1);
    LiquidationKeepsEquity(c, p, s, FinalRow(c, s), Symbols(s.positions));
  }

  lemma {:induction false} LiquidationKeepsEquity(c: Config, p: Panel, s: State, row: nat, symbols: seq<string>)
    requires row < |p.rows|
    ensures Liquidated(c, p, s, row, symbols).equity == s.equity
  {
    if symbols != [] {
      LiquidationKeepsEquity(c, p, s, row, symbols[..|symbols| - 1]);
    }
  }

  // ---------------------------------------------------------------- at what prices

  /** Bought at the close of its entry row, slipped, from a valid signal, with the charges of a purchase and
      the stop and target the signal asks for. */
  predicate PositionPriced(c: Config, p: Panel, pos: Position) {
    && 0 <= pos.entryRow < |p.rows| && Price(p, pos.entryRow, pos.symbol).Some?
    && pos.entryPrice == Price(p, pos.entryRow, pos.symbol).value * (1.0 + Slippage(c, pos.symbol))
    && pos.costIn == CostOf(c, Buy, pos.qty, pos.entryPrice)
    && pos.signal.valid && pos.signal.symbol == pos.symbol
    && pos.stop == pos.entryPrice * (1.0 - pos.signal.stopLossPct)
    && pos.target == pos.entryPrice * (1.0 + pos.signal.targetPct)
  }

  /** Sold at the close of its exit row where there is one, else at its entry price, slipped either way;
      the result is the difference less both charges. */
  predicate TradePriced(c: Config, p: Panel, t: Trade) {
    && 0 <= t.entryRow <= t.exitRow < |p.rows| && Price(p, t.entryRow, t.symbol).Some?
    && t.entryPrice == Price(p, t.entryRow, t.symbol).value * (1.0 + Slippage(c, t.symbol))
    && var close := Price(p, t.exitRow, t.symbol);
       && t.exitPrice == (if close.Some? then close.value else t.entryPrice) * (1.0 - Slippage(c, t.symbol))
       && t.cost == CostOf(c, Buy, t.qty, t.entryPrice) + CostOf(c, Sell, t.qty, t.exitPrice)
       && t.pnlGross == t.qty * (t.exitPrice - t.entryPrice) && t.pnlNet == t.pnlGross - t.cost
       && (t.reason == "end_of_backtest" ==> close.Some?)
  }

  ghost predicate Priced(c: Config, p: Panel, s: State, row: int) {
    && (forall i :: 0 <= i < |s.positions| ==>
          PositionPriced(c, p, s.positions[i]) && s.positions[i].entryRow <= row)
    && (forall i :: 0 <= i < |s.trades| ==> TradePriced(c, p, s.trades[i]) && s.trades[i].exitRow <= row)
  }

  lemma SoldIsPriced(c: Config, p: Panel, s: State, i: nat, price: real, row: nat, reason: string)
    requires row < |p.rows| && Priced(c, p, s, row) && i < |s.positions|
    requires var close := Price(p, row, s.positions[i].symbol);
      && price == (if close.Some? then close.value else s.positions[i].entryPrice)
      && (reason == "end_of_backtest" ==> close.Some?)
    ensures Priced(c, p, Sold(c, s, i, price, row, reason), row)
  {
    hide Slippage, CostOf, Price;
    assert PositionPriced(c, p, s.positions[i]);
    SoldTradeIsPriced(c, p, s.positions[i], price, row, reason);
    hide TradePriced, PositionPriced, TradeOf, Slipped;
  }

  lemma SoldTradeIsPriced(c: Config, p: Panel, pos: Position, price: real, row: nat, reason: string)
    requires row < |p.rows| && PositionPriced(c, p, pos) && pos.entryRow <= row
    requires var close := Price(p, row, pos.symbol);
      && price == (if close.Some? then close.value else pos.entryPrice)
      && (reason == "end_of_backtest" ==> close.Some?)
    ensures var px := Slipped(c, price, Sell, pos.symbol);
      TradePriced(c, p, TradeOf(pos, px, CostOf(c, Sell, pos.qty, px), row, reason))
  {
    hide Slippage, CostOf, Price;
  }

  lemma {:induction false} ExitsArePriced(c: Config, p: Panel, s: State, next: nat, exits: seq<(string, string)>)
    requires next < |p.rows| && Priced(c, p, s, next)
    requires forall exit :: exit in exits ==> exit.1 != "end_of_backtest"
    ensures Priced(c, p, AllExited(c, p, s, next, exits), next)
  {
    hide Priced, Sold, Price;
    if exits != [] {
      var last := exits[|exits| - 1];
      ExitsArePriced(c, p, s, next, exits[..|exits| - 1]);
      var t := AllExited(c, p, s, next, exits[..|exits| - 1]);
      var i := Find(t.positions, last.0);
      if i < |t.positions| {
        var px := Price(p, next, last.0);
        SoldIsPriced(c, p, t, i, if px.Some? then px.value else t.positions[i].entryPrice, next, last.1);
      }
    }
  }

  lemma EntryIsPriced(c: Config, p: Panel, s: State, next: nat, value: real, g: Signal)
    requires next < |p.rows| && Priced(c, p, s, next)
    ensures Priced(c, p, Entered(c, p, s, next, value, g), next)
  {
    hide Slippage, CostOf, Ordered, Price, TradePriced, Find;
    var px := Price(p, next, g.symbol);
    if px.Some? {
      OrderedFits(c, Slipped(c, px.value, Buy, g.symbol), c.strategy.size(g, value), s.capital);
    }
    var t := Entered(c, p, s, next, value, g);
    if t != s {
      assert PositionPriced(c, p, t.positions[|s.positions|]);
      hide PositionPriced;
    }
  }

  lemma {:induction false} EntriesArePriced(c: Config, p: Panel, s: State, next: nat, value: real,
                                            signals: seq<Signal>)
    requires next < |p.rows| && Priced(c, p, s, next)
    ensures Priced(c, p, AllEntered(c, p, s, next, value, signals), next)
  {
    hide Priced, Entered;
    if signals != [] {
      EntriesArePriced(c, p, s, next, value, signals[..|signals| - 1]);
      EntryIsPriced(c, p, AllEntered(c, p, s, next, value, signals[..|signals| - 1]), next, value,
                    signals[|signals| - 1]);
    }
  }

  lemma {:induction false} LiquidationIsPriced(c: Config, p: Panel, s: State, row: nat, symbols: seq<string>)
    requires row < |p.rows| && Priced(c, p, s, row)
    ensures Priced(c, p, Liquidated(c, p, s, row, symbols), row)
  {
    hide Priced, Sold, Price;
    if symbols != [] {
      LiquidationIsPriced(c, p, s, row, symbols[..|symbols| - 1]);
      var t, symbol := Liquidated(c, p, s, row, symbols[..|symbols| - 1]), symbols[|symbols| - 1];
      var i, px := Find(t.positions, symbol), Price(p, row, symbol);
      if i < |t.positions| && px.Some? {
        SoldIsPriced(c, p, t, i, px.value, row, "end_of_backtest");
      }
    }
  }

  lemma SamePrices(c: Config, p: Panel, s: State, t: State, row: int, later: int)
    requires Priced(c, p, s, row) && row <= later && t.positions == s.positions && t.trades == s.trades
    ensures Priced(c, p, t, later)
  {
    hide PositionPriced, TradePriced;
  }

  lemma {:induction false} ReasonsToExit(c: Config, p: Panel, row: nat, ps: seq<Position>)
    requires row < |p.rows|
    ensures forall exit :: exit in ToExit(c, p, row, ps) ==> exit.1 in {"data_missing", "strategy_exit"}
  {
    hide Price;
    if ps != [] {
      ReasonsToExit(c, p, row, ps[..|ps| - 1]);
    }
  }

  /** On entering every bar of every run, every position and every trade has the prices of the panel. */
  lemma {:induction false} PricesAreThePanels(c: Config, p: Panel, k: nat)
    requires c.initial > 0.0 && c.offset + k < |p.rows|
    ensures Priced(c, p, Entering(c, p, k), c.offset + k)
  {
    hide Priced, Held, AllExited, AllEntered, ToExit;
    if k == 0 {
      assert Priced(c, p, Start(c), c.offset) by { NothingPriced(c, p); }
    } else {
      PricesAreThePanels(c, p, k - 1);
      var s := Entering(c, p, k - 1);
      var marked := Marked(c, p, s, k - 1);
      SamePrices(c, p, s, s, c.offset + k - 1, c.offset + k);
      SamePrices(c, p, s, marked, c.offset + k - 1, c.offset + k);
      var exits := ToExit(c, p, c.offset + k - 1, marked.positions);
      ReasonsToExit(c, p, c.offset + k - 1, marked.positions);
      ExitsArePriced(c, p, marked, c.offset + k, exits);
      var out := AfterExits(c, p, marked, k - 1);
      SamePrices(c, p, out, Counted(c, p, out, k - 1), c.offset + k, c.offset + k);
      var value := marked.capital + Held(p, c.offset + k - 1, marked.positions);
      var signals := SignalsAt(c, p, out.positions, k - 1);
      EntriesArePriced(c, p, Counted(c, p, out, k - 1), c.offset + k, value,
                       if signals.Some? then signals.value else []);
    }
  }

  lemma NothingPriced(c: Config, p: Panel)
    ensures Priced(c, p, Start(c), c.offset)
  {
  }

  /** And at the end: what liquidation sells, it sells at the close of the final row. */
  lemma FinalPrices(c: Config, p: Panel)
    requires c.initial > 0.0 && c.bars >= 2 && c.offset + c.bars <= |p.rows|
    ensures var s := Entering(c, p, c.bars - 1);
      FinalRow(c, s) < |p.rows| && Priced(c, p, Closed(c, p, s), c.offset + c.bars - 1)
  {
    hide Priced, Liquidated, Entering, Symbols;
    HaltPrices(c, p, c.bars - 1);
    var s := Entering(c, p, c.bars - 1);
    var row := FinalRow(c, s);
    LiquidationIsPriced(c, p, s, row, Symbols(s.positions));
    SamePrices(c, p, Liquidated(c, p, s, row, Symbols(s.positions)), Closed(c, p, s), row, c.offset + c.bars - 1);
  }

  /** A halted run holds nothing younger than its halt. */
  lemma {:induction false} HaltPrices(c: Config, p: Panel, k: nat)
    requires c.initial > 0.0 && c.offset + k < |p.rows|
    ensures var s := Entering(c, p, k);
      Priced(c, p, s, if s.halted.Some? then s.halted.value else c.offset + k)
  {
    hide Priced, Traded, Held;
    PricesAreThePanels(c, p, k);
    if k > 0 {
      HaltPrices(c, p, k - 1);
      PricesAreThePanels(c, p, k - 1);
      var s := Entering(c, p, k - 1);
      var marked := Marked(c, p, s, k - 1);
      TradedKeepsPeak(c, p, marked, k - 1);
    }
  }

  // ---------------------------------------------------------------- on which dates

  /** What is new since, in trades and positions, is dated by this row. */
  ghost predicate Dated(s: State, t: State, row: int) {
    && s.trades <= t.trades && (forall i :: |s.trades| <= i < |t.trades| ==> t.trades[i].exitRow == row)
    && (forall i :: 0 <= i < |t.positions| ==> t.positions[i] in s.positions || t.positions[i].entryRow == row)
  }

  lemma DatedChains(s: State, t: State, u: State, row: int)
    requires Dated(s, t, row) && Dated(t, u, row)
    ensures Dated(s, u, row)
  {
  }

  lemma SoldIsDated(c: Config, s: State, i: nat, price: real, row: nat, reason: string)
    requires i < |s.positions|
    ensures Dated(s, Sold(c, s, i, price, row, reason), row)
  {
    hide Slipped, CostOf;
  }

  lemma {:induction false} ExitsAreDated(c: Config, p: Panel, s: State, next: nat, exits: seq<(string, string)>)
    requires next < |p.rows|
    ensures Dated(s, AllExited(c, p, s, next, exits), next)
  {
    hide Dated, Sold, Price;
    if exits == [] {
      DatedAlready(s, s, next);
    } else {
      var last := exits[|exits| - 1];
      var t := AllExited(c, p, s, next, exits[..|exits| - 1]);
      ExitsAreDated(c, p, s, next, exits[..|exits| - 1]);
      var i := Find(t.positions, last.0);
      if i < |t.positions| {
        var px := Price(p, next, last.0);
        var price := if px.Some? then px.value else t.positions[i].entryPrice;
        SoldIsDated(c, t, i, price, next, last.1);
        DatedChains(s, t, Sold(c, t, i, price, next, last.1), next);
      }
    }
  }

  lemma DatedAlready(s: State, t: State, row: int)
    requires t.trades == s.trades && t.positions == s.positions
    ensures Dated(s, t, row)
  {
  }

  lemma EntryIsDated(c: Config, p: Panel, s: State, next: nat, value: real, g: Signal)
    requires next < |p.rows|
    ensures Dated(s, Entered(c, p, s, next, value, g), next)
  {
    hide Slipped, Ordered, Price, Find;
  }

  lemma {:induction false} EntriesAreDated(c: Config, p: Panel, s: State, next: nat, value: real,
                                           signals: seq<Signal>)
    requires next < |p.rows|
    ensures Dated(s, AllEntered(c, p, s, next, value, signals), next)
  {
    hide Dated, Entered;
    if signals == [] {
      DatedAlready(s, s, next);
    } else {
      var t := AllEntered(c, p, s, next, value, signals[..|signals| - 1]);
      EntriesAreDated(c, p, s, next, value, signals[..|signals| - 1]);
      EntryIsDated(c, p, t, next, value, signals[|signals| - 1]);
      DatedChains(s, t, Entered(c, p, t, next, value, signals[|signals| - 1]), next);
    }
  }

  /** Whatever bar k decides happens at the next bar: exits and entries alike. */
  lemma BarIsDated(c: Config, p: Panel, k: nat)
    requires c.initial > 0.0 && c.offset + k + 1 < |p.rows|
    ensures Dated(Entering(c, p, k), Entering(c, p, k + 1), c.offset + k + 1)
  {
    hide Dated, Held, AllExited, AllEntered, ToExit, FeaturesAt, SignalsAt;
    var s, next := Entering(c, p, k), c.offset + k + 1;
    var marked := Marked(c, p, s, k);
    DatedAlready(s, s, next);
    DatedAlready(s, marked, next);
    var out := AfterExits(c, p, marked, k);
    ExitsAreDated(c, p, marked, next, ToExit(c, p, c.offset + k, marked.positions));
    DatedChains(s, marked, out, next);
    var counted := Counted(c, p, out, k);
    DatedAlready(out, counted, next);
    DatedChains(s, out, counted, next);
    var value := marked.capital + Held(p, c.offset + k, marked.positions);
    var signals := SignalsAt(c, p, out.positions, k);
    var taken := if signals.Some? then signals.value else [];
    EntriesAreDated(c, p, counted, next, value, taken);
    DatedChains(s, counted, AllEntered(c, p, counted, next, value, taken), next);
  }

  lemma {:induction false} LiquidationIsDated(c: Config, p: Panel, s: State, row: nat, symbols: seq<string>)
    requires row < |p.rows|
    ensures Dated(s, Liquidated(c, p, s, row, symbols), row)
  {
    hide Dated, Sold, Price;
    if symbols == [] {
      DatedAlready(s, s, row);
    } else {
      var t, symbol := Liquidated(c, p, s, row, symbols[..|symbols| - 1]), symbols[|symbols| - 1];
      LiquidationIsDated(c, p, s, row, symbols[..|symbols| - 1]);
      var i, px := Find(t.positions, symbol), Price(p, row, symbol);
      if i < |t.positions| && px.Some? {
        SoldIsDated(c, t, i, px.value, row, "end_of_backtest");
        DatedChains(s, t, Sold(c, t, i, px.value, row, "end_of_backtest"), row);
      }
    }
  }

  // ---------------------------------------------------------------- who leaves, who enters

  /** The strategy wants out, or the symbol has left the panel. */
  predicate Leaves(c: Config, p: Panel, row: nat, pos: Position)
    requires row < |p.rows|
  {
    pos.symbol !in p.columns
    || (Price(p, row, pos.symbol).Some? && c.strategy.shouldExit(pos, Price(p, row, pos.symbol).value, row))
  }

  function Staying(c: Config, p: Panel, row: nat, ps: seq<Position>): (r: seq<Position>)
    requires row < |p.rows|
    ensures forall i :: 0 <= i < |r| ==> r[i] in ps && !Leaves(c, p, row, r[i])
    ensures forall i :: 0 <= i < |ps| && !Leaves(c, p, row, ps[i]) ==> ps[i] in r
  {
    if ps == [] then []
    else
      var before, pos := Staying(c, p, row, ps[..|ps| - 1]), ps[|ps| - 1];
      if Leaves(c, p, row, pos) then before else before + [pos]
  }

  ghost function HeldAfter(c: Config, p: Panel, s: State, row: nat, n: nat): seq<Position>
    requires row + 1 < |p.rows| && n <= |s.positions|
  {
    AllExited(c, p, s, row + 1, ToExit(c, p, row, s.positions[..n])).positions
  }

  /** Exits close exactly the positions that leave, in order, and every one of them. */
  lemma {:induction false} ExitsClose(c: Config, p: Panel, s: State, row: nat, n: nat)
    requires row + 1 < |p.rows| && n <= |s.positions| && OnePerSymbol(s.positions)
    ensures HeldAfter(c, p, s, row, n) == Staying(c, p, row, s.positions[..n]) + s.positions[n..]
  {
    hide OnePerSymbol, HeldAfter, Staying;
    if n == 0 {
      NobodyLeaves(c, p, s, row);
    } else {
      ExitsClose(c, p, s, row, n - 1);
      OneMoreGone(c, p, s, row, n - 1);
    }
  }

  lemma OneMoreGone(c: Config, p: Panel, s: State, row: nat, n: nat)
    requires row + 1 < |p.rows| && n < |s.positions| && OnePerSymbol(s.positions)
    requires HeldAfter(c, p, s, row, n) == Staying(c, p, row, s.positions[..n]) + s.positions[n..]
    ensures HeldAfter(c, p, s, row, n + 1) == Staying(c, p, row, s.positions[..n + 1]) + s.positions[n + 1..]
  {
    hide OnePerSymbol, HeldAfter, Staying, Leaves, Find;
    OneMoreExit(c, p, s, row, n);
    StayedAmong(c, p, row, s.positions[..n]);
    NextInLine(s.positions, Staying(c, p, row, s.positions[..n]), n);
  }

  lemma NobodyLeaves(c: Config, p: Panel, s: State, row: nat)
    requires row + 1 < |p.rows|
    ensures HeldAfter(c, p, s, row, 0) == Staying(c, p, row, s.positions[..0]) + s.positions[0..]
  {
    assert s.positions[..0] == [];
  }

  lemma StayedAmong(c: Config, p: Panel, row: nat, ps: seq<Position>)
    requires row < |p.rows|
    ensures forall i :: 0 <= i < |Staying(c, p, row, ps)| ==> Staying(c, p, row, ps)[i] in ps
  {
  }

  lemma OneMoreExit(c: Config, p: Panel, s: State, row: nat, n: nat)
    requires row + 1 < |p.rows| && n < |s.positions|
    ensures var ps := s.positions;
      var was := HeldAfter(c, p, s, row, n);
      var i := Find(was, ps[n].symbol);
      && HeldAfter(c, p, s, row, n + 1)
         == (if Leaves(c, p, row, ps[n]) && i < |was| then was[..i] + was[i + 1..] else was)
      && Staying(c, p, row, ps[..n + 1])
         == (if Leaves(c, p, row, ps[n]) then Staying(c, p, row, ps[..n]) else Staying(c, p, row, ps[..n]) + [ps[n]])
  {
    hide Find, Price, Slipped, CostOf, TradeOf;
    var ps := s.positions;
    assert ps[..n + 1][..n] == ps[..n];
    var due := ToExit(c, p, row, ps[..n]);
    assert forall e :: (due + [e])[..|due|] == due;
  }

  /** What is held after the exits of a bar. */
  lemma BarExits(c: Config, p: Panel, s: State, k: nat)
    requires c.offset + k + 1 < |p.rows| && OnePerSymbol(s.positions)
    ensures AfterExits(c, p, s, k).positions == Staying(c, p, c.offset + k, s.positions)
  {
    hide Staying, AllExited, ToExit;
    ExitsClose(c, p, s, c.offset + k, |s.positions|);
    assert s.positions[..|s.positions|] == s.positions;
  }

  /** A signal is taken exactly when its symbol is not held, it is valid, the next bar has a price and the
      ticket is not empty; it is then sized against the equity at the bar and paid for in full. */
  lemma EntryMeans(c: Config, p: Panel, s: State, next: nat, value: real, g: Signal)
    requires next < |p.rows|
    ensures var t := Entered(c, p, s, next, value, g);
      var close := Price(p, next, g.symbol);
      var held := exists i :: 0 <= i < |s.positions| && s.positions[i].symbol == g.symbol;
      if held || !g.valid || close.None? then t == s
      else
        var price := close.value * (1.0 + Slippage(c, g.symbol));
        var ticket := Ordered(c, price, c.strategy.size(g, value), s.capital);
        if ticket.None? then t == s
        else
          && |t.positions| == |s.positions| + 1 && t.positions[..|s.positions|] == s.positions
          && var pos := t.positions[|s.positions|];
             && pos.symbol == g.symbol && pos.signal == g && pos.entryRow == next && pos.entryPrice == price
             && pos.qty == ticket.value.qty && pos.costIn == ticket.value.cost
             && t.capital == s.capital - (pos.qty * price + pos.costIn)
             && t.trades == s.trades
  {
    hide Slippage, CostOf, Ordered, Price;
  }

  // ---------------------------------------------------------------- the mark, and the errors

  /** A price that moves alone moves the mark by the quantity held of it. */
  lemma {:induction false} MarkMoves(p: Panel, q: Panel, row: nat, ps: seq<Position>, symbol: string, d: real)
    requires row < |p.rows| && row < |q.rows| && OnePerSymbol(ps)
    requires Price(p, row, symbol).Some? && Price(q, row, symbol) == Some(Price(p, row, symbol).value + d)
    requires forall other :: other != symbol ==> Price(q, row, other) == Price(p, row, other)
    ensures Held(q, row, ps) == Held(p, row, ps)
                                + (if Find(ps, symbol) < |ps| then ps[Find(ps, symbol)].qty * d else 0.0)
  {
    hide Price, Worth, Find;
    if ps == [] {
      assert Find(ps, symbol) == 0;
    } else {
      var n := |ps| - 1;
      OnePerSymbolPrefix(ps, n);
      MarkMoves(p, q, row, ps[..n], symbol, d);
      FindInPrefix(ps, n, symbol);
      WorthMoves(p, q, row, ps[n], symbol, d);
    }
  }

  lemma OnePerSymbolPrefix(ps: seq<Position>, n: nat)
    requires OnePerSymbol(ps) && n <= |ps|
    ensures OnePerSymbol(ps[..n])
  {
  }

  lemma WorthMoves(p: Panel, q: Panel, row: nat, pos: Position, symbol: string, d: real)
    requires row < |p.rows| && row < |q.rows|
    requires Price(p, row, symbol).Some? && Price(q, row, symbol) == Some(Price(p, row, symbol).value + d)
    requires forall other :: other != symbol ==> Price(q, row, other) == Price(p, row, other)
    ensures Worth(q, row, pos) == Worth(p, row, pos) + if pos.symbol == symbol then pos.qty * d else 0.0
  {
    hide Price;
    var px := Price(p, row, pos.symbol);
    if pos.symbol == symbol {
      assert pos.qty * (px.value + d) == pos.qty * px.value + pos.qty * d;
    } else {
      SameWorth(pos, px, Price(q, row, pos.symbol));
    }
  }

  lemma SameWorth(pos: Position, px: Option<real>, px': Option<real>)
    requires px == px'
    ensures px.Some? ==> pos.qty * px.value == pos.qty * px'.value
  {
  }

  /** What has no price is not in the mark. */
  lemma {:induction false} NothingPricedNothingHeld(p: Panel, row: nat, ps: seq<Position>)
    requires row < |p.rows| && forall i :: 0 <= i < |ps| ==> Price(p, row, ps[i].symbol).None?
    ensures Held(p, row, ps) == 0.0
  {
    hide Price;
    if ps != [] {
      NothingPricedNothingHeld(p, row, ps[..|ps| - 1]);
    }
  }

  /** One line of the exposure: a position and what it is worth at the bar, if it has a price. */
  predicate Shows(p: Panel, row: nat, pos: Position, e: (string, Option<real>))
    requires row < |p.rows|
  {
    var close := Price(p, row, pos.symbol);
    && e.0 == pos.symbol && pos.symbol in p.columns
    && if close.Some? then e.1.Some? && e.1.value == pos.qty * close.value else e.1.None?
  }

  /** The strategy is told of exactly the positions that have a column, each at its worth. */
  lemma {:induction false} ExposureMeans(p: Panel, row: nat, ps: seq<Position>)
    requires row < |p.rows|
    ensures forall e :: e in Exposure(p, row, ps) ==> exists pos :: pos in ps && Shows(p, row, pos, e)
    ensures forall pos :: pos in ps && pos.symbol in p.columns ==>
      exists e :: e in Exposure(p, row, ps) && Shows(p, row, pos, e)
  {
    if ps != [] {
      var n := |ps| - 1;
      ExposureMeans(p, row, ps[..n]);
      OneMoreShown(p, row, ps);
      hide Shows, Exposure;
      assert ps == ps[..n] + [ps[n]];
    }
  }

  lemma OneMoreShown(p: Panel, row: nat, ps: seq<Position>)
    requires row < |p.rows| && ps != []
    ensures var n := |ps| - 1;
      var before, after := Exposure(p, row, ps[..n]), Exposure(p, row, ps);
      if ps[n].symbol !in p.columns then after == before
      else exists e :: Shows(p, row, ps[n], e) && after == before + [e]
  {
    hide Price;
    var n := |ps| - 1;
    if ps[n].symbol in p.columns {
      var close := Price(p, row, ps[n].symbol);
      var e := (ps[n].symbol, Times(ps[n].qty, close));
      TimesMeans(ps[n].qty, close);
      assert Shows(p, row, ps[n], e);
    }
  }

  lemma TimesMeans(qty: real, close: Option<real>)
    ensures var e := Times(qty, close);
      if close.Some? then e.Some? && e.value == qty * close.value else e.None?
  {
  }

  lemma FindInPrefix(ps: seq<Position>, n: nat, symbol: string)
    requires n + 1 == |ps| && OnePerSymbol(ps)
    ensures Find(ps[..n], symbol) < n ==>
      Find(ps, symbol) == Find(ps[..n], symbol) && ps[n].symbol != symbol
    ensures Find(ps[..n], symbol) == n ==>
      Find(ps, symbol) == if ps[n].symbol == symbol then n else n + 1
  {
    var i, j := Find(ps[..n], symbol), Find(ps, symbol);
    assert i < n ==> ps[i].symbol == symbol;
    assert forall m :: 0 <= m < i ==> ps[m].symbol == ps[..n][m].symbol;
  }

  /** The bars on which the features raised, up to a bar. */
  function FeatureFailures(c: Config, p: Panel, k: nat): nat
    requires c.offset + k <= |p.rows|
  {
    if k == 0 then 0 else FeatureFailures(c, p, k - 1) + if FeaturesAt(c, p, k - 1).None? then 1 else 0
  }

  /** Every bar that was not halted is counted, and no other. */
  lemma {:induction false} ErrorsAreCounted(c: Config, p: Panel, k: nat)
    requires c.initial > 0.0 && c.offset + k < |p.rows|
    ensures var s := Entering(c, p, k);
      && |s.equity| <= k && (s.halted.Some? ==> s.equity != [])
      && s.featureErrors == FeatureFailures(c, p, if s.halted.Some? then |s.equity| - 1 else k)
  {
    hide Bar, FeaturesAt;
    if k > 0 {
      ErrorsAreCounted(c, p, k - 1);
      HaltMeans(c, p, k - 1);
      if Entering(c, p, k - 1).halted.Some? {
        HaltedStaysPut(c, p, k - 1, k);
      } else {
        BarCounts(c, p, Entering(c, p, k - 1), k - 1);
      }
    }
  }

  lemma BarCounts(c: Config, p: Panel, s: State, k: nat)
    requires s.peak > 0.0 && c.offset + k + 1 < |p.rows| && s.halted.None?
    ensures var t := Bar(c, p, s, k);
      && |t.equity| == |s.equity| + 1
      && t.featureErrors == s.featureErrors + if t.halted.None? && FeaturesAt(c, p, k).None? then 1 else 0
  {
    hide Held, AllExited, AllEntered, ToExit, SignalsAt, FeaturesAt;
    var marked := Marked(c, p, s, k);
    TradedKeepsPeak(c, p, marked, k);
    ExitsKeepCounts(c, p, marked, c.offset + k + 1, ToExit(c, p, c.offset + k, marked.positions));
    var out := AfterExits(c, p, marked, k);
    var value := marked.capital + Held(p, c.offset + k, marked.positions);
    var signals := SignalsAt(c, p, out.positions, k);
    EntriesKeepCounts(c, p, Counted(c, p, out, k), c.offset + k + 1, value,
                      if signals.Some? then signals.value else []);
  }

  lemma {:induction false} ExitsKeepCounts(c: Config, p: Panel, s: State, next: nat, exits: seq<(string, string)>)
    requires next < |p.rows|
    ensures AllExited(c, p, s, next, exits).featureErrors == s.featureErrors
  {
    if exits != [] {
      ExitsKeepCounts(c, p, s, next, exits[..|exits| - 1]);
    }
  }

  lemma {:induction false} EntriesKeepCounts(c: Config, p: Panel, s: State, next: nat, value: real,
                                             signals: seq<Signal>)
    requires next < |p.rows|
    ensures AllEntered(c, p, s, next, value, signals).featureErrors == s.featureErrors
  {
    if signals != [] {
      EntriesKeepCounts(c, p, s, next, value, signals[..|signals| - 1]);
    }
  }

  /** A run is void when more than one bar in twenty raised, features first. */
  lemma VoidWhen(c: Config, s: State)
    requires c.bars >= 2
    ensures Judged(c, s) == FeaturesBroken <==> 20 * s.featureErrors > c.bars - 1
    ensures Judged(c, s) == StrategyBroken <==>
      20 * s.featureErrors <= c.bars - 1 && 20 * s.strategyErrors > c.bars - 1
    ensures Judged(c, s).Done? ==> Judged(c, s).final == s
  {
    Twentieth(s.featureErrors, c.bars - 1);
    Twentieth(s.strategyErrors, c.bars - 1);
  }

  lemma Twentieth(errors: nat, bars: int)
    requires bars >= 1
    ensures errors as real / bars as real > 0.05 <==> 20 * errors > bars
  {
    var share := errors as real / bars as real;
    assert share * bars as real == errors as real;
    Above(share - 0.05, bars as real, errors as real - 0.05 * bars as real);
  }

  lemma Above(x: real, b: real, y: real)
    requires b > 0.0 && x * b == y
    ensures x > 0.0 <==> y > 0.0
  {
  }

  /** Half a promille, one and a half, and the ceiling of five. */
  lemma SlippageInFigures(c: Config, symbol: string)
    ensures c.multiplier == 1.0 ==> Slippage(c, symbol) == if symbol in c.largeCaps then 0.0005 else 0.0015
    ensures c.multiplier == 2.0 ==> Slippage(c, symbol) == if symbol in c.largeCaps then 0.001 else 0.003
    ensures c.multiplier >= 10.0 ==> Slippage(c, symbol) == 0.005
    ensures c.costs.None? ==> forall side, qty, price :: CostOf(c, side, qty, price) == 0.0015 * (qty * price)
  {
    assert c.multiplier >= 10.0 ==> 0.0005 * c.multiplier >= 0.005 && 0.0015 * c.multiplier >= 0.005;
  }

  // ---------------------------------------------------------------- the bar loop

  class Simulation {
    const c: Config
    const p: Panel
    var capital: real
    var peak: real
    var positions: seq<Position>
    var equity: seq<(int, real)>
    var trades: seq<Trade>
    var featureErrors: nat
    var strategyErrors: nat
    var halted: Option<nat>

    function Now(): State
      reads this
    {
      State(capital, peak, positions, equity, trades, featureErrors, strategyErrors, halted)
    }

    constructor (c: Config, p: Panel)
      ensures this.c == c && this.p == p && Now() == Start(c)
    {
      this.c, this.p := c, p;
      capital, peak, positions, equity, trades := c.initial, c.initial, [], [], [];
      featureErrors, strategyErrors, halted := 0, 0, None;
    }

    method PortfolioValue(row: nat) returns (value: real)
      requires row < |p.rows|
      ensures value == capital + Held(p, row, positions)
    {
      value := capital;
      var i := 0;
      while i < |positions|
        invariant 0 <= i <= |positions|
        invariant value == capital + Held(p, row, positions[..i])
      {
        assert positions[..i + 1][..i] == positions[..i];
        var px := Price(p, row, positions[i].symbol);
        if px.Some? {
          value := value + positions[i].qty * px.value;
        }
        i := i + 1;
      }
      assert positions[..i] == positions;
    }

    method ExitsDue(row: nat) returns (exits: seq<(string, string)>)
      requires row < |p.rows|
      ensures exits == ToExit(c, p, row, positions)
    {
      exits := [];
      var i := 0;
      while i < |positions|
        invariant 0 <= i <= |positions|
        invariant exits == ToExit(c, p, row, positions[..i])
      {
        assert positions[..i + 1][..i] == positions[..i];
        var pos := positions[i];
        if pos.symbol !in p.columns {
          exits := exits + [(pos.symbol, "data_missing")];
        } else {
          var px := Price(p, row, pos.symbol);
          if px.Some? && c.strategy.shouldExit(pos, px.value, row) {
            exits := exits + [(pos.symbol, "strategy_exit")];
          }
        }
        i := i + 1;
      }
      assert positions[..i] == positions;
    }

    method Sell(i: nat, price: real, row: nat, reason: string)
      requires i < |positions|
      modifies this
      ensures Now() == Sold(c, old(Now()), i, price, row, reason)
    {
      hide TradeOf, Slipped, CostOf;
      var pos := positions[i];
      positions := positions[..i] + positions[i + 1..];
      var px := Slipped(c, price, Side.Sell, pos.symbol);
      var costOut := CostOf(c, Side.Sell, pos.qty, px);
      capital := capital + (pos.qty * px - costOut);
      trades := trades + [TradeOf(pos, px, costOut, row, reason)];
    }

    method ExecuteExits(exits: seq<(string, string)>, next: nat)
      requires next < |p.rows|
      modifies this
      ensures Now() == AllExited(c, p, old(Now()), next, exits)
    {
      hide Sold;
      var k := 0;
      while k < |exits|
        invariant 0 <= k <= |exits|
        invariant Now() == AllExited(c, p, old(Now()), next, exits[..k])
      {
        assert exits[..k + 1][..k] == exits[..k];
        var i := Find(positions, exits[k].0);
        if i < |positions| {
          var px := Price(p, next, exits[k].0);
          Sell(i, if px.Some? then px.value else positions[i].entryPrice, next, exits[k].1);
        }
        k := k + 1;
      }
      assert exits[..k] == exits;
    }

    method ExecuteEntries(signals: seq<Signal>, next: nat, value: real)
      requires next < |p.rows|
      modifies this
      ensures Now() == AllEntered(c, p, old(Now()), next, value, signals)
    {
      var k := 0;
      while k < |signals|
        invariant 0 <= k <= |signals|
        invariant Now() == AllEntered(c, p, old(Now()), next, value, signals[..k])
      {
        assert signals[..k + 1][..k] == signals[..k];
        Enter(signals[k], next, value);
        k := k + 1;
      }
      assert signals[..k] == signals;
    }

    method Enter(g: Signal, next: nat, value: real)
      requires next < |p.rows|
      modifies this
      ensures Now() == Entered(c, p, old(Now()), next, value, g)
    {
      hide Slipped, Ordered, PositionOf;
      var px := Price(p, next, g.symbol);
      if Find(positions, g.symbol) < |positions| || !g.valid || px.None? {
        return;
      }
      var price := Slipped(c, px.value, Buy, g.symbol);
      var ticket := Order(price, c.strategy.size(g, value));
      if ticket.Some? {
        capital := capital - (ticket.value.qty * price + ticket.value.cost);
        positions := positions + [PositionOf(g, next, price, ticket.value.qty, ticket.value.cost)];
      }
    }

    method Order(price: real, want: real) returns (ticket: Option<Ticket>)
      ensures ticket == Ordered(c, price, want, capital)
    {
      hide CostOf, Tradable;
      if want <= 0.0 || price <= 0.0 {
        return None;
      }
      var qty := Tradable(c, (if want < capital then want else capital) / price);
      if qty <= 0.0 {
        return None;
      }
      var cost := CostOf(c, Buy, qty, price);
      if qty * price + cost > capital {
        qty := Tradable(c, (capital * 0.99 - cost) / price);
        if qty <= 0.0 {
          return None;
        }
        cost := CostOf(c, Buy, qty, price);
        if qty * price + cost > capital {
          return None;
        }
      }
      ticket := Some(Ticket(qty, cost));
    }

    method Liquidate(row: nat)
      requires row < |p.rows|
      modifies this
      ensures Now() == Liquidated(c, p, old(Now()), row, Symbols(old(positions)))
    {
      hide Sold;
      var symbols, k := Symbols(positions), 0;
      while k < |symbols|
        invariant 0 <= k <= |symbols|
        invariant Now() == Liquidated(c, p, old(Now()), row, symbols[..k])
      {
        assert symbols[..k + 1][..k] == symbols[..k];
        var i, px := Find(positions, symbols[k]), Price(p, row, symbols[k]);
        if i < |positions| && px.Some? {
          Sell(i, px.value, row, "end_of_backtest");
        }
        k := k + 1;
      }
      assert symbols[..k] == symbols;
    }

    /** One bar; the drawdown halt skips everything after the mark. */
    method OneBar(k: nat)
      requires peak > 0.0 && c.offset + k + 1 < |p.rows| && halted.None?
      modifies this
      ensures Now() == Bar(c, p, old(Now()), k)
    {
      hide Held, ToExit, AllExited, AllEntered, Exposure;
      var row := c.offset + k;
      var value := PortfolioValue(row);
      equity := equity + [(row, value)];
      peak := if peak >= value then peak else value;
      if (peak - value) / peak > c.maxDrawdown {
        halted := Some(row + 1);
        return;
      }
      var exits := ExitsDue(row);
      ExecuteExits(exits, row + 1);
      var features := c.strategy.features(p.rows[..row + 1]);
      if features.None? {
        featureErrors := featureErrors + 1;
      }
      var signals := c.strategy.signals(if features.Some? then features.value else map[], MarketDataAt(p, k),
                                        Exposure(p, row, positions));
      if signals.None? {
        strategyErrors := strategyErrors + 1;
      }
      ExecuteEntries(if signals.Some? then signals.value else [], row + 1, value);
    }
  }

  method Run(c: Config, p: Panel) returns (outcome: Outcome)
    requires c.initial > 0.0 && c.offset + c.bars <= |p.rows|
    ensures outcome == Result(c, p)
  {
    hide Bar, Liquidated;
    if c.bars < 2 {
      return TooFewBars;
    }
    var sim := new Simulation(c, p);
    var k := 0;
    while k < c.bars - 1 && sim.halted.None?
      invariant 0 <= k <= c.bars - 1 && sim.c == c && sim.p == p
      invariant sim.Now() == Entering(c, p, k)
    {
      sim.OneBar(k);
      k := k + 1;
    }
    if k < c.bars - 1 {
      HaltedStaysPut(c, p, k, c.bars - 1);
    }
    var row := if sim.halted.Some? then sim.halted.value else c.offset + c.bars - 1;
    sim.Liquidate(row);
    sim.equity := sim.equity + [(row, sim.capital)];
    if sim.featureErrors as real / (c.bars - 1) as real > 0.05 {
      return FeaturesBroken;
    }
    if sim.strategyErrors as real / (c.bars - 1) as real > 0.05 {
      return StrategyBroken;
    }
    outcome := Done(sim.Now());
  }
}
