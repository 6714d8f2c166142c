/** The resumable paper campaign: a ledger of finished days, a book, a durable kill switch, and a
    process that may die anywhere. */
module Campaign {
  import opened Market

  // ---------------------------------------------------------------- the plan

  predicate Increasing(days: seq<int>) { forall i, j :: 0 <= i < j < |days| ==> days[i] < days[j] }

  function Inserted(days: seq<int>, d: int): (r: seq<int>)
    requires Increasing(days)
    ensures Increasing(r) && forall x :: x in r <==> x in days || x == d
  {
    if days == [] || d < days[0] then [d] + days
    else if d == days[0] then days
    else
      HeadIsLeast(days);
      var rest := Inserted(days[1..], d);
      HeadStaysLeast(days[0], rest);
      [days[0]] + rest
  }

  lemma HeadIsLeast(days: seq<int>)
    requires Increasing(days) && days != []
    ensures Increasing(days[1..]) && (forall x :: x in days <==> x == days[0] || x in days[1..])
    ensures forall x :: x in days[1..] ==> days[0] < x
  {
    assert days == [days[0]] + days[1..];
    assert forall i :: 0 <= i < |days[1..]| ==> days[1..][i] == days[i + 1];
  }

  lemma HeadStaysLeast(head: int, rest: seq<int>)
    requires Increasing(rest) && forall x :: x in rest ==> head < x
    ensures Increasing([head] + rest)
  {
    assert forall i :: 0 <= i < |rest| ==> rest[i] in rest;
  }

  function SortedDays(sessions: seq<int>): (r: seq<int>)
    ensures Increasing(r) && forall x :: x in r <==> x in sessions
  {
    if sessions == [] then []
    else
      assert sessions == [sessions[0]] + sessions[1..];
      Inserted(SortedDays(sessions[1..]), sessions[0])
  }

  /** The whole schedule, each session once; None where too few sessions raise. */
  function PlanDays(sessions: seq<int>, total: nat): Option<seq<int>> {
    var plan := SortedDays(sessions);
    if |plan| < total then None else Some(plan)
  }

  // ---------------------------------------------------------------- book and ledger

  datatype Line = Line(symbol: string, exchange: string, product: string, quantity: int, averagePrice: real)

  /** What reconciliation compares: cash in paise, positions, and the texts of orders and fills. */
  datatype Book = Book(cash: int, positions: seq<Line>, orders: seq<string>, fills: seq<string>)

  /** The ledger drops positions that are flat. */
  function Open(ps: seq<Line>): seq<Line> {
    if ps == [] then [] else (if ps[0].quantity != 0 then [ps[0]] else []) + Open(ps[1..])
  }

  /** What the ledger keeps of the positions: those that are not flat, in their order. */
  lemma {:induction false} OpenMeans(ps: seq<Line>)
    ensures forall p :: p in Open(ps) <==> p in ps && p.quantity != 0
    ensures (forall i :: 0 <= i < |ps| ==> ps[i].quantity != 0) ==> Open(ps) == ps
  {
    if ps != [] {
      OpenMeans(ps[1..]);
      assert ps == [ps[0]] + ps[1..];
      assert forall i :: 0 <= i < |ps[1..]| ==> ps[1..][i] == ps[i + 1];
    }
  }

  lemma {:induction false} OpenKeepsOrder(a: seq<Line>, b: seq<Line>)
    ensures Open(a + b) == Open(a) + Open(b)
  {
    hide Open;
    if a == [] {
      assert a + b == b && Open(a) == [] by { OpenNone(); }
      assert [] + Open(b) == Open(b);
    } else {
      OpenKeepsOrder(a[1..], b);
      OpenStepwise(a);
      OpenStepwise(a + b);
      assert (a + b)[1..] == a[1..] + b && (a + b)[0] == a[0];
      Regroup([a[0]], Open(a[1..]), Open(b));
    }
  }

  lemma OpenNone()
    ensures Open([]) == []
  {
  }

  lemma Regroup(a: seq<Line>, b: seq<Line>, c: seq<Line>)
    ensures a + (b + c) == (a + b) + c
  {
  }

  lemma OpenStepwise(ps: seq<Line>)
    requires ps != []
    ensures Open(ps) == if ps[0].quantity != 0 then [ps[0]] + Open(ps[1..]) else Open(ps[1..])
  {
  }

  function Recorded(b: Book): Book { b.(positions := Open(b.positions)) }

  /** One finished day. `start` is what the session connected to, kept here to state what the ledger
      proves; on file only its cash is written. */
  datatype Day = Day(day: int, start: Book, end: Book)

  datatype Entry = RunStart(resumeAfter: nat) | Finished(d: Day) | Torn

  /** The JSONL file; `unterminated` when the last line lacks its newline. */
  datatype Ledger = Ledger(entries: seq<Entry>, unterminated: bool)

  /** How an append ends; all but the first kill the run. */
  datatype Fate = Lands | Lost | Cut | NoNewline

  /** Appending to an unterminated line makes one line of both. */
  function Appended(l: Ledger, e: Entry, fate: Fate): Ledger {
    if fate == Lost then l
    else if l.unterminated && |l.entries| > 0 then Ledger(l.entries[..|l.entries| - 1] + [Torn], fate != Lands)
    else Ledger(l.entries + [if fate == Cut then Torn else e], fate != Lands)
  }

  /** `load_ledger` raises on any line that does not parse. */
  predicate Readable(l: Ledger) { Torn !in l.entries }

  function DaysOf(es: seq<Entry>): seq<Day> {
    if es == [] then []
    else
      var before := DaysOf(es[..|es| - 1]);
      if es[|es| - 1].Finished? then before + [es[|es| - 1].d] else before
  }

  datatype Config = Config(plan: seq<int>, total: nat, opening: int, hasBars: set<int>)

  function Opening(c: Config): Book { Book(c.opening, [], [], []) }

  /** The book the ledger says there is: the last day's ending book. */
  function Expected(c: Config, records: seq<Day>): Book {
    if records == [] then Opening(c) else records[|records| - 1].end
  }

  // ---------------------------------------------------------------- the machine

  datatype Process =
    | Idle
    | Between(records: seq<Day>)
    | InDay(records: seq<Day>, start: Book, live: Book, halted: bool)

  /** `halting`: a breach engaged the switch and nobody has released it since. `begun` counts the
      sessions ever started. */
  datatype State = State(ledger: Ledger, book: Book, killed: bool, halting: bool, begun: nat, proc: Process)

  datatype Step =
    | StartRun(fate: Fate)
    | BeginDay
    | Trades(live: Book, saved: bool)
    | Breach(engaged: bool)
    | DayRaises
    | EndDay(saved: bool, fate: Fate)
    | Dies
    | BookReplaced(book: Book)
    | Engage
    | Release

  predicate Starts(c: Config, s: State) {
    s.proc.Idle? && Readable(s.ledger) && |DaysOf(s.ledger.entries)| < c.total && !s.killed
  }

  function Next(c: Config, s: State, step: Step): State {
    match step
    case StartRun(fate) =>
      if !Starts(c, s) then s
      else
        var records := DaysOf(s.ledger.entries);
        s.(ledger := Appended(s.ledger, RunStart(|records|), fate),
           proc := if fate == Lands then Between(records) else Idle)
    case BeginDay =>
      if !s.proc.Between? then s
      else
        var k := |s.proc.records|;
        if k >= c.total || k >= |c.plan| || c.plan[k] !in c.hasBars then s.(proc := Idle)
        else s.(begun := s.begun + 1, proc := InDay(s.proc.records, Recorded(s.book), s.book, false))
    case Trades(live, saved) =>
      if s.proc.InDay? then s.(proc := s.proc.(live := live), book := if saved then live else s.book) else s
    case Breach(engaged) =>
      if !s.proc.InDay? || s.proc.halted then s
      else if engaged then s.(proc := s.proc.(halted := true), killed := true, halting := true)
      else s.(proc := Idle)
    case DayRaises => if s.proc.InDay? then s.(proc := Idle) else s
    case EndDay(saved, fate) =>
      if !s.proc.InDay? then s
      else
        var p := s.proc;
        var t := s.(book := if saved then p.live else s.book);
        if p.start != Expected(c, p.records) || |p.records| >= |c.plan| then t.(proc := Idle)
        else
          var d := Day(c.plan[|p.records|], p.start, Recorded(p.live));
          t.(ledger := Appended(s.ledger, Finished(d), fate),
             proc := if fate != Lands || p.halted then Idle else Between(p.records + [d]))
    case Dies => s.(proc := Idle)
    case BookReplaced(book) => if s.proc.Idle? then s.(book := book) else s
    case Engage => s.(killed := true)
    case Release => s.(killed := false, halting := false)
  }

  function After(c: Config, s: State, steps: seq<Step>): State {
    if steps == [] then s else Next(c, After(c, s, steps[..|steps| - 1]), steps[|steps| - 1])
  }

  function Initial(c: Config): State { State(Ledger([], false), Opening(c), false, false, 0, Idle) }

  // ---------------------------------------------------------------- what every run keeps

  /** The recorded days are the first days of the plan, and each starts from the book the previous
      one ended with. */
  ghost predicate Chain(c: Config, records: seq<Day>) {
    && |records| <= c.total && |records| <= |c.plan|
    && (forall i :: 0 <= i < |records| ==> records[i].day == c.plan[i])
    && (forall i :: 0 <= i < |records| ==> records[i].start == Expected(c, records[..i]))
  }

  ghost predicate Safe(c: Config, s: State) {
    && (Readable(s.ledger) ==> Chain(c, DaysOf(s.ledger.entries)))
    && (!s.proc.Idle? ==>
          && Chain(c, s.proc.records)
          && !s.ledger.unterminated
          && (Readable(s.ledger) ==> DaysOf(s.ledger.entries) == s.proc.records))
    && (s.proc.InDay? ==> |s.proc.records| < c.total)
    && (s.halting ==> s.killed && !s.proc.Between? && (s.proc.InDay? ==> s.proc.halted))
  }

  lemma AppendMeans(l: Ledger, e: Entry, fate: Fate)
    ensures var m := Appended(l, e, fate);
      && (Readable(m) ==> Readable(l) && (DaysOf(m.entries) == DaysOf(l.entries)
                                          || (e.Finished? && !(l.unterminated && |l.entries| > 0)
                                              && DaysOf(m.entries) == DaysOf(l.entries) + [e.d])))
      && (Readable(m) && fate == Lands && e.Finished? ==> DaysOf(m.entries) == DaysOf(l.entries) + [e.d])
      && (Readable(m) && !e.Finished? ==> DaysOf(m.entries) == DaysOf(l.entries))
  {
    var m := Appended(l, e, fate);
    if fate != Lost {
      var last := m.entries[|m.entries| - 1];
      assert last in m.entries;
      if last != Torn {
        assert m.entries[..|l.entries|] == l.entries;
        assert forall x :: x in l.entries ==> x in m.entries;
      }
    }
  }

  lemma ChainGrows(c: Config, records: seq<Day>, d: Day)
    requires Chain(c, records) && |records| < c.total && |records| < |c.plan|
    requires d.day == c.plan[|records|] && d.start == Expected(c, records)
    ensures Chain(c, records + [d])
  {
    var r := records + [d];
    assert r[..|records|] == records;
    assert forall i :: 0 <= i < |records| ==> r[..i] == records[..i];
  }

  lemma StepKeepsSafe(c: Config, s: State, step: Step)
    requires Safe(c, s)
    ensures Safe(c, Next(c, s, step))
  {
    hide Chain, Expected;
    if step.StartRun? && Starts(c, s) {
      AppendMeans(s.ledger, RunStart(|DaysOf(s.ledger.entries)|), step.fate);
    } else if step.EndDay? && s.proc.InDay? {
      var p := s.proc;
      if p.start == Expected(c, p.records) && |p.records| < |c.plan| {
        var d := Day(c.plan[|p.records|], p.start, Recorded(p.live));
        AppendMeans(s.ledger, Finished(d), step.fate);
        ChainGrows(c, p.records, d);
      }
    }
  }

  /** Every run of the campaign, any number of times, dying anywhere. */
  lemma {:induction false} RunsAreSafe(c: Config, steps: seq<Step>)
    ensures Safe(c, After(c, Initial(c), steps))
  {
    hide Safe, Next;
    if steps == [] {
      assert Safe(c, Initial(c)) by { InitialIsSafe(c); }
    } else {
      RunsAreSafe(c, steps[..|steps| - 1]);
      StepKeepsSafe(c, After(c, Initial(c), steps[..|steps| - 1]), steps[|steps| - 1]);
    }
  }

  lemma InitialIsSafe(c: Config)
    ensures Safe(c, Initial(c))
  {
  }

  /** Whenever the ledger can be read, its days are the first days of the plan, none of them twice,
      each starting from the book the previous day ended with (the first from the opening cash). */
  lemma LedgerFollowsThePlan(c: Config, sessions: seq<int>, steps: seq<Step>, i: nat)
    requires PlanDays(sessions, c.total) == Some(c.plan)
    requires Readable(After(c, Initial(c), steps).ledger)
    requires i < |DaysOf(After(c, Initial(c), steps).ledger.entries)|
    ensures var days := DaysOf(After(c, Initial(c), steps).ledger.entries);
      && |days| <= c.total && days[i].day == c.plan[i] && days[i].day in sessions
      && days[i].start == (if i == 0 then Opening(c) else days[i - 1].end)
      && (forall j :: i < j < |days| ==> days[i].day < days[j].day)
  {
    hide After, SortedDays;
    RunsAreSafe(c, steps);
    var days := DaysOf(After(c, Initial(c), steps).ledger.entries);
    assert i > 0 ==> days[..i][i - 1] == days[i - 1];
    PlanMeans(sessions, c.total);
  }

  lemma PlanMeans(sessions: seq<int>, total: nat)
    ensures PlanDays(sessions, total).Some? ==>
      var plan := PlanDays(sessions, total).value;
      && |plan| >= total && Increasing(plan) && (forall d :: d in plan <==> d in sessions)
      && (forall i :: 0 <= i < |plan| ==> plan[i] in sessions)
  {
    var plan := SortedDays(sessions);
    assert forall i :: 0 <= i < |plan| ==> plan[i] in plan;
  }

  /** A session that connects to any book other than the ledger's last one is never recorded: the
      run stops and the ledger stays as it was, whatever happens during the session. */
  lemma BookAheadIsNotContinued(c: Config, s: State, steps: seq<Step>)
    requires Safe(c, s) && s.proc.Between? && Recorded(s.book) != Expected(c, s.proc.records)
    requires forall i :: 0 <= i < |steps| ==> !steps[i].StartRun?
    ensures DaysOf(After(c, s, [BeginDay] + steps).ledger.entries) == DaysOf(s.ledger.entries)
    ensures After(c, s, [BeginDay] + steps).ledger == s.ledger
  {
    StartsWith(c, s, BeginDay, steps);
    BlockedDayIsLost(c, Next(c, s, BeginDay), s.ledger, s.proc.records, steps);
  }

  lemma {:induction false} StartsWith(c: Config, s: State, step: Step, steps: seq<Step>)
    ensures After(c, s, [step] + steps) == After(c, Next(c, s, step), steps)
  {
    hide Next;
    if steps == [] {
      assert [step] + steps == [step] && [step][..0] == [];
      assert After(c, s, [step][..0]) == s;
    } else {
      var n := |steps| - 1;
      StartsWith(c, s, step, steps[..n]);
      assert ([step] + steps)[..n + 1] == [step] + steps[..n];
    }
  }

  /** No session of this run can be recorded. */
  ghost predicate Blocked(c: Config, s: State, ledger: Ledger, records: seq<Day>) {
    && s.ledger == ledger
    && (s.proc.Idle? || (s.proc.InDay? && s.proc.records == records && s.proc.start != Expected(c, records)))
  }

  lemma {:induction false} BlockedDayIsLost(c: Config, s: State, ledger: Ledger, records: seq<Day>, steps: seq<Step>)
    requires Blocked(c, s, ledger, records) && forall i :: 0 <= i < |steps| ==> !steps[i].StartRun?
    ensures Blocked(c, After(c, s, steps), ledger, records)
  {
    if steps != [] {
      BlockedDayIsLost(c, s, ledger, records, steps[..|steps| - 1]);
    }
  }

  /** While a breach's halt stands, no session begins, whatever restarts: at most the session the
      breach stopped is still recorded. */
  lemma {:induction false} HaltHolds(c: Config, s: State, steps: seq<Step>)
    requires Safe(c, s) && s.halting && !(Release in steps)
    ensures var t := After(c, s, steps);
      && t.halting && t.begun == s.begun
      && (s.proc.Idle? ==> t.proc.Idle? && DaysOf(t.ledger.entries) == DaysOf(s.ledger.entries))
      && |DaysOf(t.ledger.entries)| <= |DaysOf(s.ledger.entries)| + 1
  {
    HaltInvariant(c, s, steps);
  }

  ghost predicate Halted(c: Config, s: State, t: State) {
    && Safe(c, t) && t.halting && t.begun == s.begun
    && (s.proc.Idle? ==> t.proc.Idle?)
    && (t.proc.InDay? || s.proc.Idle? ==> t.ledger == s.ledger)
    && |DaysOf(t.ledger.entries)| <= |DaysOf(s.ledger.entries)| + 1
  }

  lemma {:induction false} HaltInvariant(c: Config, s: State, steps: seq<Step>)
    requires Safe(c, s) && s.halting && !(Release in steps)
    ensures Halted(c, s, After(c, s, steps))
  {
    if steps != [] {
      var n := |steps| - 1;
      HaltInvariant(c, s, steps[..n]);
      HaltStep(c, s, After(c, s, steps[..n]), steps[n]);
    }
  }

  lemma HaltStep(c: Config, s: State, t: State, step: Step)
    requires Halted(c, s, t) && !step.Release?
    ensures Halted(c, s, Next(c, t, step))
  {
    hide Chain, Expected, Safe;
    assert t.killed && !t.proc.Between? by { HaltMeansKilled(c, t); }
    StepKeepsSafe(c, t, step);
    if step.EndDay? && t.proc.InDay? && |t.proc.records| < |c.plan| {
      OneMoreAtMost(s.ledger, Finished(Day(c.plan[|t.proc.records|], t.proc.start, Recorded(t.proc.live))), step.fate);
    }
  }

  lemma HaltMeansKilled(c: Config, t: State)
    requires Safe(c, t) && t.halting
    ensures t.killed && !t.proc.Between? && (t.proc.InDay? ==> t.proc.halted)
  {
  }

  lemma OneMoreAtMost(l: Ledger, e: Entry, fate: Fate)
    ensures |DaysOf(Appended(l, e, fate).entries)| <= |DaysOf(l.entries)| + 1
  {
    var m := Appended(l, e, fate);
    if fate != Lost {
      assert m.entries[..|m.entries| - 1] == l.entries || m.entries[..|m.entries| - 1] == l.entries[..|l.entries| - 1];
    }
  }

  /** A ledger with a torn line is never read again: no session begins and no day is added. */
  lemma {:induction false} TornLedgerStops(c: Config, s: State, steps: seq<Step>)
    requires s.proc.Idle? && !Readable(s.ledger)
    ensures var t := After(c, s, steps); t.proc.Idle? && t.ledger == s.ledger && t.begun == s.begun
  {
    if steps != [] {
      TornLedgerStops(c, s, steps[..|steps| - 1]);
    }
  }

  /** A readable ledger stays readable exactly when nothing was written, or a whole entry onto a line
      of its own. */
  lemma AppendTearsWhen(l: Ledger, e: Entry, fate: Fate)
    requires Readable(l) && !e.Torn?
    ensures Readable(Appended(l, e, fate))
       <==> fate == Lost || (fate != Cut && !(l.unterminated && l.entries != []))
  {
    var m := Appended(l, e, fate);
    if fate != Lost {
      assert m.entries[|m.entries| - 1] in m.entries;
    }
  }

  /** A finished day whose append did not land, in any state. Unless it was cut, the ledger can still
      be read, and if only the newline was lost the day is on file; but then the next run's marker
      joins its line and nothing can be read any more, unless that run never starts. */
  lemma LostNewlineTearsTheNextRun(c: Config, s: State, saved: bool, fate: Fate)
    requires Safe(c, s) && s.proc.InDay? && Readable(s.ledger) && fate != Lands
    requires s.proc.start == Expected(c, s.proc.records) && |s.proc.records| < |c.plan|
    ensures var t := Next(c, s, EndDay(saved, fate));
      && t.proc.Idle? && (Readable(t.ledger) <==> fate != Cut)
      && (fate == NoNewline ==> |DaysOf(t.ledger.entries)| == |DaysOf(s.ledger.entries)| + 1)
      && (Readable(Next(c, t, StartRun(Lands)).ledger)
          <==> fate == Lost || (fate == NoNewline && (s.killed || |s.proc.records| + 1 >= c.total)))
  {
    hide Chain, Expected, Recorded;
    var p := s.proc;
    var d := Day(c.plan[|p.records|], p.start, Recorded(p.live));
    var t := Next(c, s, EndDay(saved, fate));
    AppendTearsWhen(s.ledger, Finished(d), fate);
    if fate == NoNewline {
      assert t.ledger.entries == s.ledger.entries + [Finished(d)];
      assert t.ledger.entries[..|s.ledger.entries|] == s.ledger.entries;
    }
    if Starts(c, t) {
      AppendTearsWhen(t.ledger, RunStart(|DaysOf(t.ledger.entries)|), Lands);
    }
  }

  /** The same from the very first run on. */
  lemma LostNewlineRun(c: Config, live: Book)
    requires c.total >= 2 && |c.plan| >= c.total && c.plan[0] in c.hasBars
    ensures var first := [StartRun(Lands), BeginDay, Trades(live, true), EndDay(true, NoNewline)];
      var s := After(c, Initial(c), first);
      && Readable(s.ledger) && |DaysOf(s.ledger.entries)| == 1
      && !Readable(Next(c, s, StartRun(Lands)).ledger) && Next(c, s, StartRun(Lands)).proc.Between?
  {
    hide Next;
    var a, b, d, e := StartRun(Lands), BeginDay, Trades(live, true), EndDay(true, NoNewline);
    var s0 := Initial(c);
    StartsWith(c, s0, a, [b, d, e]);
    StartsWith(c, Next(c, s0, a), b, [d, e]);
    StartsWith(c, Next(c, Next(c, s0, a), b), d, [e]);
    StartsWith(c, Next(c, Next(c, Next(c, s0, a), b), d), e, []);
    assert [a, b, d, e] == [a] + [b, d, e] && [b, d, e] == [b] + [d, e] && [d, e] == [d] + [e] && [e] == [e] + [];
    NewlineRun(c, live);
  }

  lemma NewlineRun(c: Config, live: Book)
    requires c.total >= 2 && |c.plan| >= c.total && c.plan[0] in c.hasBars
    ensures var s := Next(c, Next(c, Next(c, Next(c, Initial(c), StartRun(Lands)), BeginDay),
                                  Trades(live, true)), EndDay(true, NoNewline));
      && Readable(s.ledger) && |DaysOf(s.ledger.entries)| == 1
      && !Readable(Next(c, s, StartRun(Lands)).ledger) && Next(c, s, StartRun(Lands)).proc.Between?
  {
    var s1 := Next(c, Initial(c), StartRun(Lands));
    assert s1.ledger.entries == [RunStart(0)] && s1.proc == Between([]);
    var d := Day(c.plan[0], Opening(c), Recorded(live));
    var s := Next(c, Next(c, Next(c, s1, BeginDay), Trades(live, true)), EndDay(true, NoNewline));
    assert s.ledger == Ledger([RunStart(0), Finished(d)], true);
    assert [RunStart(0), Finished(d)][..1] == [RunStart(0)];
    assert DaysOf([RunStart(0)]) == [];
    assert DaysOf(s.ledger.entries) == [d];
    var t := Next(c, s, StartRun(Lands));
    assert t.ledger.entries[1] == Torn;
  }

  /** The switch is only looked at when a run starts. Between sessions the next one begins exactly when
      a planned day with bars is left, engaged or not; from a readable, unfinished ledger a run begins
      exactly when the switch is not engaged. */
  lemma SwitchIsReadAtTheStart(c: Config, s: State)
    ensures s.proc.Between? ==>
      var k := |s.proc.records|;
      Next(c, s, BeginDay).proc.InDay? <==> k < c.total && k < |c.plan| && c.plan[k] in c.hasBars
    ensures Next(c, s.(killed := !s.killed), BeginDay).proc == Next(c, s, BeginDay).proc
    ensures s.proc.Idle? && Readable(s.ledger) && |DaysOf(s.ledger.entries)| < c.total ==>
      (Next(c, s, StartRun(Lands)).proc.Between? <==> !s.killed)
  {
  }

  /** So a switch engaged by hand, at any moment of a run, lets that run begin every session it would
      have begun, and stops the next one. */
  lemma HandEngagedSwitchWaits(c: Config, s: State)
    requires !s.proc.Idle?
    ensures var t := Next(c, s, Engage);
      && t.killed && Next(c, t, BeginDay).proc == Next(c, s, BeginDay).proc
      && (forall fate :: Next(c, Next(c, t, Dies), StartRun(fate)).proc.Idle?)
  {
  }

  // ---------------------------------------------------------------- the loop

  class Files {
    var ledger: Ledger
    var book: Book
    var killed: bool
    ghost var halting: bool
    ghost var begun: nat

    ghost function Now(proc: Process): State
      reads this
    {
      State(ledger, book, killed, halting, begun, proc)
    }
  }

  /** What the world makes of one session. */
  datatype Session = Session(live: Book, breach: bool, raises: bool)

  datatype Stop =
    | LedgerUnreadable | AlreadyComplete | SwitchEngaged
    | NoBars | DayFailed | RecoveryBlocked | BreachHalted | Completed

  lemma Took(c: Config, s: State, steps: seq<Step>, step: Step)
    ensures After(c, s, steps + [step]) == Next(c, After(c, s, steps), step)
  {
    assert (steps + [step])[..|steps|] == steps;
  }

  /** The record of a session that ran: its planned day had bars, nothing raised, and it ended with this
      book. */
  predicate Served(c: Config, d: Day, k: nat, z: Session) {
    k < |c.plan| && c.plan[k] in c.hasBars && d.day == c.plan[k] && !z.raises && d.end == Recorded(z.live)
  }

  /** One uninterrupted run, session by session. It is a run of the machine (`steps`), and `records`
      are the days on file, `prior` of them from before. Every day it records had bars, did not raise
      and was not halted before its end; each reason to stop says what stopped it. A run can be blocked
      at its first session only: later ones start from the book the run itself has just recorded. */
  method RunCampaign(c: Config, f: Files, session: nat -> Session)
    returns (stop: Stop, records: seq<Day>, ghost steps: seq<Step>)
    requires |c.plan| >= c.total
    modifies f
    ensures After(c, old(f.Now(Idle)), steps) == f.Now(Idle)
    ensures stop in {LedgerUnreadable, AlreadyComplete, SwitchEngaged} ==> f.Now(Idle) == old(f.Now(Idle))
    ensures stop == LedgerUnreadable <==> !old(Readable(f.ledger))
    ensures stop == AlreadyComplete <==> old(Readable(f.ledger)) && |old(DaysOf(f.ledger.entries))| >= c.total
    ensures stop == SwitchEngaged <==>
      old(Readable(f.ledger)) && |old(DaysOf(f.ledger.entries))| < c.total && old(f.killed)
    ensures old(Readable(f.ledger)) ==> old(DaysOf(f.ledger.entries)) <= records
    ensures old(Readable(f.ledger)) && !old(f.ledger.unterminated) ==>
      Readable(f.ledger) && DaysOf(f.ledger.entries) == records
    ensures old(Readable(f.ledger)) ==>
      forall k :: |old(DaysOf(f.ledger.entries))| <= k < |records| ==>
        && Served(c, records[k], k, session(k))
        && (session(k).breach ==> stop == BreachHalted && k == |records| - 1)
    ensures stop in {NoBars, DayFailed, RecoveryBlocked} ==> |records| < c.total
    ensures stop == NoBars ==> c.plan[|records|] !in c.hasBars
    ensures stop == DayFailed ==> session(|records|).raises && f.book == session(|records|).live
    ensures stop == RecoveryBlocked ==>
      records == old(DaysOf(f.ledger.entries)) && Recorded(old(f.book)) != Expected(c, records)
    ensures stop == BreachHalted ==> f.killed && f.halting && |records| > 0 && session(|records| - 1).breach
    ensures stop == Completed ==> |records| == c.total
  {
    hide After, DaysOf, Open, Expected, Appended, Served, Recorded;
    ghost var s0 := f.Now(Idle);
    steps := [];
    assert After(c, s0, []) == s0 by { NoSteps(c, s0); }
    if !Readable(f.ledger) {
      return LedgerUnreadable, [], [];
    }
    records := DaysOf(f.ledger.entries);
    if |records| >= c.total {
      return AlreadyComplete, records, [];
    }
    if f.killed {
      return SwitchEngaged, records, [];
    }
    LandedAppend(f.ledger, RunStart(|records|));
    f.ledger := Appended(f.ledger, RunStart(|records|), Lands);
    Took(c, s0, steps, StartRun(Lands));
    stop, records, steps := RunSessions(c, f, records, session, s0, steps + [StartRun(Lands)]);
  }

  /** The loop over the days that are left. */
  method RunSessions(c: Config, f: Files, prior: seq<Day>, session: nat -> Session, ghost s0: State,
                     ghost taken: seq<Step>)
    returns (stop: Stop, records: seq<Day>, ghost steps: seq<Step>)
    requires |prior| < c.total <= |c.plan| && After(c, s0, taken) == f.Now(Between(prior))
    modifies f
    ensures After(c, s0, steps) == f.Now(Idle)
    ensures stop in {NoBars, DayFailed, RecoveryBlocked, BreachHalted, Completed} && prior <= records
    ensures old(!f.ledger.unterminated && Readable(f.ledger) && DaysOf(f.ledger.entries) == prior) ==>
      Readable(f.ledger) && DaysOf(f.ledger.entries) == records
    ensures forall k :: |prior| <= k < |records| ==>
      Served(c, records[k], k, session(k)) && (session(k).breach ==> stop == BreachHalted && k == |records| - 1)
    ensures stop in {NoBars, DayFailed, RecoveryBlocked} ==> |records| < c.total
    ensures stop == NoBars ==> c.plan[|records|] !in c.hasBars
    ensures stop == DayFailed ==> session(|records|).raises && f.book == session(|records|).live
    ensures stop == RecoveryBlocked ==> records == prior && Recorded(old(f.book)) != Expected(c, records)
    ensures stop == BreachHalted ==> f.killed && f.halting && |records| > 0 && session(|records| - 1).breach
    ensures stop == Completed ==> |records| == c.total
  {
    hide After, DaysOf, Open, Expected, Appended, Served, Recorded, Readable;
    ghost var whole := !f.ledger.unterminated && Readable(f.ledger) && DaysOf(f.ledger.entries) == prior;
    records, steps := prior, taken;
    while |records| < c.total
      invariant prior <= records && |records| <= c.total
      invariant After(c, s0, steps) == f.Now(Between(records))
      invariant whole ==> !f.ledger.unterminated && Readable(f.ledger) && DaysOf(f.ledger.entries) == records
      invariant forall k :: |prior| <= k < |records| ==>
        Served(c, records[k], k, session(k)) && !session(k).breach
      invariant if records == prior then f.book == old(f.book) else Recorded(f.book) == Expected(c, records)
    {
      ghost var was := f.ledger;
      var why, more;
      why, more, steps := RunSession(c, f, records, session(|records|), s0, steps);
      SessionServed(c, records, more, session(|records|));
      if more != records {
        LandedAppend(was, Finished(more[|records|]));
        ExpectedAfter(c, records, more[|records|]);
      }
      records := more;
      if why.Some? {
        return why.value, records, steps;
      }
    }
    Took(c, s0, steps, BeginDay);
    return Completed, records, steps + [BeginDay];
  }

  /** Why a session ends the run, None when the next one follows. */
  function SessionStop(c: Config, records: seq<Day>, book: Book, z: Session): Option<Stop>
    requires |records| < |c.plan|
  {
    if c.plan[|records|] !in c.hasBars then Some(NoBars)
    else if z.raises then Some(DayFailed)
    else if Recorded(book) != Expected(c, records) then Some(RecoveryBlocked)
    else if z.breach then Some(BreachHalted)
    else None
  }

  lemma SessionServed(c: Config, records: seq<Day>, more: seq<Day>, z: Session)
    requires |records| < |c.plan|
    ensures c.plan[|records|] in c.hasBars && !z.raises && |more| == |records| + 1
            && more[|records|].day == c.plan[|records|] && more[|records|].end == Recorded(z.live) ==>
      Served(c, more[|records|], |records|, z)
  {
  }

  method RunSession(c: Config, f: Files, records: seq<Day>, z: Session, ghost s0: State, ghost taken: seq<Step>)
    returns (why: Option<Stop>, more: seq<Day>, ghost steps: seq<Step>)
    requires |records| < c.total <= |c.plan| && After(c, s0, taken) == f.Now(Between(records))
    modifies f
    ensures why == SessionStop(c, records, old(f.book), z)
    ensures After(c, s0, steps) == f.Now(if why.None? then Between(more) else Idle)
    ensures var d := Day(c.plan[|records|], Recorded(old(f.book)), Recorded(z.live));
      if why in {None, Some(BreachHalted)}
      then more == records + [d] && f.ledger == Appended(old(f.ledger), Finished(d), Lands)
      else more == records && f.ledger == old(f.ledger)
    ensures f.book == if why == Some(NoBars) then old(f.book) else z.live
    ensures why == Some(BreachHalted) ==> f.killed && f.halting
  {
    hide After, DaysOf, Open, Expected, Appended;
    Took(c, s0, taken, BeginDay);
    steps, more := taken + [BeginDay], records;
    if c.plan[|records|] !in c.hasBars {
      return Some(NoBars), more, steps;
    }
    var start, halted := Recorded(f.book), false;
    f.begun := f.begun + 1;
    f.book := z.live;
    Took(c, s0, steps, Trades(z.live, true));
    steps := steps + [Trades(z.live, true)];
    if z.breach {
      halted, f.killed, f.halting := true, true, true;
      Took(c, s0, steps, Breach(true));
      steps := steps + [Breach(true)];
    }
    assert After(c, s0, steps) == f.Now(InDay(records, start, z.live, halted));
    if z.raises {
      Took(c, s0, steps, DayRaises);
      return Some(DayFailed), more, steps + [DayRaises];
    }
    Took(c, s0, steps, EndDay(true, Lands));
    steps := steps + [EndDay(true, Lands)];
    if start != Expected(c, records) {
      return Some(RecoveryBlocked), more, steps;
    }
    var d := Day(c.plan[|records|], start, Recorded(z.live));
    f.ledger := Appended(f.ledger, Finished(d), Lands);
    more := records + [d];
    why := if halted then Some(BreachHalted) else None;
  }

  lemma ExpectedAfter(c: Config, records: seq<Day>, d: Day)
    ensures Expected(c, records + [d]) == d.end
  {
  }

  lemma NoSteps(c: Config, s: State)
    ensures After(c, s, []) == s
  {
  }

  lemma LandedAppend(l: Ledger, e: Entry)
    ensures var m := Appended(l, e, Lands);
      !l.unterminated && Readable(l) && !e.Torn? ==>
        && !m.unterminated && Readable(m)
        && DaysOf(m.entries) == if e.Finished? then DaysOf(l.entries) + [e.d] else DaysOf(l.entries)
  {
    assert (l.entries + [e])[..|l.entries|] == l.entries;
  }
}
