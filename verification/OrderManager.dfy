/** Fills and start-up recovery: what `handle_fill` and `recover` write, and in which order. */
module OrderManager {
  import opened Market
  import opened Lifecycle
  import opened OrderStore

  // ---------------------------------------------------------------- the broker's order book

  datatype BrokerOrder = BrokerOrder(tag: string, orderId: string, status: Option<string>, filled: int)

  datatype Answer = Unreadable | Absent | Found(order: BrokerOrder)

  predicate Matches(o: BrokerOrder, r: Record) {
    o.tag == r.id || (r.brokerId != "" && o.orderId == r.brokerId)
  }

  /** The first match in book order. */
  function Search(book: seq<BrokerOrder>, r: Record): Answer {
    if book == [] then Absent
    else if Matches(book[0], r) then Found(book[0])
    else Search(book[1..], r)
  }

  function Query(book: Option<seq<BrokerOrder>>, r: Record): Answer {
    if book.None? then Unreadable else Search(book.value, r)
  }

  lemma {:induction false} SearchMeans(book: seq<BrokerOrder>, r: Record)
    ensures Search(book, r) == Absent <==> forall i :: 0 <= i < |book| ==> !Matches(book[i], r)
    ensures Search(book, r).Found? ==>
      exists i :: 0 <= i < |book| && Search(book, r).order == book[i] && Matches(book[i], r)
                  && forall j :: 0 <= j < i ==> !Matches(book[j], r)
  {
    if book != [] && !Matches(book[0], r) {
      SearchMeans(book[1..], r);
      assert forall i :: 1 <= i < |book| ==> book[i] == book[1..][i - 1];
      if Search(book[1..], r).Found? {
        var i :| 0 <= i < |book[1..]| && Search(book[1..], r).order == book[1..][i] && Matches(book[1..][i], r)
          && forall j :: 0 <= j < i ==> !Matches(book[1..][j], r);
        assert Matches(book[i + 1], r);
        assert forall j :: 1 <= j < i + 1 ==> book[j] == book[1..][j - 1];
      }
    }
  }

  // ---------------------------------------------------------------- recovery of one record

  /** Stopped: the transition is undeclared, the call raises, and nothing is written for the record. */
  datatype Recovery = Stopped | Settled(record: Record)

  function MoveOrStop(r: Record, to: OrderState, reconciled: bool): Recovery {
    if Allowed(r.state, to, reconciled) then Settled(Moved(r, to, reconciled)) else Stopped
  }

  /** From a pre-submit state along the declared path. */
  function WalkToSubmitted(r: Record): Record {
    var checked := if r.state == IntentCreated then Moved(r, RiskCheckPending, false) else r;
    var approved := if checked.state == RiskCheckPending then Moved(checked, RiskApproved, false) else checked;
    if approved.state == RiskApproved then Moved(approved, Submitted, false) else approved
  }

  function Reported(r: Record, o: BrokerOrder): Record {
    r.(brokerId := if o.orderId != "" then o.orderId else r.brokerId,
       filledQty := if o.filled < r.qty then o.filled else r.qty)
  }

  /** Reconcile a record the broker may know, against one reading of its book. */
  function RecoverSent(r: Record, answer: Answer): Recovery {
    match answer
    case Unreadable => if r.state == Unknown then Settled(r) else MoveOrStop(r, Unknown, false)
    case Absent => MoveOrStop(r, Rejected, r.state == Unknown)
    case Found(o) =>
      var to := MapBrokerStatus(o.status, o.filled, r.qty);
      var seen := Reported(r, o);
      if to == r.state then Settled(seen)
      else if to == Unknown then MoveOrStop(seen, Unknown, false)
      else MoveOrStop(seen, to, true)
  }

  /** A pre-submit record costs one reading of its own; what it finds is read again. */
  function RecoverOne(r: Record, early: Option<seq<BrokerOrder>>, late: Option<seq<BrokerOrder>>): Recovery {
    if Terminal(r.state) then Settled(r)
    else if !PreSubmit(r.state) then RecoverSent(r, Query(late, r))
    else if !Query(early, r).Found? then MoveOrStop(r, RiskRejected, false)
    else RecoverSent(WalkToSubmitted(r), Query(late, r))
  }

  /** The state the reading says the order is in. */
  function Verdict(r: Record, answer: Answer): OrderState {
    match answer
    case Unreadable => Unknown
    case Absent => Rejected
    case Found(o) => MapBrokerStatus(o.status, o.filled, r.qty)
  }

  /** The pairs (local state, answer) for which no transition is declared. */
  predicate Undeclared(state: OrderState, answer: Answer, verdict: OrderState) {
    match state
    case Submitted => verdict == CancelPending
    case Acknowledged => verdict == Submitted
    case PartiallyFilled => answer == Absent || verdict in {Submitted, Acknowledged, Rejected}
    case CancelPending => verdict in {Submitted, Acknowledged, Expired}
    case Unknown => verdict in {Submitted, CancelPending}
    case _ => false
  }

  /** When the first reading decides, the record was never sent. */
  predicate Abandoned(r: Record, early: Option<seq<BrokerOrder>>) {
    PreSubmit(r.state) && !Query(early, r).Found?
  }

  function LocalState(r: Record): OrderState { if PreSubmit(r.state) then Submitted else r.state }

  /** The quantity the broker reports, never more than was ordered, and its order id when it gives one. */
  predicate TakenFrom(r: Record, o: BrokerOrder, r': Record) {
    && r'.filledQty == (if o.filled <= r.qty then o.filled else r.qty)
    && r'.brokerId == (if o.orderId == "" then r.brokerId else o.orderId)
  }

  /** Whatever the readings say: recovery stops on exactly the undeclared pairs; otherwise an
      abandoned intent is closed, every other record ends in the state the broker reports, and the
      history stays a legal path. */
  lemma RecoveryVerdict(r: Record, early: Option<seq<BrokerOrder>>, late: Option<seq<BrokerOrder>>)
    requires LegalHistory(r) && !Terminal(r.state)
    ensures var answer := Query(late, r);
      RecoverOne(r, early, late).Stopped?
      <==> !Abandoned(r, early) && Undeclared(LocalState(r), answer, Verdict(r, answer))
    ensures RecoverOne(r, early, late).Settled? ==>
      var r' := RecoverOne(r, early, late).record;
      && r'.state == (if Abandoned(r, early) then RiskRejected else Verdict(r, Query(late, r)))
      && LegalHistory(r') && r.history <= r'.history
      && r'.id == r.id && r'.qty == r.qty && r'.line == r.line && r'.applied == r.applied
    ensures RecoverOne(r, early, late).Settled? ==>
      var r', answer := RecoverOne(r, early, late).record, Query(late, r);
      if Abandoned(r, early) || !answer.Found? then r'.filledQty == r.filledQty && r'.brokerId == r.brokerId
      else TakenFrom(r, answer.order, r')
  {
    hide RecoverSent, LegalHistory, Query, Verdict, WalkToSubmitted;
    if Abandoned(r, early) {
      MoveIsLegal(r, RiskRejected, false);
    } else if PreSubmit(r.state) {
      WalkIsLegal(r);
      var w := WalkToSubmitted(r);
      SameQuery(late, r, w);
      SentVerdict(w, Query(late, w));
      assert Verdict(w, Query(late, w)) == Verdict(r, Query(late, r)) by { SameVerdict(r, w, Query(late, r)); }
    } else {
      SentVerdict(r, Query(late, r));
    }
  }

  lemma SameVerdict(r: Record, w: Record, answer: Answer)
    requires r.qty == w.qty
    ensures Verdict(w, answer) == Verdict(r, answer)
  {
  }

  /** Only the tag and the broker id are searched for. */
  lemma SameQuery(book: Option<seq<BrokerOrder>>, r: Record, w: Record)
    requires r.id == w.id && r.brokerId == w.brokerId
    ensures Query(book, w) == Query(book, r)
  {
    if book.Some? {
      SameSearch(book.value, r, w);
    }
  }

  lemma {:induction false} SameSearch(book: seq<BrokerOrder>, r: Record, w: Record)
    requires r.id == w.id && r.brokerId == w.brokerId
    ensures Search(book, w) == Search(book, r)
  {
    if book != [] {
      SameSearch(book[1..], r, w);
    }
  }

  lemma MoveIsLegal(r: Record, to: OrderState, reconciled: bool)
    requires LegalHistory(r) && Allowed(r.state, to, reconciled)
    ensures LegalHistory(Moved(r, to, reconciled)) && r.history <= Moved(r, to, reconciled).history
  {
  }

  lemma ReportedIsLegal(r: Record, o: BrokerOrder)
    requires LegalHistory(r)
    ensures LegalHistory(Reported(r, o))
  {
  }

  lemma SentVerdict(r: Record, answer: Answer)
    requires LegalHistory(r) && !Terminal(r.state) && !PreSubmit(r.state)
    ensures RecoverSent(r, answer).Stopped? <==> Undeclared(r.state, answer, Verdict(r, answer))
    ensures RecoverSent(r, answer).Settled? ==>
      var r' := RecoverSent(r, answer).record;
      && r'.state == Verdict(r, answer) && LegalHistory(r') && r.history <= r'.history
      && r'.id == r.id && r'.qty == r.qty && r'.line == r.line && r'.applied == r.applied
      && (if answer.Found? then TakenFrom(r, answer.order, r')
          else r'.filledQty == r.filledQty && r'.brokerId == r.brokerId)
  {
    hide MapBrokerStatus, LegalHistory;
    var from := r;
    if answer.Found? {
      StatusNeverOptimistic(answer.order.status, answer.order.filled, r.qty);
      ReportedIsLegal(r, answer.order);
      from := Reported(r, answer.order);
    }
    var to := Verdict(r, answer);
    var reconciled := if answer == Absent then r.state == Unknown else answer.Found? && to != Unknown;
    if to != r.state && Allowed(from.state, to, reconciled) {
      MoveIsLegal(from, to, reconciled);
    }
  }

  lemma WalkIsLegal(r: Record)
    requires LegalHistory(r) && PreSubmit(r.state)
    ensures var w := WalkToSubmitted(r);
      && w == r.(state := Submitted, history := w.history)
      && LegalHistory(w) && r.history <= w.history
  {
    hide LegalHistory;
    var checked := if r.state == IntentCreated then Moved(r, RiskCheckPending, false) else r;
    if r.state == IntentCreated {
      MoveIsLegal(r, RiskCheckPending, false);
    }
    var approved := if checked.state == RiskCheckPending then Moved(checked, RiskApproved, false) else checked;
    if checked.state == RiskCheckPending {
      MoveIsLegal(checked, RiskApproved, false);
    }
    MoveIsLegal(approved, Submitted, false);
  }

  /** A matching order with a recognised terminal status, COMPLETE only when whole. */
  predicate TerminalAnswer(r: Record, answer: Answer) {
    answer == Absent || (answer.Found? && Verdict(r, answer) in {Filled, Cancelled, Rejected, Expired})
  }

  /** Against terminal answers only three pairs stop recovery; every other record ends terminal. */
  lemma TerminalAnswersSettle(r: Record, book: seq<BrokerOrder>)
    requires LegalHistory(r) && !Terminal(r.state)
    requires TerminalAnswer(r, Query(Some(book), r))
    ensures var answer := Query(Some(book), r);
      RecoverOne(r, Some(book), Some(book)).Stopped?
      <==> || (r.state == PartiallyFilled && answer == Absent)
           || (r.state == PartiallyFilled && answer.Found? && Verdict(r, answer) == Rejected)
           || (r.state == CancelPending && answer.Found? && Verdict(r, answer) == Expired)
    ensures RecoverOne(r, Some(book), Some(book)).Settled? ==>
      Terminal(RecoverOne(r, Some(book), Some(book)).record.state)
  {
    hide RecoverOne, MapBrokerStatus, LegalHistory, Query;
    RecoveryVerdict(r, Some(book), Some(book));
  }

  // ---------------------------------------------------------------- the recovery pass

  /** What each query of a pass returns; ids are distinct, so any sequence of readings fits. */
  datatype Readings = Readings(early: string -> Option<seq<BrokerOrder>>, late: string -> Option<seq<BrokerOrder>>)

  datatype Pass = Pass(store: Store, finished: bool)

  function One(s: Store, id: string, w: Readings): Recovery {
    if id in s.records then RecoverOne(s.records[id], w.early(id), w.late(id)) else Stopped
  }

  /** The pass over a snapshot `s` of the open records; the first undeclared pair ends it. */
  function RecoverPass(s: Store, ids: seq<string>, w: Readings): Pass {
    if ids == [] then Pass(s, true)
    else
      var before, id := RecoverPass(s, ids[..|ids| - 1], w), ids[|ids| - 1];
      if !before.finished || One(s, id, w).Stopped? then Pass(before.store, false)
      else Pass(Saved(before.store, One(s, id, w).record), true)
  }

  ghost predicate LegalStore(s: Store) {
    WellIndexed(s) && forall id :: id in s.records ==> LegalHistory(s.records[id])
  }

  predicate Distinct(ids: seq<string>) { forall i, j :: 0 <= i < j < |ids| ==> ids[i] != ids[j] }

  ghost predicate NamesKept(s: Store, ids: seq<string>, w: Readings) {
    forall i :: 0 <= i < |ids| ==>
      ids[i] in s.records && (One(s, ids[i], w).Settled? ==> One(s, ids[i], w).record.id == ids[i])
  }

  /** A pass writes each record at most once: those before the first stop get their verdict, the
      rest keep what they had. */
  lemma {:induction false} PassMeans(s: Store, ids: seq<string>, w: Readings)
    requires Distinct(ids) && NamesKept(s, ids, w)
    ensures var p := RecoverPass(s, ids, w);
      && p.store == s.(records := p.store.records)
      && p.store.records.Keys == s.records.Keys
      && (p.finished <==> forall i :: 0 <= i < |ids| ==> One(s, ids[i], w).Settled?)
    ensures var p := RecoverPass(s, ids, w);
      forall id :: id in s.records ==>
        || (p.store.records[id] == s.records[id] && (p.finished ==> id !in ids))
        || (One(s, id, w) == Settled(p.store.records[id]) && id in ids)
  {
    hide One, Saved;
    if ids != [] {
      var n := |ids| - 1;
      var shorter := ids[..n];
      assert forall i :: 0 <= i < n ==> shorter[i] == ids[i];
      PassMeans(s, shorter, w);
      if One(s, ids[n], w).Settled? {
        SavedRecords(RecoverPass(s, shorter, w).store, One(s, ids[n], w).record);
      }
      assert ids[n] !in shorter;
      assert forall id :: id in ids <==> id in shorter || id == ids[n];
    }
  }

  lemma SavedRecords(s: Store, r: Record)
    requires r.id in s.records
    ensures Saved(s, r) == s.(records := s.records[r.id := r])
  {
  }

  lemma PassStaysLegal(s: Store, ids: seq<string>, w: Readings)
    requires LegalStore(s) && Distinct(ids)
    requires forall id :: id in ids ==> id in s.records && !Terminal(s.records[id].state)
    ensures NamesKept(s, ids, w) && LegalStore(RecoverPass(s, ids, w).store)
  {
    hide LegalHistory, RecoverOne, RecoverPass;
    forall i | 0 <= i < |ids|
      ensures ids[i] in s.records
      ensures var one := One(s, ids[i], w);
        one.Settled? ==> one.record.id == ids[i] && LegalHistory(one.record)
    {
      RecoveryVerdict(s.records[ids[i]], w.early(ids[i]), w.late(ids[i]));
    }
    PassMeans(s, ids, w);
  }

  /** Over one readable book of terminal answers, the pass finishes iff no open record meets one of
      the three undeclared pairs, and then no record is left open. */
  lemma RecoveryClosesTheBook(s: Store, ids: seq<string>, book: seq<BrokerOrder>)
    requires LegalStore(s) && Distinct(ids)
    requires forall id :: id in ids <==> id in s.records && !Terminal(s.records[id].state)
    requires forall id :: id in ids ==> TerminalAnswer(s.records[id], Query(Some(book), s.records[id]))
    ensures var p := RecoverPass(s, ids, Readings(_ => Some(book), _ => Some(book)));
      && (p.finished <==> forall id :: id in ids ==>
            var r := s.records[id];
            var answer := Query(Some(book), r);
            && !(r.state == PartiallyFilled && answer == Absent)
            && !(r.state == PartiallyFilled && answer.Found? && Verdict(r, answer) == Rejected)
            && !(r.state == CancelPending && answer.Found? && Verdict(r, answer) == Expired))
      && (p.finished ==> forall id :: id in p.store.records ==> Terminal(p.store.records[id].state))
      && LegalStore(p.store)
  {
    hide LegalHistory, RecoverOne, Query, Verdict;
    var w := Readings(_ => Some(book), _ => Some(book));
    PassStaysLegal(s, ids, w);
    PassMeans(s, ids, w);
    forall id | id in ids
      ensures One(s, id, w) == RecoverOne(s.records[id], Some(book), Some(book))
    {
    }
    forall id | id in ids
    {
      TerminalAnswersSettle(s.records[id], book);
    }
  }

  // ---------------------------------------------------------------- one fill message

  datatype FillVerdict = NoRecord | RecordBlocked | AlreadyApplied | BadQuantity | IllegalMove | Booked

  /** By client id, else the first open record carrying the broker id. */
  function LookUp(s: Store, ref: string): Option<Record> {
    if ref in s.records then Some(s.records[ref]) else ByBrokerId(s, ref, ListOpen(s, s.ids))
  }

  function ByBrokerId(s: Store, ref: string, open: seq<string>): Option<Record> {
    if open == [] then None
    else if open[0] in s.records && ref != "" && s.records[open[0]].brokerId == ref then Some(s.records[open[0]])
    else ByBrokerId(s, ref, open[1..])
  }

  lemma {:induction false} ByBrokerIdIsStored(s: Store, ref: string, open: seq<string>)
    requires WellIndexed(s)
    ensures var r := ByBrokerId(s, ref, open); r.Some? ==> r.value.id in s.records && s.records[r.value.id] == r.value
  {
    if open != [] {
      ByBrokerIdIsStored(s, ref, open[1..]);
    }
  }

  function FillState(r: Record): OrderState { if r.Remaining() == 0 then Filled else PartiallyFilled }

  function Judge(r: Option<Record>, f: Fill): FillVerdict {
    if r.None? then NoRecord
    else if r.value.state == Unknown then RecordBlocked
    else
      match ApplyFill(r.value, f)
      case Duplicate => AlreadyApplied
      case Refused => BadQuantity
      case Applied(a) => if Allowed(a.state, FillState(a), false) then Booked else IllegalMove
  }

  function Signed(f: Fill): int { if f.side == Buy then f.qty else -f.qty }

  /** The durable writes once a fill is applied in memory, in order. An illegal move is only found
      after the trade has been logged. */
  function WritesOf(a: Record, f: Fill): seq<Op> {
    [OpTrade(a.id, f)]
    + if !Allowed(a.state, FillState(a), false) then []
      else [OpSave(Moved(a, FillState(a), false)), OpDelta(a.line, Signed(f), f.price)]
  }

  function Writes(r: Option<Record>, f: Fill): seq<Op> {
    var verdict := Judge(r, f);
    if verdict == Booked || verdict == IllegalMove then WritesOf(ApplyFill(r.value, f).record, f) else []
  }

  // ---------------------------------------------------------------- many fill messages

  /** A fill saved in its record; `moved` when the call also reached the position write. */
  datatype Entry = Entry(id: string, line: LineKey, fill: Fill, moved: bool)

  /** What may happen to the store around fills. A delivery gets through `done` of its writes before
      the process dies; all of them when the call completes. */
  datatype Happening =
    | Delivery(ref: string, fill: Fill, done: nat)
    | Change(id: string, to: OrderState, reconciled: bool)
    | NewOrder(r: Record)

  datatype World = World(store: Store, book: seq<Entry>)

  function Written(h: Happening, ops: seq<Op>): seq<Op>
    requires h.Delivery?
  {
    if h.done < |ops| then ops[..h.done] else ops
  }

  function Next(w: World, h: Happening): World {
    match h
    case NewOrder(r) =>
      if r.applied == [] && r.filledQty == 0 && r.id !in w.store.records then World(Reserved(w.store, r), w.book) else w
    case Change(id, to, reconciled) =>
      if id in w.store.records && Allowed(w.store.records[id].state, to, reconciled)
      then World(Saved(w.store, Moved(w.store.records[id], to, reconciled)), w.book)
      else w
    case Delivery(ref, f, done) =>
      var r := LookUp(w.store, ref);
      var ops := Written(h, Writes(r, f));
      World(DoAll(w.store, ops),
            if |ops| < 2 then w.book else w.book + [Entry(r.value.id, r.value.line, f, |ops| == 3)])
  }

  function Outcome(w: World, hs: seq<Happening>): World {
    if hs == [] then w else Next(Outcome(w, hs[..|hs| - 1]), hs[|hs| - 1])
  }

  /** The fills booked on one order, oldest first. */
  function FillsOf(book: seq<Entry>, id: string): seq<Fill> {
    if book == [] then []
    else
      var before, e := FillsOf(book[..|book| - 1], id), book[|book| - 1];
      if e.id == id then before + [e.fill] else before
  }

  /** What the position writes moved on one line. */
  function Net(book: seq<Entry>, line: LineKey): int {
    if book == [] then 0
    else
      var e := book[|book| - 1];
      Net(book[..|book| - 1], line) + if e.moved && e.line == line then Signed(e.fill) else 0
  }

  /** Every record accounts for exactly its booked fills, each once and within the order quantity,
      and every booked fill is in the trade log. */
  ghost predicate OrdersAccounted(w: World) {
    && WellIndexed(w.store)
    && (forall id :: id in w.store.records ==> Tally(w.store.records[id], FillsOf(w.book, id)))
    && (forall i :: 0 <= i < |w.book| ==> w.book[i].id in w.store.records && w.book[i].fill.id in w.store.tradeIds)
    && (forall id :: id !in w.store.records ==> FillsOf(w.book, id) == [])
  }

  /** Every position is its start plus the moved fills. */
  ghost predicate PositionsAccounted(w: World, start: Store) {
    forall line :: HoldingOf(w.store, line).quantity == HoldingOf(start, line).quantity + Net(w.book, line)
  }

  ghost predicate Accounted(w: World, start: Store) { OrdersAccounted(w) && PositionsAccounted(w, start) }

  lemma LookUpIsStored(s: Store, ref: string)
    requires WellIndexed(s)
    ensures var r := LookUp(s, ref); r.Some? ==> r.value.id in s.records && s.records[r.value.id] == r.value
  {
    ByBrokerIdIsStored(s, ref, ListOpen(s, s.ids));
  }

  lemma Appended(book: seq<Entry>, e: Entry)
    ensures forall id ::
      FillsOf(book + [e], id) == if id == e.id then FillsOf(book, id) + [e.fill] else FillsOf(book, id)
    ensures forall line ::
      Net(book + [e], line) == Net(book, line) + if e.moved && e.line == line then Signed(e.fill) else 0
  {
    assert (book + [e])[..|book|] == book;
  }

  lemma DoneOps(s: Store, a: Op, b: Op, c: Op)
    ensures DoAll(s, []) == s && DoAll(s, [a]) == Do(s, a) && DoAll(s, [a, b]) == Do(Do(s, a), b)
    ensures DoAll(s, [a, b, c]) == Do(Do(Do(s, a), b), c)
  {
    hide Do;
    DoMore(s, [], a);
    DoMore(s, [a], b);
    DoMore(s, [a, b], c);
    assert [] + [a] == [a];
    assert [a] + [b] == [a, b];
    assert [a, b] + [c] == [a, b, c];
  }

  lemma TradeKeeps(w: World, start: Store, id: string, f: Fill)
    requires Accounted(w, start) && f.id != ""
    ensures Accounted(w.(store := TradeRecorded(w.store, id, f)), start)
    ensures f.id in TradeRecorded(w.store, id, f).tradeIds
  {
    hide Tally, FillsOf, Net;
  }

  /** The record write and the ledger entry go together; the position write follows or is lost. */
  lemma BookKeeps(w: World, start: Store, r: Record, f: Fill, moved: bool)
    requires Accounted(w, start) && r.id in w.store.records && w.store.records[r.id] == r
    requires f.id in w.store.tradeIds && Judge(Some(r), f) == Booked
    ensures var a := ApplyFill(r, f).record;
      var saved := Saved(w.store, Moved(a, FillState(a), false));
      var store := if moved then DeltaApplied(saved, r.line, Signed(f), f.price) else saved;
      Accounted(World(store, w.book + [Entry(r.id, r.line, f, moved)]), start)
  {
    hide Tally, FillsOf, Net, ApplyFill, Adjusted;
    var a := ApplyFill(r, f).record;
    var a' := Moved(a, FillState(a), false);
    ApplyFillTally(r, f, FillsOf(w.book, r.id));
    StateIsNotTallied(a, a', FillsOf(w.book, r.id) + [f]);
    AppliedKeepsName(r, f);
    SavedRecord(w, r, f, a', moved);
    MovedPosition(w, start, r.line, Entry(r.id, r.line, f, moved), a');
  }

  lemma SavedRecord(w: World, r: Record, f: Fill, a: Record, moved: bool)
    requires OrdersAccounted(w) && r.id in w.store.records && a.id == r.id && f.id in w.store.tradeIds
    requires Tally(a, FillsOf(w.book, r.id) + [f])
    ensures var saved := Saved(w.store, a);
      var store := if moved then DeltaApplied(saved, r.line, Signed(f), f.price) else saved;
      OrdersAccounted(World(store, w.book + [Entry(r.id, r.line, f, moved)]))
  {
    hide Tally, FillsOf, Net, Adjusted, WellIndexed;
    Appended(w.book, Entry(r.id, r.line, f, moved));
    SavedIsIndexed(w.store, a, r.line, Signed(f), f.price);
  }

  lemma SavedIsIndexed(s: Store, a: Record, line: LineKey, delta: int, price: real)
    requires WellIndexed(s) && a.id in s.records
    ensures WellIndexed(Saved(s, a)) && WellIndexed(DeltaApplied(Saved(s, a), line, delta, price))
    ensures Saved(s, a).records.Keys == s.records.Keys
  {
  }

  lemma MovedPosition(w: World, start: Store, line: LineKey, e: Entry, a: Record)
    requires PositionsAccounted(w, start) && e.line == line
    ensures var saved := Saved(w.store, a);
      var store := if e.moved then DeltaApplied(saved, line, Signed(e.fill), e.fill.price) else saved;
      PositionsAccounted(World(store, w.book + [e]), start)
  {
    hide Net, Adjusted;
    Appended(w.book, e);
    AdjustedQuantity(HoldingOf(w.store, line), Signed(e.fill), e.fill.price);
  }

  lemma AdjustedQuantity(h: Holding, delta: int, price: real)
    ensures Adjusted(h, delta, price).quantity == h.quantity + delta
  {
  }

  lemma AppliedKeepsName(r: Record, f: Fill)
    requires ApplyFill(r, f).Applied?
    ensures ApplyFill(r, f).record.id == r.id && ApplyFill(r, f).record.line == r.line
  {
  }

  lemma StateIsNotTallied(r: Record, r': Record, log: seq<Fill>)
    requires Tally(r, log) && r' == r.(state := r'.state, history := r'.history)
    ensures Tally(r', log)
  {
  }

  lemma DeliveryKeeps(w: World, start: Store, h: Happening)
    requires Accounted(w, start) && h.Delivery? && h.fill.id != ""
    ensures Accounted(Next(w, h), start)
  {
    hide Tally, FillsOf, Net, ApplyFill, LookUp, Saved, DeltaApplied, TradeRecorded, Accounted, DoAll;
    assert WellIndexed(w.store) by { AccountedIsIndexed(w, start); }
    LookUpIsStored(w.store, h.ref);
    var r, f := LookUp(w.store, h.ref), h.fill;
    var ops := Written(h, Writes(r, f));
    if ops == [] {
      DoneOps(w.store, OpTrade("", f), OpTrade("", f), OpTrade("", f));
    } else {
      var id := r.value.id;
      if Judge(r, f) in {Booked, IllegalMove} {
        AppliedKeepsName(r.value, f);
      }
      var logged := TradeRecorded(w.store, id, f);
      TradeKeeps(w, start, id, f);
      assert ops[0] == OpTrade(id, f);
      if |ops| == 1 {
        assert ops == [ops[0]];
        DoneOps(w.store, ops[0], ops[0], ops[0]);
      } else {
        TradeKeepsRecords(w.store, id, f);
        BookKeeps(w.(store := logged), start, r.value, f, |ops| == 3);
        if |ops| == 2 {
          assert ops == [ops[0], ops[1]];
          DoneOps(w.store, ops[0], ops[1], ops[1]);
        } else {
          assert ops == [ops[0], ops[1], ops[2]];
          DoneOps(w.store, ops[0], ops[1], ops[2]);
        }
      }
    }
  }

  lemma AccountedIsIndexed(w: World, start: Store)
    requires Accounted(w, start)
    ensures WellIndexed(w.store)
  {
  }

  lemma TradeKeepsRecords(s: Store, id: string, f: Fill)
    ensures TradeRecorded(s, id, f).records == s.records
  {
  }

  lemma OtherKeeps(w: World, start: Store, h: Happening)
    requires Accounted(w, start) && !h.Delivery?
    ensures Accounted(Next(w, h), start)
  {
    hide Tally, FillsOf, Net;
    if h.NewOrder? {
      hide Accounted;
      NewOrderKeeps(w, start, h.r);
    } else if h.id in w.store.records && Allowed(w.store.records[h.id].state, h.to, h.reconciled) {
      hide WellIndexed;
      var r := w.store.records[h.id];
      IdsMatch(w.store, h.id);
      SavedIsIndexed(w.store, Moved(r, h.to, h.reconciled), r.line, 0, 0.0);
      StateIsNotTallied(r, Moved(r, h.to, h.reconciled), FillsOf(w.book, h.id));
    }
  }

  lemma NewOrderKeeps(w: World, start: Store, r: Record)
    requires Accounted(w, start)
    ensures Accounted(Next(w, NewOrder(r)), start)
  {
    hide Tally, FillsOf, Net;
    NothingTallied(r);
  }

  lemma IdsMatch(s: Store, id: string)
    requires WellIndexed(s) && id in s.records
    ensures s.records[id].id == id
  {
  }

  lemma NothingTallied(r: Record)
    ensures r.applied == [] && r.filledQty == 0 ==> Tally(r, [])
  {
  }

  /** Any number of fill messages, duplicated, reordered, refused or cut short anywhere, among any
      other changes of state. */
  lemma {:induction false} FillsAreBookedOnce(start: Store, hs: seq<Happening>)
    requires WellIndexed(start)
    requires forall id :: id in start.records ==> start.records[id].applied == [] && start.records[id].filledQty == 0
    requires forall i :: 0 <= i < |hs| && hs[i].Delivery? ==> hs[i].fill.id != ""
    ensures Accounted(Outcome(World(start, []), hs), start)
  {
    hide Accounted, Next;
    if hs == [] {
      StartIsAccounted(start);
    } else {
      var n := |hs| - 1;
      FillsAreBookedOnce(start, hs[..n]);
      var w := Outcome(World(start, []), hs[..n]);
      if hs[n].Delivery? {
        DeliveryKeeps(w, start, hs[n]);
      } else {
        OtherKeeps(w, start, hs[n]);
      }
    }
  }

  lemma StartIsAccounted(start: Store)
    requires WellIndexed(start)
    requires forall id :: id in start.records ==> start.records[id].applied == [] && start.records[id].filledQty == 0
    ensures Accounted(World(start, []), start)
  {
    hide Tally;
    forall id | id in start.records
      ensures Tally(start.records[id], [])
    {
      NothingTallied(start.records[id]);
    }
  }

  /** No fill id is booked twice on one order. */
  lemma EntriesAreDistinct(w: World, start: Store, i: nat, j: nat)
    requires Accounted(w, start) && i < j < |w.book| && w.book[i].id == w.book[j].id
    ensures w.book[i].fill.id != w.book[j].fill.id
  {
    hide Tally, WellIndexed, PositionsAccounted;
    var id := w.book[i].id;
    FillsGrow(w.book, i + 1, id);
    FillsGrow(w.book, j + 1, id);
    FillsGrow(w.book[..j], i + 1, id);
    assert w.book[..j][..i + 1] == w.book[..i + 1];
    assert w.book[..i + 1][..i] == w.book[..i] && w.book[..j + 1][..j] == w.book[..j];
    TallyIsDistinct(w.store.records[id], FillsOf(w.book, id), |FillsOf(w.book[..i], id)|, |FillsOf(w.book[..j], id)|);
  }

  lemma TallyIsDistinct(r: Record, log: seq<Fill>, a: nat, b: nat)
    requires Tally(r, log) && a < b < |log|
    ensures log[a].id != log[b].id
  {
  }

  lemma {:induction false} FillsGrow(book: seq<Entry>, n: nat, id: string)
    requires n <= |book|
    ensures FillsOf(book[..n], id) <= FillsOf(book, id)
  {
    if n < |book| {
      var shorter := book[..|book| - 1];
      FillsGrow(shorter, n, id);
      assert shorter[..n] == book[..n];
    } else {
      assert book[..n] == book;
    }
  }

  /** A bookable fill cut short: it is booked exactly when the process outlives the record write, and
      moves the position exactly when it outlives all three. */
  lemma CutDelivery(s: Store, r: Record, f: Fill, done: nat)
    requires WellIndexed(s) && r.id in s.records && s.records[r.id] == r
    requires f.id != "" && Judge(Some(r), f) == Booked
    ensures var t := DoAll(s, Written(Delivery(r.id, f, done), Writes(Some(r), f)));
      && r.id in t.records
      && (f.id in t.tradeIds <==> f.id in s.tradeIds || done >= 1)
      && (f.id in t.records[r.id].applied <==> done >= 2)
      && HoldingOf(t, r.line).quantity
         == HoldingOf(s, r.line).quantity + if done < 3 then 0 else if f.side == Buy then f.qty else -f.qty
    ensures var t := DoAll(s, Written(Delivery(r.id, f, done), Writes(Some(r), f)));
      r.id in t.records &&
      if done < 2 then t.records[r.id] == r
      else
        var booked := t.records[r.id];
        && booked.filledQty == r.filledQty + f.qty <= booked.qty == r.qty
        && booked.state == (if booked.filledQty == booked.qty then Filled else PartiallyFilled)
        && booked.history == r.history + [Hop(r.state, booked.state, false)]
  {
    hide DoAll, ApplyFill, WellIndexed, Adjusted;
    var ops := Writes(Some(r), f);
    var a := ApplyFill(r, f).record;
    AppliedKeepsName(r, f);
    FillIsNew(r, f);
    DoneOps(s, ops[0], ops[1], ops[2]);
    AdjustedQuantity(HoldingOf(s, r.line), Signed(f), f.price);
    assert ops[..0] == [] && ops[..1] == [ops[0]] && ops[..2] == [ops[0], ops[1]] && ops == [ops[0], ops[1], ops[2]];
  }

  lemma FillIsNew(r: Record, f: Fill)
    requires ApplyFill(r, f).Applied?
    ensures f.id !in r.applied && f.id in ApplyFill(r, f).record.applied
    ensures var a := ApplyFill(r, f).record;
      && a.filledQty == r.filledQty + f.qty <= r.qty == a.qty && a.state == r.state && a.history == r.history
  {
  }

  /** A fill is booked exactly on a known order at the broker, new, positive and within what remains. */
  lemma FillIsBookedWhen(r: Option<Record>, f: Fill)
    ensures Judge(r, f) == Booked <==>
      && r.Some? && r.value.state in {Submitted, Acknowledged, PartiallyFilled, CancelPending}
      && f.id !in r.value.applied && 0 < f.qty <= r.value.qty - r.value.filledQty
    ensures Judge(r, f) == RecordBlocked <==> r.Some? && r.value.state == Unknown
    ensures Judge(r, f) == NoRecord <==> r.None?
    ensures Judge(r, f) == AlreadyApplied <==> r.Some? && r.value.state != Unknown && f.id in r.value.applied
  {
    if r.Some? {
      FillIsTakenWhen(r.value, f);
    }
  }

  /** An order is found under its own id first, then under its broker id among the open ones, the earliest
      reserved first. */
  lemma LookUpMeans(s: Store, ref: string)
    requires WellIndexed(s)
    ensures ref in s.records ==> LookUp(s, ref) == Some(s.records[ref])
    ensures ref !in s.records && LookUp(s, ref).Some? ==>
      var r := LookUp(s, ref).value;
      ref != "" && r.brokerId == ref && !Terminal(r.state) && r.id in s.records && s.records[r.id] == r
    ensures LookUp(s, ref).None? && ref != "" ==>
      forall id :: id in s.records && !Terminal(s.records[id].state) ==> s.records[id].brokerId != ref
  {
    var open := ListOpen(s, s.ids);
    ListOpenMeans(s, s.ids);
    ByBrokerIdMeans(s, ref, open);
    LookUpIsStored(s, ref);
  }

  lemma {:induction false} ByBrokerIdMeans(s: Store, ref: string, open: seq<string>)
    requires WellIndexed(s)
    ensures var r := ByBrokerId(s, ref, open);
      && (r.Some? ==> ref != "" && r.value.brokerId == ref && r.value.id in open)
      && (r.None? && ref != "" ==> forall id :: id in open && id in s.records ==> s.records[id].brokerId != ref)
  {
    if open != [] {
      ByBrokerIdMeans(s, ref, open[1..]);
      assert open == [open[0]] + open[1..];
    }
  }

  /** A delivered fill is never booked again: it writes nothing, even when its position write was
      lost in a crash. */
  lemma RedeliveryWritesNothing(w: World, start: Store, i: nat, ref: string)
    requires Accounted(w, start) && i < |w.book|
    requires LookUp(w.store, ref).Some? && LookUp(w.store, ref).value.id == w.book[i].id
    ensures Writes(LookUp(w.store, ref), w.book[i].fill) == []
  {
    hide FillsOf, LookUp, Net;
    LookUpIsStored(w.store, ref);
    var id, log := w.book[i].id, FillsOf(w.book, w.book[i].id);
    var k := |FillsOf(w.book[..i], id)|;
    assert k < |log| && log[k] == w.book[i].fill by {
      FillsGrow(w.book, i + 1, id);
      Appended(w.book[..i], w.book[i]);
      assert w.book[..i + 1] == w.book[..i] + [w.book[i]];
    }
    assert w.store.records[id].applied[k] == w.book[i].fill.id;
  }

  /** A fill that fits its order is illegal exactly when the order was never sent or is closed; the
      trade is then in the log although no record and no position holds it. */
  lemma IllegalFillsAreLogged(s: Store, r: Record, f: Fill)
    requires r.state != Unknown && ApplyFill(r, f).Applied? && f.id != ""
    ensures Judge(Some(r), f) == IllegalMove <==> PreSubmit(r.state) || Terminal(r.state)
    ensures Judge(Some(r), f) == IllegalMove ==>
      var t := DoAll(s, Writes(Some(r), f));
      f.id in t.tradeIds && t.records == s.records && t.positions == s.positions
  {
    DoneOps(s, OpTrade(r.id, f), OpTrade(r.id, f), OpTrade(r.id, f));
  }

  // ---------------------------------------------------------------- the manager

  /** Every image the operations put in place, in order. */
  function Images(s: Store, ops: seq<Op>): seq<Store> {
    if ops == [] then []
    else
      var before := ops[..|ops| - 1];
      Images(s, before) + if Flushes(DoAll(s, before), ops[|ops| - 1]) then [DoAll(s, ops)] else []
  }

  method QueryBroker(book: Option<seq<BrokerOrder>>, rec: OrderRecord) returns (a: Answer)
    ensures a == Query(book, rec.Snapshot())
  {
    if book.None? {
      return Unreadable;
    }
    var orders := book.value;
    var i := 0;
    while i < |orders|
      invariant 0 <= i <= |orders|
      invariant Search(orders, rec.Snapshot()) == Search(orders[i..], rec.Snapshot())
    {
      if orders[i].tag == rec.id || (rec.brokerId != "" && orders[i].orderId == rec.brokerId) {
        return Found(orders[i]);
      }
      i := i + 1;
    }
    return Absent;
  }

  /** A record on its way has the same end as the step it has taken. */
  lemma WalkFrom(r: Record)
    ensures r.state == Submitted ==> WalkToSubmitted(r) == r
    ensures r.state == IntentCreated ==> WalkToSubmitted(Moved(r, RiskCheckPending, false)) == WalkToSubmitted(r)
    ensures r.state == RiskCheckPending ==> WalkToSubmitted(Moved(r, RiskApproved, false)) == WalkToSubmitted(r)
    ensures r.state == RiskApproved ==> WalkToSubmitted(r) == Moved(r, Submitted, false)
  {
  }

  method Walk(rec: OrderRecord)
    requires PreSubmit(rec.state)
    modifies rec
    ensures rec.Snapshot() == WalkToSubmitted(old(rec.Snapshot()))
  {
    hide WalkToSubmitted, LegalHistory;
    var chain, i := [RiskCheckPending, RiskApproved, Submitted], 0;
    while i < |chain|
      invariant 0 <= i <= 3
      invariant WalkToSubmitted(rec.Snapshot()) == WalkToSubmitted(old(rec.Snapshot()))
      invariant i == 0 ==> PreSubmit(rec.state)
      invariant i == 1 ==> rec.state in {RiskCheckPending, RiskApproved}
      invariant i == 2 ==> rec.state == RiskApproved
      invariant i == 3 ==> rec.state == Submitted
    {
      WalkFrom(rec.Snapshot());
      if rec.state != chain[i] && chain[i] in Legal(rec.state) {
        var _ := rec.Transition(chain[i], false);
        WalkFrom(rec.Snapshot());
      }
      i := i + 1;
    }
    WalkFrom(rec.Snapshot());
  }

  lemma WalkKeepsNames(r: Record)
    requires PreSubmit(r.state)
    ensures WalkToSubmitted(r) == r.(state := Submitted, history := WalkToSubmitted(r).history)
  {
  }

  method RecoverRecord(rec: OrderRecord, early: Option<seq<BrokerOrder>>, late: Option<seq<BrokerOrder>>)
    returns (ok: bool)
    requires !Terminal(rec.state)
    modifies rec
    ensures var verdict := RecoverOne(old(rec.Snapshot()), early, late);
      if ok then verdict == Settled(rec.Snapshot()) else verdict.Stopped?
  {
    hide MapBrokerStatus, Search, Query, WalkToSubmitted;
    ghost var was := rec.Snapshot();
    if PreSubmit(rec.state) {
      var first := QueryBroker(early, rec);
      if !first.Found? {
        ok := rec.Transition(RiskRejected, false);
        return;
      }
      Walk(rec);
      WalkKeepsNames(was);
      SameQuery(late, was, rec.Snapshot());
    }
    var answer := QueryBroker(late, rec);
    if answer.Unreadable? {
      if rec.state != Unknown {
        ok := rec.Transition(Unknown, false);
        return;
      }
      return true;
    }
    if answer.Absent? {
      ok := rec.Transition(Rejected, rec.state == Unknown);
      return;
    }
    var o := answer.order;
    var to := MapBrokerStatus(o.status, o.filled, rec.qty);
    rec.brokerId := if o.orderId != "" then o.orderId else rec.brokerId;
    rec.filledQty := if o.filled < rec.qty then o.filled else rec.qty;
    if to == rec.state {
      return true;
    }
    ok := rec.Transition(to, to != Unknown);
  }

  class OrderManager {
    const store: FileOrderStore

    constructor (store: FileOrderStore)
      ensures this.store == store
    {
      this.store := store;
    }

    /** Reconcile every open record in turn; the first undeclared transition raises. */
    method Recover(w: Readings) returns (finished: bool)
      requires store.Valid()
      modifies store, store.disk
      ensures store.Valid()
      ensures var s := old(store.Memory());
        RecoverPass(s, ListOpen(s, s.ids), w) == Pass(store.Memory(), finished)
    {
      hide RecoverOne, WellIndexed, ListOpen, RecoverPass;
      ghost var s := store.Memory();
      var snapshot := store.records;
      var open := store.OpenIds();
      var i := 0;
      ListOpenMeans(s, s.ids);
      assert RecoverPass(s, open[..0], w) == Pass(s, true) by { PassStart(s, w); }
      while i < |open|
        invariant 0 <= i <= |open|
        invariant store.Valid() && store.records.Keys == s.records.Keys
        invariant RecoverPass(s, open[..i], w) == Pass(store.Memory(), true)
      {
        PassStep(s, open, i, w);
        PassPrefix(s, open, i + 1, w);
        var id := open[i];
        assert id in open;
        var rec := new OrderRecord.FromRecord(snapshot[id]);
        var ok := RecoverRecord(rec, w.early(id), w.late(id));
        if !ok {
          return false;
        }
        SettledKeepsName(snapshot[id], w.early(id), w.late(id));
        var _ := store.Save(rec.Snapshot());
        i := i + 1;
      }
      assert open[..i] == open;
      finished := true;
    }

    lemma StoreIsIndexed()
      requires store.Valid()
      ensures WellIndexed(store.Memory())
    {
    }

    method GetRecord(ref: string) returns (r: Option<OrderRecord>)
      requires store.Valid()
      ensures r.None? <==> LookUp(store.Memory(), ref).None?
      ensures r.Some? ==> fresh(r.value) && LookUp(store.Memory(), ref) == Some(r.value.Snapshot())
    {
      if ref in store.records {
        var direct := new OrderRecord.FromRecord(store.records[ref]);
        return Some(direct);
      }
      var open := store.OpenIds();
      ghost var s := store.Memory();
      ListOpenMeans(s, s.ids);
      var i := 0;
      while i < |open|
        invariant 0 <= i <= |open|
        invariant ByBrokerId(s, ref, open) == ByBrokerId(s, ref, open[i..])
      {
        assert open[i] in open;
        if ref != "" && store.records[open[i]].brokerId == ref {
          var found := new OrderRecord.FromRecord(store.records[open[i]]);
          return Some(found);
        }
        i := i + 1;
      }
      r := None;
    }

    /** Every exit of the source, and exactly the writes of each, in order. */
    method HandleFill(ref: string, f: Fill) returns (verdict: FillVerdict)
      requires store.Valid() && f.id != ""
      modifies store, store.disk
      ensures store.Valid()
      ensures verdict == Judge(LookUp(old(store.Memory()), ref), f)
      ensures var ops := Writes(LookUp(old(store.Memory()), ref), f);
        && store.Memory() == DoAll(old(store.Memory()), ops)
        && store.disk.past == old(store.disk.past) + Images(old(store.Memory()), ops)
    {
      hide LookUp, ApplyFill, DoAll, Images, WritesOf;
      NoOps(store.Memory());
      var r := GetRecord(ref);
      if r.None? {
        return NoRecord;
      }
      var rec := r.value;
      if rec.state == Unknown {
        return RecordBlocked;
      }
      StoreIsIndexed();
      LookUpIsStored(store.Memory(), ref);
      ghost var was := rec.Snapshot();
      var booked := rec.Book(f);
      if booked.Duplicate? {
        return AlreadyApplied;
      }
      if booked.Refused? {
        return BadQuantity;
      }
      AppliedKeepsName(was, f);
      var ok := WriteFill(rec, f);
      verdict := if ok then Booked else IllegalMove;
    }

    /** The writes of a fill that the record has just taken. */
    method WriteFill(rec: OrderRecord, f: Fill) returns (ok: bool)
      requires store.Valid() && f.id != "" && rec.id in store.records
      modifies store, store.disk, rec
      ensures store.Valid()
      ensures var a := old(rec.Snapshot()); ok == Allowed(a.state, FillState(a), false)
      ensures var ops := WritesOf(old(rec.Snapshot()), f);
        && store.Memory() == DoAll(old(store.Memory()), ops)
        && store.disk.past == old(store.disk.past) + Images(old(store.Memory()), ops)
    {
      hide TradeRecorded, DeltaApplied, Saved, Images, DoAll, WellIndexed;
      ghost var s, a := store.Memory(), rec.Snapshot();
      var _ := store.RecordTrade(rec.id, f);
      TradeKeepsRecords(s, rec.id, f);
      ok := rec.Transition(if rec.qty > rec.filledQty then PartiallyFilled else Filled, false);
      ghost var ops := [OpTrade(a.id, f), OpSave(rec.Snapshot()), OpDelta(a.line, Signed(f), f.price)];
      ImagesOf(s, ops);
      if ok {
        assert WritesOf(a, f) == ops;
        var _ := store.Save(rec.Snapshot());
        store.ApplyPositionDelta(rec.line, if f.side == Buy then f.qty else -f.qty, f.price);
      } else {
        assert WritesOf(a, f) == [ops[0]];
      }
    }
  }

  lemma NoOps(s: Store)
    ensures DoAll(s, []) == s && Images(s, []) == []
  {
  }

  lemma ImagesOf(s: Store, ops: seq<Op>)
    requires |ops| == 3
    ensures DoAll(s, []) == s && DoAll(s, [ops[0]]) == Do(s, ops[0])
    ensures DoAll(s, ops) == Do(Do(Do(s, ops[0]), ops[1]), ops[2])
    ensures var t, u := Do(s, ops[0]), Do(Do(s, ops[0]), ops[1]);
      && Images(s, [ops[0]]) == (if Flushes(s, ops[0]) then [t] else [])
      && Images(s, ops) == (if Flushes(s, ops[0]) then [t] else []) + (if Flushes(t, ops[1]) then [u] else [])
                           + (if Flushes(u, ops[2]) then [Do(u, ops[2])] else [])
  {
    hide Do, Flushes;
    DoneOps(s, ops[0], ops[1], ops[2]);
    assert ops == [ops[0], ops[1], ops[2]];
    assert ops[..2] == [ops[0], ops[1]] && ops[..2][..1] == [ops[0]] && [ops[0]][..0] == [];
  }

  lemma SettledKeepsName(r: Record, early: Option<seq<BrokerOrder>>, late: Option<seq<BrokerOrder>>)
    ensures RecoverOne(r, early, late).Settled? ==> RecoverOne(r, early, late).record.id == r.id
  {
    hide MapBrokerStatus, Search;
  }

  lemma PassStart(s: Store, w: Readings)
    ensures RecoverPass(s, [], w) == Pass(s, true)
  {
  }

  lemma PassStep(s: Store, ids: seq<string>, i: nat, w: Readings)
    requires i < |ids| && RecoverPass(s, ids[..i], w).finished
    ensures var before := RecoverPass(s, ids[..i], w);
      RecoverPass(s, ids[..i + 1], w)
      == if One(s, ids[i], w).Stopped? then Pass(before.store, false)
         else Pass(Saved(before.store, One(s, ids[i], w).record), true)
  {
    assert ids[..i + 1][..i] == ids[..i];
  }

  /** A pass that has stopped stays stopped. */
  lemma {:induction false} PassPrefix(s: Store, ids: seq<string>, n: nat, w: Readings)
    requires n <= |ids|
    ensures !RecoverPass(s, ids[..n], w).finished ==> RecoverPass(s, ids, w) == RecoverPass(s, ids[..n], w)
  {
    hide One;
    if n < |ids| {
      var shorter := ids[..|ids| - 1];
      PassPrefix(s, shorter, n, w);
      assert shorter[..n] == ids[..n];
    } else {
      assert ids[..n] == ids;
    }
  }
}
