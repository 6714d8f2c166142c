/** The order lifecycle: states, declared transitions, broker vocabulary, and the order record. */
module Lifecycle {
  import opened Market
  import opened Text

  datatype OrderState =
    | IntentCreated | RiskCheckPending | RiskApproved | RiskRejected
    | Submitted | Acknowledged | PartiallyFilled | Filled
    | CancelPending | Cancelled | Rejected | Expired | Unknown

  predicate Terminal(s: OrderState) { s in {RiskRejected, Filled, Cancelled, Rejected, Expired} }

  /** Never sent to a broker yet. */
  predicate PreSubmit(s: OrderState) { s in {IntentCreated, RiskCheckPending, RiskApproved} }

  function Legal(s: OrderState): set<OrderState> {
    match s
    case IntentCreated => {RiskCheckPending, RiskRejected}
    case RiskCheckPending => {RiskApproved, RiskRejected}
    case RiskApproved => {Submitted, RiskRejected, Cancelled}
    case Submitted => {Acknowledged, PartiallyFilled, Filled, Rejected, Cancelled, Expired, Unknown}
    case Acknowledged => {PartiallyFilled, Filled, CancelPending, Cancelled, Rejected, Expired, Unknown}
    case PartiallyFilled => {PartiallyFilled, Filled, CancelPending, Cancelled, Expired, Unknown}
    case CancelPending => {Cancelled, Filled, PartiallyFilled, Rejected, Unknown}
    case Unknown => {Acknowledged, PartiallyFilled, Filled, Cancelled, Rejected, Expired}
    case _ => {}
  }

  /** `assert_transition` lets this pass. */
  predicate Allowed(from: OrderState, to: OrderState, reconciled: bool) {
    !Terminal(from) && to in Legal(from) && (from == Unknown ==> reconciled)
  }

  // ---------------------------------------------------------------- broker vocabulary

  function StatusWord(word: string): Option<OrderState> {
    if word == "COMPLETE" then Some(Filled)
    else if word == "CANCELLED" then Some(Cancelled)
    else if word == "REJECTED" then Some(Rejected)
    else if word == "OPEN" then Some(Acknowledged)
    else if word == "TRIGGER PENDING" then Some(Acknowledged)
    else if word == "AMO REQ RECEIVED" then Some(Acknowledged)
    else if word == "VALIDATION PENDING" then Some(Submitted)
    else if word == "PUT ORDER REQ RECEIVED" then Some(Submitted)
    else if word == "OPEN PENDING" then Some(Submitted)
    else if word == "MODIFY PENDING" then Some(Acknowledged)
    else if word == "CANCEL PENDING" then Some(CancelPending)
    else if word == "EXPIRED" then Some(Expired)
    else if word == "PARTIAL" then Some(PartiallyFilled)
    else if word == "PARTIALLY FILLED" then Some(PartiallyFilled)
    else if word == "PARTIALLY_FILLED" then Some(PartiallyFilled)
    else None
  }

  /** A missing or unrecognised status is Unknown, never a success. */
  function MapBrokerStatus(status: Option<string>, filledQty: int, orderQty: int): OrderState {
    if status.None? || Strip(status.value) == "" then Unknown
    else
      var state := StatusWord(Upper(Strip(status.value)));
      if state.None? then Unknown
      else if state.value == Acknowledged && filledQty > 0 then PartiallyFilled
      else if state.value == Filled && 0 < orderQty && 0 < filledQty < orderQty then PartiallyFilled
      else state.value
  }

  /** The broker vocabulary never produces a pre-submit state, and FILLED is read only from a
      COMPLETE whose reported quantity is not a proper part of the order. */
  lemma StatusNeverOptimistic(status: Option<string>, filledQty: int, orderQty: int)
    ensures var s := MapBrokerStatus(status, filledQty, orderQty);
      && !PreSubmit(s) && s != RiskRejected
      && (s == Filled <==> status.Some? && Upper(Strip(status.value)) == "COMPLETE"
                           && !(0 < filledQty < orderQty))
  {
    if status.Some? && Strip(status.value) == "" {
      assert |Upper(Strip(status.value))| == 0;
    }
  }

  /** Which words read as which state: every one of the fifteen, and nothing else. */
  lemma StatusMeans(status: Option<string>, filledQty: int, orderQty: int)
    ensures var s := MapBrokerStatus(status, filledQty, orderQty);
      var word := if status.Some? then Upper(Strip(status.value)) else "";
      var working := word in {"OPEN", "TRIGGER PENDING", "AMO REQ RECEIVED", "MODIFY PENDING"};
      && (s == Cancelled <==> word == "CANCELLED") && (s == Rejected <==> word == "REJECTED")
      && (s == Expired <==> word == "EXPIRED") && (s == CancelPending <==> word == "CANCEL PENDING")
      && (s == Submitted <==> word in {"VALIDATION PENDING", "PUT ORDER REQ RECEIVED", "OPEN PENDING"})
      && (s == Acknowledged <==> working && filledQty <= 0)
      && (s == PartiallyFilled <==>
            || word in {"PARTIAL", "PARTIALLY FILLED", "PARTIALLY_FILLED"}
            || (working && filledQty > 0) || (word == "COMPLETE" && 0 < filledQty < orderQty))
      && (s == Filled <==> word == "COMPLETE" && !(0 < filledQty < orderQty))
  {
    if status.Some? {
      EmptyStaysEmpty(Strip(status.value));
    }
  }

  lemma EmptyStaysEmpty(s: string)
    ensures Upper(s) == "" <==> s == ""
  {
    assert |Upper(s)| == |s|;
  }

  /** An order that is closed without ever being sent was refused, or cancelled once approved; a sent one
      closes under any other name; and from every open state it can close. */
  lemma WhereOrdersClose(from: OrderState, reconciled: bool)
    requires !Terminal(from) && (from == Unknown ==> reconciled)
    ensures PreSubmit(from) ==> forall to :: Terminal(to) ==>
      (Allowed(from, to, reconciled) <==> to == RiskRejected || (from == RiskApproved && to == Cancelled))
    ensures !PreSubmit(from) ==> forall to :: Terminal(to) ==>
      (Allowed(from, to, reconciled) <==>
         && to != RiskRejected
         && !(from == PartiallyFilled && to == Rejected) && !(from == CancelPending && to == Expired))
    ensures from != RiskApproved ==> !Allowed(from, Submitted, reconciled)
    ensures Allowed(from, Unknown, reconciled) <==> !PreSubmit(from) && from != Unknown
  {
  }

  // ---------------------------------------------------------------- records

  datatype Hop = Hop(from: OrderState, to: OrderState, reconciled: bool)

  datatype Fill = Fill(id: string, qty: int, price: real, side: Side)

  datatype LineKey = LineKey(exchange: string, symbol: string, product: string)

  /** What `to_json` stores. Notes, reasons and timestamps are not part of this model. */
  datatype Record = Record(
    id: string, line: LineKey, side: Side, qty: int, strategy: string,
    state: OrderState, brokerId: string, filledQty: int, avgPrice: real,
    history: seq<Hop>, applied: seq<string>)
  {
    function Remaining(): int { if qty > filledQty then qty - filledQty else 0 }
  }

  function Moved(r: Record, to: OrderState, reconciled: bool): Record
    requires Allowed(r.state, to, reconciled)
  {
    r.(history := r.history + [Hop(r.state, to, reconciled)], state := to)
  }

  /** The history is one legal path from INTENT_CREATED to the current state. */
  predicate LegalHistory(r: Record) {
    && (forall i :: 0 <= i < |r.history| ==> Allowed(r.history[i].from, r.history[i].to, r.history[i].reconciled))
    && (forall i :: 0 <= i < |r.history| - 1 ==> r.history[i].to == r.history[i + 1].from)
    && (if r.history == [] then r.state == IntentCreated
        else r.history[0].from == IntentCreated && r.history[|r.history| - 1].to == r.state)
  }

  lemma MovedKeepsHistory(r: Record, to: OrderState, reconciled: bool)
    requires LegalHistory(r) && Allowed(r.state, to, reconciled)
    ensures LegalHistory(Moved(r, to, reconciled))
  {
  }

  /** What a legal history means: a terminal state is never left, and UNKNOWN is left only by
      reconciliation. */
  lemma HistoryDiscipline(r: Record, i: nat)
    requires LegalHistory(r) && i < |r.history|
    ensures r.history[i].from == Unknown ==> r.history[i].reconciled
    ensures Terminal(r.history[i].to) ==> i == |r.history| - 1 && r.state == r.history[i].to
  {
    if i < |r.history| - 1 {
      assert r.history[i + 1].from == r.history[i].to;
      assert Allowed(r.history[i + 1].from, r.history[i + 1].to, r.history[i + 1].reconciled);
    }
  }

  /** An order that was ever sent to a broker passed through SUBMITTED. */
  lemma {:induction false} PastSubmission(r: Record)
    requires LegalHistory(r) && !PreSubmit(r.state) && r.state != RiskRejected
    ensures r.state == Cancelled || exists i :: 0 <= i < |r.history| && r.history[i].to == Submitted
    decreases |r.history|
  {
    var n := |r.history| - 1;
    var last := r.history[n];
    if r.state != Submitted {
      if !PreSubmit(last.from) {
        var shorter := r.(history := r.history[..n], state := last.from);
        HistoryPrefix(r);
        PastSubmission(shorter);
        if last.from != Cancelled {
          var i :| 0 <= i < n && shorter.history[i].to == Submitted;
          assert r.history[i].to == Submitted;
        }
      }
    }
  }

  lemma HistoryPrefix(r: Record)
    requires LegalHistory(r) && r.history != []
    ensures var n := |r.history| - 1; LegalHistory(r.(history := r.history[..n], state := r.history[n].from))
  {
  }

  // ---------------------------------------------------------------- fills

  datatype FillOutcome = Duplicate | Refused | Applied(record: Record)

  function ApplyFill(r: Record, f: Fill): FillOutcome {
    if f.id in r.applied then Duplicate
    else if f.qty <= 0 || r.filledQty + f.qty > r.qty then Refused
    else
      var total := r.filledQty + f.qty;
      var notional := r.avgPrice * r.filledQty as real + f.price * f.qty as real;
      Applied(r.(filledQty := total, avgPrice := if total != 0 then notional / total as real else 0.0,
                 applied := r.applied + [f.id]))
  }

  /** A fill is taken exactly when it is new, positive and fits; then the record grows by it. */
  lemma FillIsTakenWhen(r: Record, f: Fill)
    ensures ApplyFill(r, f).Duplicate? <==> f.id in r.applied
    ensures ApplyFill(r, f).Applied? <==> f.id !in r.applied && 0 < f.qty <= r.qty - r.filledQty
    ensures ApplyFill(r, f).Applied? ==>
      var a := ApplyFill(r, f).record;
      && a == r.(filledQty := r.filledQty + f.qty, applied := r.applied + [f.id], avgPrice := a.avgPrice)
      && (a.filledQty != 0 ==>
            a.avgPrice * a.filledQty as real == r.avgPrice * r.filledQty as real + f.price * f.qty as real)
  {
    if ApplyFill(r, f).Applied? && r.filledQty + f.qty != 0 {
      var notional := r.avgPrice * r.filledQty as real + f.price * f.qty as real;
      var total := (r.filledQty + f.qty) as real;
      assert (notional / total) * total == notional;
    }
  }

  function Shares(log: seq<Fill>): int {
    if log == [] then 0 else Shares(log[..|log| - 1]) + log[|log| - 1].qty
  }

  function Value(log: seq<Fill>): real {
    if log == [] then 0.0
    else Value(log[..|log| - 1]) + log[|log| - 1].price * log[|log| - 1].qty as real
  }

  /** The record accounts for exactly these fills, each of them once. */
  ghost predicate Tally(r: Record, log: seq<Fill>) {
    && |r.applied| == |log| && (forall i :: 0 <= i < |log| ==> r.applied[i] == log[i].id && log[i].qty > 0)
    && (forall i, j :: 0 <= i < j < |log| ==> log[i].id != log[j].id)
    && r.filledQty == Shares(log)
    && r.avgPrice * r.filledQty as real == Value(log)
    && 0 <= r.filledQty && (log != [] ==> r.filledQty <= r.qty)
  }

  lemma ApplyFillTally(r: Record, f: Fill, log: seq<Fill>)
    requires Tally(r, log) && ApplyFill(r, f).Applied?
    ensures Tally(ApplyFill(r, f).record, log + [f])
  {
    var r' := ApplyFill(r, f).record;
    assert (log + [f])[..|log|] == log;
    var notional := r.avgPrice * r.filledQty as real + f.price * f.qty as real;
    var total := r'.filledQty as real;
    assert (notional / total) * total == notional;
    forall i | 0 <= i < |log|
      ensures log[i].id != f.id
    {
      assert r.applied[i] == log[i].id;
    }
  }

  // ---------------------------------------------------------------- the mutable record

  class OrderRecord {
    const id: string
    const line: LineKey
    const side: Side
    const qty: int
    const strategy: string
    var state: OrderState
    var brokerId: string
    var filledQty: int
    var avgPrice: real
    var history: seq<Hop>
    var applied: seq<string>

    function Snapshot(): Record
      reads this
    {
      Record(id, line, side, qty, strategy, state, brokerId, filledQty, avgPrice, history, applied)
    }

    constructor FromRecord(r: Record)
      ensures Snapshot() == r
    {
      id, line, side, qty, strategy := r.id, r.line, r.side, r.qty, r.strategy;
      state, brokerId, filledQty, avgPrice := r.state, r.brokerId, r.filledQty, r.avgPrice;
      history, applied := r.history, r.applied;
    }

    /** False where the source raises: nothing changes then. */
    method Transition(to: OrderState, reconciled: bool) returns (ok: bool)
      modifies this
      ensures ok == Allowed(old(state), to, reconciled)
      ensures Snapshot() == if ok then Moved(old(Snapshot()), to, reconciled) else old(Snapshot())
      ensures old(LegalHistory(Snapshot())) ==> LegalHistory(Snapshot())
    {
      if Terminal(state) || to !in Legal(state) || (state == Unknown && !reconciled) {
        return false;
      }
      history := history + [Hop(state, to, reconciled)];
      state := to;
      ok := true;
    }

    method Book(f: Fill) returns (outcome: FillOutcome)
      modifies this
      ensures outcome == ApplyFill(old(Snapshot()), f)
      ensures Snapshot() == if outcome.Applied? then outcome.record else old(Snapshot())
    {
      if f.id in applied {
        return Duplicate;
      }
      var total := filledQty + f.qty;
      if f.qty <= 0 || total > qty {
        return Refused;
      }
      var notional := avgPrice * filledQty as real + f.price * f.qty as real;
      filledQty := total;
      avgPrice := if total != 0 then notional / total as real else 0.0;
      applied := applied + [f.id];
      outcome := Applied(Snapshot());
    }
  }
}
