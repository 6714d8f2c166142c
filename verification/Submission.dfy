/** The submission protocol as a state machine: concurrent and retried submissions, a broker that may
    lose requests and answers, and a process that may die between any two waits. */
module Submission {
  import opened Market
  import opened Lifecycle
  import opened OrderManager

  // ---------------------------------------------------------------- state

  /** Where one call of `submit_order` or `emergency_flatten_all` waits. */
  datatype Pc =
    | Start | Existing
    | Reserved | Checking | Approved | ToCall
    | Waiting | Resolving | Answered(answer: Answer)
    | Over

  datatype Activation = Activation(pc: Pc, rec: Record, flatten: bool)

  /** An order the broker holds. */
  datatype Placed = Placed(tag: string, orderId: string)

  /** `mem` is the order store as the running process sees it, `disk` its file. `calls` logs every
      `place_order`; `gone` every id ever concluded to be absent from the broker's book. */
  datatype State = State(
    mem: Option<map<string, Record>>, disk: map<string, Record>, recovering: bool,
    acts: seq<Activation>,
    transit: seq<string>, book: seq<Placed>, calls: seq<string>, gone: set<string>)

  const INIT := State(None, map[], false, [], [], [], [], {})

  /** How a durable write ends: done, or raising before or after the file was replaced. */
  datatype Fate = Lands | RaisesBefore | RaisesAfter

  /** What the world decides while one activation takes one step. `reply` None is an exception. */
  datatype Choice = Choice(pass: bool, fate: Fate, reply: Option<string>, reading: Option<seq<BrokerOrder>>)

  datatype Step =
    | Begin(rec: Record, flatten: bool)
    | Advance(a: nat, choice: Choice)
    | Abandon(a: nat)
    | Update(rec: Record, fate: Fate)
    | Accepts(i: nat, orderId: string)
    | Loses(i: nat)
    | Dies
    | Opens
    | Recovers(id: string, early: Option<seq<BrokerOrder>>, late: Option<seq<BrokerOrder>>, fate: Fate)
    | Ready

  /** The order may have reached the broker: SUBMITTED or beyond. */
  predicate Sent(r: Record) { !PreSubmit(r.state) && r.state != RiskRejected }

  predicate PreCall(pc: Pc) { pc in {Reserved, Checking, Approved, ToCall} }

  predicate PostCall(pc: Pc) { pc == Waiting || pc == Resolving || pc.Answered? }

  function Tags(book: seq<Placed>): (r: seq<string>)
    ensures |r| == |book| && forall i :: 0 <= i < |book| ==> r[i] == book[i].tag
  {
    seq(|book|, i requires 0 <= i < |book| => book[i].tag)
  }

  /** A reading shows every order the broker holds, whatever statuses it reports for them. */
  predicate Faithful(reading: Option<seq<BrokerOrder>>, s: State) {
    reading.Some? ==>
      && |reading.value| == |s.book|
      && forall i :: 0 <= i < |s.book| ==>
           reading.value[i].tag == s.book[i].tag && reading.value[i].orderId == s.book[i].orderId
  }

  /** The book is only read once the fate of this id's request is decided. */
  predicate Readable(reading: Option<seq<BrokerOrder>>, s: State, id: string) {
    Faithful(reading, s) && (reading.Some? ==> id !in s.transit)
  }

  // ---------------------------------------------------------------- one activation

  /** Save a record and move on; when the write raises, the call is over. */
  function Put(s: State, a: nat, r: Record, next: Pc, fate: Fate): State
    requires a < |s.acts| && s.mem.Some?
  {
    var mem := s.mem.value[r.id := r];
    s.(mem := Some(mem), disk := if fate == RaisesBefore then s.disk else mem,
       acts := s.acts[a := s.acts[a].(rec := r, pc := if fate == Lands then next else Over)])
  }

  function Goto(s: State, a: nat, r: Record, next: Pc): State
    requires a < |s.acts|
  {
    s.(acts := s.acts[a := s.acts[a].(rec := r, pc := next)])
  }

  /** An UNKNOWN order in the same symbol and strategy blocks new submissions. */
  ghost predicate Blocked(mem: map<string, Record>, r: Record) {
    exists id :: id in mem && mem[id].state == Unknown
                 && mem[id].line.symbol == r.line.symbol && mem[id].strategy == r.strategy
  }

  /** Save a legal move; an illegal one raises and writes nothing. */
  function PutMove(s: State, a: nat, r: Record, to: OrderState, reconciled: bool, next: Pc, fate: Fate): State
    requires a < |s.acts| && s.mem.Some?
  {
    if Allowed(r.state, to, reconciled) then Put(s, a, Moved(r, to, reconciled), next, fate) else Goto(s, a, r, Over)
  }

  /** What `_resolve_unknown` does with the answer to its query; the flatten path keeps only an
      absence. */
  function Conclude(s: State, a: nat, answer: Answer, fate: Fate): State
    requires a < |s.acts| && s.mem.Some?
  {
    var r := s.acts[a].rec;
    if s.acts[a].flatten && answer != Absent then Goto(s, a, r, Over)
    else
      match answer
      case Unreadable => Put(s, a, r, Over, fate)
      case Absent =>
        var t := PutMove(s, a, r, Rejected, true, Over, fate);
        t.(gone := t.gone + {r.id})
      case Found(o) =>
        var to := MapBrokerStatus(o.status, o.filled, r.qty);
        if to == Unknown then Put(s, a, r.(brokerId := Reported(r, o).brokerId), Over, fate)
        else PutMove(s, a, Reported(r, o), to, true, Over, fate)
  }

  ghost function Walked(s: State, a: nat, c: Choice): State
    requires a < |s.acts| && s.mem.Some?
  {
    var act := s.acts[a];
    var r, mem := act.rec, s.mem.value;
    match act.pc
    case Start =>
      if r.id !in mem then Put(s, a, r, Reserved, c.fate)
      else Goto(s, a, r, if act.flatten then Over else Existing)
    case Existing =>
      if r.id in mem && mem[r.id].state == Unknown then Goto(s, a, mem[r.id], Resolving) else Goto(s, a, r, Over)
    case Reserved =>
      if act.flatten then (if PreSubmit(r.state) then Put(s, a, WalkToSubmitted(r), ToCall, c.fate) else s)
      else if Blocked(mem, r) then PutMove(s, a, r, RiskRejected, false, Over, c.fate)
      else PutMove(s, a, r, RiskCheckPending, false, Checking, c.fate)
    case Checking =>
      if c.pass then PutMove(s, a, r, RiskApproved, false, Approved, c.fate)
      else PutMove(s, a, r, RiskRejected, false, Over, c.fate)
    case Approved =>
      if c.pass then PutMove(s, a, r, Submitted, false, ToCall, c.fate)
      else PutMove(s, a, r, RiskRejected, false, Over, c.fate)
    case ToCall =>
      var t := Goto(s, a, r, Waiting);
      t.(calls := s.calls + [r.id], transit := s.transit + [r.id])
    case Waiting =>
      if c.reply.Some? && (c.reply.value != "" || act.flatten)
      then PutMove(s, a, r.(brokerId := c.reply.value), Acknowledged, false, Over, c.fate)
      else PutMove(s, a, r, Unknown, false, Resolving, c.fate)
    case Resolving =>
      if Readable(c.reading, s, r.id) then Goto(s, a, r, Answered(Query(c.reading, r))) else s
    case Answered(answer) => Conclude(s, a, answer, c.fate)
    case Over => s
  }

  // ---------------------------------------------------------------- the whole machine

  predicate Fresh(r: Record) { r.state == IntentCreated && r.history == [] && r.brokerId == "" }

  /** Monitoring, cancelling and fills on an order already submitted: they may write any record of
      its, stale or not, but not between its durable SUBMITTED and the broker call. */
  predicate MayUpdate(s: State, r: Record) {
    && s.mem.Some? && r.id in s.mem.value && Sent(s.mem.value[r.id]) && Sent(r) && LegalHistory(r)
    && forall i :: 0 <= i < |s.acts| ==> s.acts[i].pc == ToCall ==> s.acts[i].rec.id != r.id
  }

  function Saved(s: State, r: Record, fate: Fate): State
    requires s.mem.Some?
  {
    var mem := s.mem.value[r.id := r];
    s.(mem := Some(mem), disk := if fate == RaisesBefore then s.disk else mem)
  }

  function RecoverStep(s: State, id: string, early: Option<seq<BrokerOrder>>, late: Option<seq<BrokerOrder>>,
                       fate: Fate): State
    requires s.mem.Some? && id in s.mem.value
  {
    var r := s.mem.value[id];
    match RecoverOne(r, early, late)
    case Stopped => s
    case Settled(r') =>
      var t := Saved(s, r', fate);
      var absent := if Abandoned(r, early) then Query(early, r) == Absent else Query(late, r) == Absent;
      if absent then t.(gone := t.gone + {id}) else t
  }

  /** Steps that the situation does not allow change nothing. */
  ghost function Next(s: State, step: Step): State {
    match step
    case Begin(r, flatten) =>
      if s.mem.Some? && !s.recovering && Fresh(r) then s.(acts := s.acts + [Activation(Start, r, flatten)]) else s
    case Advance(a, c) => if s.mem.Some? && a < |s.acts| then Walked(s, a, c) else s
    case Abandon(a) => if a < |s.acts| then Goto(s, a, s.acts[a].rec, Over) else s
    case Update(r, fate) => if MayUpdate(s, r) then Saved(s, r, fate) else s
    case Accepts(i, orderId) =>
      if i < |s.transit| then
        s.(transit := s.transit[..i] + s.transit[i + 1..], book := s.book + [Placed(s.transit[i], orderId)])
      else s
    case Loses(i) => if i < |s.transit| then s.(transit := s.transit[..i] + s.transit[i + 1..]) else s
    case Dies => s.(mem := None, acts := [], recovering := false)
    case Opens => if s.mem.None? then s.(mem := Some(s.disk), recovering := true) else s
    case Recovers(id, early, late, fate) =>
      if s.mem.Some? && s.recovering && id in s.mem.value && !Terminal(s.mem.value[id].state)
         && Readable(early, s, id) && Readable(late, s, id)
      then RecoverStep(s, id, early, late, fate)
      else s
    case Ready => s.(recovering := false)
  }

  ghost function Reached(steps: seq<Step>): State {
    if steps == [] then INIT else Next(Reached(steps[..|steps| - 1]), steps[|steps| - 1])
  }

  // ---------------------------------------------------------------- what every run keeps

  /** Each id was called for at most once, and the broker holds or will hold only those orders, each
      of them once. */
  ghost predicate BrokerSafe(s: State) {
    && Distinct(s.calls) && Distinct(s.transit) && Distinct(Tags(s.book))
    && (forall id :: id in s.transit ==> id in s.calls && id !in Tags(s.book))
    && (forall id :: id in Tags(s.book) ==> id in s.calls)
    && (forall id :: id in s.gone ==> id !in s.transit && id !in Tags(s.book))
  }

  /** Called ids are durably SUBMITTED or beyond; a running process knows every durable id. */
  ghost predicate StoreSafe(s: State) {
    && (forall id :: id in s.calls ==> id in s.disk && Sent(s.disk[id]))
    && (forall id :: id in s.gone ==> id in s.disk)
    && (forall id :: id in s.disk ==> s.disk[id].id == id && LegalHistory(s.disk[id]))
    && (s.mem.Some? ==>
          && s.disk.Keys <= s.mem.value.Keys
          && (forall id :: id in s.mem.value ==> s.mem.value[id].id == id && LegalHistory(s.mem.value[id]))
          && (forall id :: id in s.mem.value && id !in s.disk ==> s.mem.value[id].state == IntentCreated)
          && (forall id :: id in s.calls ==> id in s.mem.value && Sent(s.mem.value[id])))
    && (s.mem.None? || s.recovering ==> s.acts == [])
    && (s.mem.Some? && s.recovering ==> s.mem.value.Keys <= s.disk.Keys)
  }

  function StateAt(pc: Pc): OrderState {
    match pc
    case Reserved => IntentCreated
    case Checking => RiskCheckPending
    case Approved => RiskApproved
    case ToCall => Submitted
    case Waiting => Submitted
    case Resolving => Unknown
    case Answered(_) => Unknown
    case _ => IntentCreated
  }

  ghost predicate ActSafe(s: State, act: Activation) {
    var id := act.rec.id;
    && (act.pc == Start ==> Fresh(act.rec))
    && (PreCall(act.pc) || PostCall(act.pc) ==>
          && s.mem.Some? && id in s.mem.value && LegalHistory(act.rec) && act.rec.state == StateAt(act.pc))
    && (PreCall(act.pc) ==> s.mem.value[id] == act.rec && id in s.disk && id !in s.calls && id !in s.gone)
    && (act.pc == ToCall ==> Sent(s.disk[id]))
    && (PostCall(act.pc) ==> Sent(s.mem.value[id]))
    && (act.pc == Answered(Absent) ==> id !in s.transit && id !in Tags(s.book))
  }

  /** One activation at most is on its way to the broker for an id, and none after the call. */
  predicate Rivals(p: Activation, q: Activation) {
    PreCall(p.pc) && (PreCall(q.pc) || PostCall(q.pc)) && p.rec.id == q.rec.id
  }

  ghost predicate ActsSafe(s: State) {
    && (forall i :: 0 <= i < |s.acts| ==> ActSafe(s, s.acts[i]))
    && (forall i, j :: 0 <= i < |s.acts| && 0 <= j < |s.acts| && i != j ==> !Rivals(s.acts[i], s.acts[j]))
  }

  ghost predicate Safe(s: State) { BrokerSafe(s) && StoreSafe(s) && ActsSafe(s) }

  // ---------------------------------------------------------------- steps of one activation

  lemma SavedKeepsStore(s: State, r: Record, fate: Fate)
    requires StoreSafe(s) && s.mem.Some? && LegalHistory(r)
    requires r.id in s.mem.value ==> r.id in s.disk && (Sent(s.mem.value[r.id]) ==> Sent(r))
    requires r.id !in s.mem.value ==> r.state == IntentCreated && !s.recovering
    ensures StoreSafe(Saved(s, r, fate))
  {
    hide LegalHistory;
  }

  lemma SavedKeepsAct(s: State, r: Record, fate: Fate, act: Activation)
    requires StoreSafe(s) && s.mem.Some? && ActSafe(s, act)
    requires act.rec.id == r.id ==> !PreCall(act.pc)
    requires r.id in s.mem.value && Sent(s.mem.value[r.id]) ==> Sent(r)
    ensures ActSafe(Saved(s, r, fate), act)
  {
    hide LegalHistory;
  }

  /** One activation moves; the rest of the state has already been shown safe for the others. */
  lemma MoveKeeps(s: State, t: State, a: nat, act: Activation)
    requires ActsSafe(s) && a < |s.acts| && t.acts == s.acts[a := act]
    requires forall i :: 0 <= i < |s.acts| && i != a ==> ActSafe(t, s.acts[i])
    requires ActSafe(t, act)
    requires forall i :: 0 <= i < |s.acts| && i != a ==> !Rivals(s.acts[i], act) && !Rivals(act, s.acts[i])
    ensures ActsSafe(t)
  {
    hide ActSafe, Rivals;
  }

  /** The activation keeps its id; it becomes a rival of nobody it was not a rival of. */
  predicate Successor(was: Activation, next: Activation) {
    && next.rec.id == was.rec.id
    && (PreCall(next.pc) ==> PreCall(was.pc))
    && (PostCall(next.pc) ==> PreCall(was.pc) || PostCall(was.pc))
  }

  lemma SuccessorsHaveNoRivals(s: State, a: nat, act: Activation)
    requires ActsSafe(s) && a < |s.acts| && Successor(s.acts[a], act)
    ensures forall i :: 0 <= i < |s.acts| && i != a ==> !Rivals(s.acts[i], act) && !Rivals(act, s.acts[i])
  {
    hide ActSafe;
    forall i | 0 <= i < |s.acts| && i != a
      ensures !Rivals(s.acts[i], act) && !Rivals(act, s.acts[i])
    {
      assert !Rivals(s.acts[i], s.acts[a]) && !Rivals(s.acts[a], s.acts[i]);
    }
  }

  /** Writes of an activation that holds its reservation, and not yet or no longer about to call. */
  lemma PutKeeps(s: State, a: nat, r: Record, next: Pc, fate: Fate)
    requires Safe(s) && s.mem.Some? && a < |s.acts| && LegalHistory(r)
    requires var act := s.acts[a];
      && (PreCall(act.pc) || PostCall(act.pc)) && act.pc != ToCall && r.id == act.rec.id
      && (PostCall(act.pc) ==> Sent(r) && (next == Over || (next == Resolving && r.state == Unknown)))
      && (PreCall(act.pc) ==> next == Over || (PreCall(next) && r.state == StateAt(next)))
    ensures Safe(Put(s, a, r, next, fate))
  {
    hide LegalHistory, BrokerSafe, StoreSafe, ActSafe, Rivals;
    var t, u := Put(s, a, r, next, fate), Saved(s, r, fate);
    var was, act := s.acts[a], t.acts[a];
    PutterIsSafe(s, was, r, next, fate);
    SavedKeepsStore(s, r, fate);
    StoreIgnoresActs(s, u, t);
    SuccessorsHaveNoRivals(s, a, act);
    forall i | 0 <= i < |s.acts| && i != a
      ensures ActSafe(t, s.acts[i])
    {
      assert !Rivals(s.acts[i], was);
      NotRival(s.acts[i], was);
      SavedKeepsAct(s, r, fate, s.acts[i]);
      SameSituation(u, t, s.acts[i]);
    }
    SameSituation(u, t, act);
    MoveKeeps(s, t, a, act);
    BrokerUntouched(s, t);
  }

  lemma NotRival(p: Activation, q: Activation)
    requires !Rivals(p, q) && (PreCall(q.pc) || PostCall(q.pc))
    ensures p.rec.id == q.rec.id ==> !PreCall(p.pc)
  {
  }

  lemma StoreIgnoresActs(s: State, u: State, t: State)
    requires StoreSafe(s) && StoreSafe(u) && t == u.(acts := t.acts) && s.acts != []
    requires u.recovering == s.recovering && u.mem.Some?
    ensures StoreSafe(t)
  {
    hide LegalHistory;
  }

  lemma PutterIsSafe(s: State, was: Activation, r: Record, next: Pc, fate: Fate)
    requires StoreSafe(s) && s.mem.Some? && ActSafe(s, was) && LegalHistory(r) && r.id == was.rec.id
    requires (PreCall(was.pc) || PostCall(was.pc)) && was.pc != ToCall
    requires PostCall(was.pc) ==> Sent(r) && (next == Over || (next == Resolving && r.state == Unknown))
    requires PreCall(was.pc) ==> next == Over || (PreCall(next) && r.state == StateAt(next))
    ensures ActSafe(Saved(s, r, fate), was.(rec := r, pc := if fate == Lands then next else Over))
    ensures r.id in s.mem.value && r.id in s.disk && (Sent(s.mem.value[r.id]) ==> Sent(r))
  {
    hide LegalHistory;
    HolderIsOnDisk(s, was);
    hide StoreSafe;
  }

  /** Whoever holds a reservation finds it in memory and on file. */
  lemma HolderIsOnDisk(s: State, act: Activation)
    requires StoreSafe(s) && s.mem.Some? && ActSafe(s, act) && (PreCall(act.pc) || PostCall(act.pc))
    ensures act.rec.id in s.mem.value && act.rec.id in s.disk
  {
    hide LegalHistory;
  }

  lemma SameSituation(s: State, t: State, act: Activation)
    requires ActSafe(s, act) && t == s.(acts := t.acts)
    ensures ActSafe(t, act)
  {
    hide LegalHistory;
  }

  lemma BrokerUntouched(s: State, t: State)
    requires BrokerSafe(s) && t.calls == s.calls && t.transit == s.transit && t.book == s.book && t.gone == s.gone
    ensures BrokerSafe(t)
  {
  }

  lemma GotoKeeps(s: State, a: nat, r: Record, next: Pc)
    requires Safe(s) && a < |s.acts| && r.id == s.acts[a].rec.id
    requires ActSafe(Goto(s, a, r, next), Activation(next, r, s.acts[a].flatten))
    requires forall i :: 0 <= i < |s.acts| && i != a ==> !Rivals(s.acts[i], Activation(next, r, s.acts[a].flatten))
    requires PreCall(next) ==> PreCall(s.acts[a].pc)
    ensures Safe(Goto(s, a, r, next))
  {
    hide LegalHistory, BrokerSafe;
    var t := Goto(s, a, r, next);
    forall i | 0 <= i < |s.acts| && i != a
      ensures ActSafe(t, s.acts[i]) && !Rivals(t.acts[a], s.acts[i])
    {
      SameSituation(s, t, s.acts[i]);
      assert !Rivals(s.acts[a], s.acts[i]);
    }
    MoveKeeps(s, t, a, t.acts[a]);
    BrokerUntouched(s, t);
  }

  /** A granted reservation: nobody else can hold the id, for it was not in the store. */
  lemma ReserveKeeps(s: State, a: nat, fate: Fate)
    requires Safe(s) && s.mem.Some? && a < |s.acts| && s.acts[a].pc == Start
    requires s.acts[a].rec.id !in s.mem.value
    ensures Safe(Put(s, a, s.acts[a].rec, Reserved, fate))
  {
    hide LegalHistory, BrokerSafe, StoreSafe;
    var r := s.acts[a].rec;
    var t, u := Put(s, a, r, Reserved, fate), Saved(s, r, fate);
    assert ActSafe(s, s.acts[a]);
    FreshIsLegal(r);
    assert !s.recovering by { ActsMeanReady(s); }
    SavedKeepsStore(s, r, fate);
    StoreIgnoresActs(s, u, t);
    NewIdIsUnused(s, r.id);
    forall i | 0 <= i < |s.acts| && i != a
      ensures ActSafe(t, s.acts[i]) && !Rivals(s.acts[i], t.acts[a]) && !Rivals(t.acts[a], s.acts[i])
    {
      assert ActSafe(s, s.acts[i]);
      SavedKeepsAct(s, r, fate, s.acts[i]);
      SameSituation(u, t, s.acts[i]);
    }
    MoveKeeps(s, t, a, t.acts[a]);
    BrokerUntouched(s, t);
  }

  lemma FreshIsLegal(r: Record)
    requires Fresh(r)
    ensures LegalHistory(r)
  {
  }

  lemma ActsMeanReady(s: State)
    requires StoreSafe(s) && s.acts != []
    ensures s.mem.Some? && !s.recovering
  {
  }

  lemma NewIdIsUnused(s: State, id: string)
    requires StoreSafe(s) && s.mem.Some? && id !in s.mem.value
    ensures id !in s.calls && id !in s.gone && id !in s.disk
  {
  }

  lemma ExistingKeeps(s: State, a: nat, c: Choice)
    requires Safe(s) && s.mem.Some? && a < |s.acts| && s.acts[a].pc in {Start, Existing}
    requires s.acts[a].pc == Start ==> s.acts[a].rec.id in s.mem.value
    ensures Safe(Walked(s, a, c))
  {
    hide LegalHistory, BrokerSafe, Conclude, PutMove, Put;
    var act := s.acts[a];
    assert ActSafe(s, act);
    forall i | 0 <= i < |s.acts|
      ensures ActSafe(s, s.acts[i])
    {
    }
    if act.pc == Existing && act.rec.id in s.mem.value && s.mem.value[act.rec.id].state == Unknown {
      GotoKeeps(s, a, s.mem.value[act.rec.id], Resolving);
    } else {
      GotoKeeps(s, a, act.rec, if act.pc == Start && !act.flatten then Existing else Over);
    }
  }

  lemma PutMoveKeeps(s: State, a: nat, r: Record, to: OrderState, reconciled: bool, next: Pc, fate: Fate)
    requires Safe(s) && s.mem.Some? && a < |s.acts| && LegalHistory(r)
    requires var act := s.acts[a];
      && (PreCall(act.pc) || PostCall(act.pc)) && act.pc != ToCall && r.id == act.rec.id
      && (PostCall(act.pc) ==>
            !PreSubmit(to) && to != RiskRejected && (next == Over || (next == Resolving && to == Unknown)))
      && (PreCall(act.pc) ==> next == Over || (PreCall(next) && to == StateAt(next)))
    ensures Safe(PutMove(s, a, r, to, reconciled, next, fate))
  {
    hide LegalHistory, Safe, Put, Goto;
    if Allowed(r.state, to, reconciled) {
      MoveIsLegal(r, to, reconciled);
      PutKeeps(s, a, Moved(r, to, reconciled), next, fate);
    } else {
      StopKeeps(s, a, r);
    }
  }

  lemma StopKeeps(s: State, a: nat, r: Record)
    requires Safe(s) && a < |s.acts| && r.id == s.acts[a].rec.id
    ensures Safe(Goto(s, a, r, Over))
  {
    hide LegalHistory, BrokerSafe, StoreSafe;
    GotoKeeps(s, a, r, Over);
  }

  lemma ScreeningKeeps(s: State, a: nat, c: Choice)
    requires Safe(s) && s.mem.Some? && a < |s.acts| && s.acts[a].pc in {Reserved, Checking, Approved}
    ensures Safe(Walked(s, a, c))
  {
    hide LegalHistory, BrokerSafe, StoreSafe, PutMove, Put, WalkToSubmitted, Blocked, Conclude;
    var act := s.acts[a];
    assert ActSafe(s, act);
    if act.pc == Reserved && act.flatten {
      WalkIsLegal(act.rec);
      PutKeeps(s, a, WalkToSubmitted(act.rec), ToCall, c.fate);
    } else if act.pc == Reserved {
      PutMoveKeeps(s, a, act.rec, RiskRejected, false, Over, c.fate);
      PutMoveKeeps(s, a, act.rec, RiskCheckPending, false, Checking, c.fate);
    } else {
      PutMoveKeeps(s, a, act.rec, RiskRejected, false, Over, c.fate);
      if act.pc == Checking {
        PutMoveKeeps(s, a, act.rec, RiskApproved, false, Approved, c.fate);
      } else {
        PutMoveKeeps(s, a, act.rec, Submitted, false, ToCall, c.fate);
      }
    }
  }

  /** The call itself: the id has never been called, and its record is durably SUBMITTED. */
  lemma CallKeeps(s: State, a: nat, c: Choice)
    requires Safe(s) && s.mem.Some? && a < |s.acts| && s.acts[a].pc == ToCall
    ensures Safe(Walked(s, a, c))
  {
    hide LegalHistory, Tags, BrokerSafe, StoreSafe;
    var act, t := s.acts[a], Walked(s, a, c);
    assert ActSafe(s, act);
    FirstCall(s, act, t);
    forall i | 0 <= i < |s.acts| && i != a
      ensures ActSafe(t, s.acts[i]) && !Rivals(s.acts[i], t.acts[a]) && !Rivals(t.acts[a], s.acts[i])
    {
      assert ActSafe(s, s.acts[i]);
      assert !Rivals(s.acts[i], act) && !Rivals(act, s.acts[i]);
    }
    assert ActSafe(t, t.acts[a]);
    MoveKeeps(s, t, a, t.acts[a]);
  }

  lemma FirstCall(s: State, act: Activation, t: State)
    requires BrokerSafe(s) && StoreSafe(s) && ActSafe(s, act) && act.pc == ToCall
    requires t == s.(acts := t.acts, calls := s.calls + [act.rec.id], transit := s.transit + [act.rec.id])
    requires s.acts != [] && s.mem.Some?
    ensures BrokerSafe(t) && StoreSafe(t)
  {
    hide LegalHistory, Tags;
  }

  lemma WaitingKeeps(s: State, a: nat, c: Choice)
    requires Safe(s) && s.mem.Some? && a < |s.acts| && s.acts[a].pc == Waiting
    ensures Safe(Walked(s, a, c))
  {
    hide LegalHistory, BrokerSafe, StoreSafe, PutMove;
    var act := s.acts[a];
    assert ActSafe(s, act);
    if c.reply.Some? {
      NamedIsLegal(act.rec, c.reply.value);
      PutMoveKeeps(s, a, act.rec.(brokerId := c.reply.value), Acknowledged, false, Over, c.fate);
    }
    PutMoveKeeps(s, a, act.rec, Unknown, false, Resolving, c.fate);
  }

  lemma NamedIsLegal(r: Record, brokerId: string)
    requires LegalHistory(r)
    ensures LegalHistory(r.(brokerId := brokerId))
  {
  }

  lemma QueryKeeps(s: State, a: nat, c: Choice)
    requires Safe(s) && s.mem.Some? && a < |s.acts| && s.acts[a].pc == Resolving
    ensures Safe(Walked(s, a, c))
  {
    hide LegalHistory, BrokerSafe, StoreSafe, Query;
    var act := s.acts[a];
    assert ActSafe(s, act);
    if Readable(c.reading, s, act.rec.id) {
      var answer := Query(c.reading, act.rec);
      if answer == Absent {
        AbsentMeansNoTag(s, c.reading, act.rec);
      }
      SuccessorsHaveNoRivals(s, a, Activation(Answered(answer), act.rec, act.flatten));
      GotoKeeps(s, a, act.rec, Answered(answer));
    }
  }

  lemma AbsentMeansNoTag(s: State, reading: Option<seq<BrokerOrder>>, r: Record)
    requires Readable(reading, s, r.id) && Query(reading, r) == Absent
    ensures r.id !in s.transit && r.id !in Tags(s.book)
  {
    SearchMeans(reading.value, r);
    assert forall i :: 0 <= i < |s.book| ==> Tags(s.book)[i] == reading.value[i].tag && !Matches(reading.value[i], r);
  }

  lemma ConcludeKeeps(s: State, a: nat, c: Choice)
    requires Safe(s) && s.mem.Some? && a < |s.acts| && s.acts[a].pc.Answered?
    ensures Safe(Walked(s, a, c))
  {
    hide LegalHistory, BrokerSafe, StoreSafe, PutMove, Put, Goto, MapBrokerStatus;
    var act := s.acts[a];
    var r, answer := act.rec, act.pc.answer;
    assert ActSafe(s, act);
    StopKeeps(s, a, r);
    match answer
    case Unreadable => PutKeeps(s, a, r, Over, c.fate);
    case Absent =>
      PutMoveKeeps(s, a, r, Rejected, true, Over, c.fate);
      GoneKeeps(s, a, c.fate);
    case Found(o) =>
      StatusNeverOptimistic(o.status, o.filled, r.qty);
      ReportedIsLegal(r, o);
      NamedIsLegal(r, Reported(r, o).brokerId);
      PutKeeps(s, a, r.(brokerId := Reported(r, o).brokerId), Over, c.fate);
      var to := MapBrokerStatus(o.status, o.filled, r.qty);
      if to != Unknown {
        PutMoveKeeps(s, a, Reported(r, o), to, true, Over, c.fate);
      }
  }

  /** An absence concluded after the call: no request is pending and nobody will call again. */
  lemma GoneKeeps(s: State, a: nat, fate: Fate)
    requires Safe(s) && s.mem.Some? && a < |s.acts| && s.acts[a].pc == Answered(Absent)
    requires var r := s.acts[a].rec;
      Safe(PutMove(s, a, r, Rejected, true, Over, fate))
    ensures var r := s.acts[a].rec;
      var t := PutMove(s, a, r, Rejected, true, Over, fate);
      Safe(t.(gone := t.gone + {r.id}))
  {
    hide LegalHistory;
    var r := s.acts[a].rec;
    var t := PutMove(s, a, r, Rejected, true, Over, fate);
    assert ActSafe(s, s.acts[a]);
    forall i | 0 <= i < |s.acts| && i != a
      ensures PreCall(s.acts[i].pc) ==> s.acts[i].rec.id != r.id
    {
      assert !Rivals(s.acts[i], s.acts[a]);
    }
    MarkGone(t, r.id);
  }

  lemma MarkGone(t: State, id: string)
    requires Safe(t) && id in t.disk && id !in t.transit && id !in Tags(t.book)
    requires forall i :: 0 <= i < |t.acts| && PreCall(t.acts[i].pc) ==> t.acts[i].rec.id != id
    ensures Safe(t.(gone := t.gone + {id}))
  {
    hide LegalHistory, Rivals;
    var u := t.(gone := t.gone + {id});
    forall i | 0 <= i < |u.acts|
      ensures ActSafe(u, u.acts[i])
    {
      assert ActSafe(t, t.acts[i]);
    }
  }

  lemma WalkedKeeps(s: State, a: nat, c: Choice)
    requires Safe(s) && s.mem.Some? && a < |s.acts|
    ensures Safe(Walked(s, a, c))
  {
    hide Safe, Put, Conclude;
    match s.acts[a].pc
    case Start =>
      if s.acts[a].rec.id !in s.mem.value {
        ReserveKeeps(s, a, c.fate);
      } else {
        ExistingKeeps(s, a, c);
      }
    case Existing => ExistingKeeps(s, a, c);
    case ToCall => CallKeeps(s, a, c);
    case Waiting => WaitingKeeps(s, a, c);
    case Resolving => QueryKeeps(s, a, c);
    case Answered(_) => ConcludeKeeps(s, a, c);
    case Over =>
    case _ => ScreeningKeeps(s, a, c);
  }

  // ---------------------------------------------------------------- the other steps

  lemma BeginKeeps(s: State, r: Record, flatten: bool)
    requires Safe(s) && s.mem.Some? && !s.recovering && Fresh(r)
    ensures Safe(s.(acts := s.acts + [Activation(Start, r, flatten)]))
  {
    hide LegalHistory;
    var t := s.(acts := s.acts + [Activation(Start, r, flatten)]);
    forall i | 0 <= i < |t.acts|
      ensures ActSafe(t, t.acts[i])
    {
      if i < |s.acts| {
        assert ActSafe(s, s.acts[i]);
      }
    }
  }

  lemma UpdateKeeps(s: State, r: Record, fate: Fate)
    requires Safe(s) && MayUpdate(s, r)
    ensures Safe(Saved(s, r, fate))
  {
    hide LegalHistory, BrokerSafe, Rivals;
    var t := Saved(s, r, fate);
    SavedKeepsStore(s, r, fate);
    forall i | 0 <= i < |s.acts|
      ensures ActSafe(t, s.acts[i])
    {
      assert ActSafe(s, s.acts[i]);
      SavedKeepsAct(s, r, fate, s.acts[i]);
    }
    BrokerUntouched(s, t);
  }

  /** The same book, or one more order at its end: the one of this request. */
  predicate Received(was: seq<Placed>, now: seq<Placed>, tag: string) {
    now == was || (|now| == |was| + 1 && now[..|was|] == was && now[|was|].tag == tag)
  }

  /** One request leaves the wire, for the book or for nowhere. */
  lemma DeliveryKeeps(s: State, i: nat, book: seq<Placed>)
    requires Safe(s) && i < |s.transit| && Received(s.book, book, s.transit[i])
    ensures Safe(s.(transit := s.transit[..i] + s.transit[i + 1..], book := book))
  {
    hide LegalHistory, Rivals, BrokerSafe;
    var t := s.(transit := s.transit[..i] + s.transit[i + 1..], book := book);
    DeliveryKeepsBroker(s, i, book);
    forall k | 0 <= k < |s.acts|
      ensures ActSafe(t, s.acts[k])
    {
      assert ActSafe(s, s.acts[k]);
    }
  }

  lemma DeliveryKeepsBroker(s: State, i: nat, book: seq<Placed>)
    requires BrokerSafe(s) && i < |s.transit| && Received(s.book, book, s.transit[i])
    ensures var t := s.(transit := s.transit[..i] + s.transit[i + 1..], book := book);
      && BrokerSafe(t)
      && (forall id :: id in t.transit || id in Tags(t.book) ==> id in s.transit || id in Tags(s.book))
  {
    var rest := s.transit[..i] + s.transit[i + 1..];
    assert forall id :: id in rest ==> id in s.transit && id != s.transit[i];
    assert forall j, k :: 0 <= j < k < |rest| ==> rest[j] != rest[k];
    var was, now := Tags(s.book), Tags(book);
    assert now == if book == s.book then was else was + [s.transit[i]];
    assert s.transit[i] in s.transit;
    assert Distinct(now) && forall id :: id in now ==> id in was || id == s.transit[i];
    hide Tags;
  }

  lemma DiesKeeps(s: State)
    requires Safe(s)
    ensures Safe(s.(mem := None, acts := [], recovering := false))
    ensures s.mem.None? ==> Safe(s.(mem := Some(s.disk), recovering := true))
    ensures Safe(s.(recovering := false))
  {
    hide LegalHistory, Rivals;
    forall i | 0 <= i < |s.acts|
      ensures ActSafe(s.(recovering := false), s.acts[i])
    {
      assert ActSafe(s, s.acts[i]);
    }
  }

  /** Recovery runs before any submission; what it writes keeps every sent order sent. */
  lemma RecoverKeeps(s: State, id: string, early: Option<seq<BrokerOrder>>, late: Option<seq<BrokerOrder>>, fate: Fate)
    requires Safe(s) && s.mem.Some? && s.recovering && id in s.mem.value && !Terminal(s.mem.value[id].state)
    requires Readable(early, s, id) && Readable(late, s, id)
    ensures Safe(RecoverStep(s, id, early, late, fate))
  {
    hide LegalHistory, BrokerSafe, RecoverOne, Query, MapBrokerStatus;
    var r := s.mem.value[id];
    RecoveryVerdict(r, early, late);
    if RecoverOne(r, early, late).Settled? {
      var r' := RecoverOne(r, early, late).record;
      SentStaysSent(r, early, late);
      SavedKeepsStore(s, r', fate);
      var t := Saved(s, r', fate);
      BrokerUntouched(s, t);
      if Abandoned(r, early) && Query(early, r) == Absent {
        AbsentMeansNoTag(s, early, r);
        MarkGone(t, id);
      } else if !Abandoned(r, early) && Query(late, r) == Absent {
        AbsentMeansNoTag(s, late, r);
        MarkGone(t, id);
      }
    }
  }

  lemma SentStaysSent(r: Record, early: Option<seq<BrokerOrder>>, late: Option<seq<BrokerOrder>>)
    requires LegalHistory(r) && !Terminal(r.state) && RecoverOne(r, early, late).Settled?
    ensures Sent(r) ==> Sent(RecoverOne(r, early, late).record)
  {
    hide LegalHistory, RecoverOne, Query, MapBrokerStatus;
    RecoveryVerdict(r, early, late);
    var answer := Query(late, r);
    if answer.Found? {
      StatusNeverOptimistic(answer.order.status, answer.order.filled, r.qty);
    }
  }

  lemma StepKeepsSafe(s: State, step: Step)
    requires Safe(s)
    ensures Safe(Next(s, step))
  {
    hide Safe, Walked, RecoverStep, Saved, MayUpdate, Readable, Fresh;
    match step
    case Begin(r, flatten) => if s.mem.Some? && !s.recovering && Fresh(r) { BeginKeeps(s, r, flatten); }
    case Advance(a, c) => if s.mem.Some? && a < |s.acts| { WalkedKeeps(s, a, c); }
    case Abandon(a) => if a < |s.acts| { StopKeeps(s, a, s.acts[a].rec); }
    case Update(r, fate) => if MayUpdate(s, r) { UpdateKeeps(s, r, fate); }
    case Accepts(i, orderId) => if i < |s.transit| { DeliveryKeeps(s, i, s.book + [Placed(s.transit[i], orderId)]); }
    case Loses(i) => if i < |s.transit| { DeliveryKeeps(s, i, s.book); }
    case Recovers(id, early, late, fate) =>
      if s.mem.Some? && s.recovering && id in s.mem.value && !Terminal(s.mem.value[id].state)
         && Readable(early, s, id) && Readable(late, s, id) {
        RecoverKeeps(s, id, early, late, fate);
      }
    case _ => DiesKeeps(s);
  }

  /** Every run, whatever interleaving, loss, write failure or death. */
  lemma {:induction false} RunsAreSafe(steps: seq<Step>)
    ensures Safe(Reached(steps))
  {
    hide Safe, Next;
    if steps != [] {
      RunsAreSafe(steps[..|steps| - 1]);
      StepKeepsSafe(Reached(steps[..|steps| - 1]), steps[|steps| - 1]);
    } else {
      InitIsSafe();
    }
  }

  lemma InitIsSafe()
    ensures Safe(INIT)
  {
  }

  // ---------------------------------------------------------------- what it means

  /** `place_order` is called at most once per id, and the broker holds at most one order for it. */
  lemma OneCallPerIntent(steps: seq<Step>, i: nat, j: nat)
    ensures var s := Reached(steps);
      && (i < j < |s.calls| ==> s.calls[i] != s.calls[j])
      && (i < j < |s.book| ==> s.book[i].tag != s.book[j].tag)
      && (i < |s.book| ==> s.book[i].tag in s.calls && s.book[i].tag !in s.transit)
  {
    hide Reached, StoreSafe, ActsSafe;
    RunsAreSafe(steps);
    var s := Reached(steps);
    assert forall k :: 0 <= k < |s.book| ==> Tags(s.book)[k] in Tags(s.book);
  }

  /** Whatever the broker holds, or may yet hold, is on file at SUBMITTED or beyond, on a legal path
      that left UNKNOWN only when reconciled; a record on file as never sent was never called for. */
  lemma DurableBeforeBroker(steps: seq<Step>, id: string)
    ensures var s := Reached(steps);
      && (id in s.calls || id in s.transit || (exists i :: 0 <= i < |s.book| && s.book[i].tag == id)
          ==> id in s.disk && Sent(s.disk[id]))
      && (id in s.disk ==> LegalHistory(s.disk[id]))
      && (id in s.disk && !Sent(s.disk[id]) ==> id !in s.calls)
  {
    hide Reached, ActsSafe, LegalHistory;
    RunsAreSafe(steps);
    var s := Reached(steps);
    assert forall k :: 0 <= k < |s.book| ==> Tags(s.book)[k] in Tags(s.book);
  }

  /** Once an order is concluded absent, by a submission or by recovery, it never appears later. */
  lemma AbsentStaysAbsent(steps: seq<Step>, more: seq<Step>, id: string)
    requires id in Reached(steps).gone
    ensures id !in Reached(steps + more).transit
    ensures forall i :: 0 <= i < |Reached(steps + more).book| ==> Reached(steps + more).book[i].tag != id
  {
    hide Reached, StoreSafe, ActsSafe;
    RunsAreSafe(steps + more);
    GoneGrows(steps, more);
    var s := Reached(steps + more);
    assert forall k :: 0 <= k < |s.book| ==> Tags(s.book)[k] in Tags(s.book);
  }

  lemma {:induction false} GoneGrows(steps: seq<Step>, more: seq<Step>)
    ensures Reached(steps).gone <= Reached(steps + more).gone
  {
    hide Next;
    if more == [] {
      assert steps + more == steps;
    } else {
      var n := |more| - 1;
      GoneGrows(steps, more[..n]);
      assert (steps + more)[..|steps| + n] == steps + more[..n];
      StepKeepsGone(Reached(steps + more[..n]), more[n]);
    }
  }

  lemma StepKeepsGone(s: State, step: Step)
    ensures s.gone <= Next(s, step).gone
  {
    hide Query, MapBrokerStatus, RecoverOne, WalkToSubmitted, Blocked, Readable, MayUpdate;
  }

  /** While an UNKNOWN order is on file for the same symbol and strategy, a new intent is refused on
      the spot and nothing is sent for it. */
  lemma BlockedIsRefused(s: State, a: nat, c: Choice, other: string)
    requires Safe(s) && s.mem.Some? && a < |s.acts| && s.acts[a].pc == Reserved && !s.acts[a].flatten
    requires other in s.mem.value && s.mem.value[other].state == Unknown
    requires s.mem.value[other].line.symbol == s.acts[a].rec.line.symbol
             && s.mem.value[other].strategy == s.acts[a].rec.strategy
    ensures var t := Next(s, Advance(a, c));
      && a < |t.acts| && t.acts[a].pc == Over && t.calls == s.calls
      && t.mem.Some? && s.acts[a].rec.id in t.mem.value && t.mem.value[s.acts[a].rec.id].state == RiskRejected
  {
    hide LegalHistory, BrokerSafe, StoreSafe;
    assert ActSafe(s, s.acts[a]);
    assert Blocked(s.mem.value, s.acts[a].rec);
  }

  // ---------------------------------------------------------------- what each outcome leaves behind

  /** What is on file for an id. */
  predicate OnFile(s: State, id: string, state: OrderState) {
    id in s.disk && s.disk[id].state == state && s.mem.Some? && id in s.mem.value && s.mem.value[id] == s.disk[id]
  }

  /** And only then: with no such order the intent goes on to its checks. */
  lemma UnblockedIsChecked(s: State, a: nat, c: Choice)
    requires Safe(s) && s.mem.Some? && a < |s.acts| && s.acts[a].pc == Reserved && !s.acts[a].flatten
    requires c.fate == Lands
    requires forall other :: other in s.mem.value && s.mem.value[other].state == Unknown ==>
      s.mem.value[other].line.symbol != s.acts[a].rec.line.symbol
      || s.mem.value[other].strategy != s.acts[a].rec.strategy
    ensures var t := Next(s, Advance(a, c));
      a < |t.acts| && t.acts[a].pc == Checking && OnFile(t, s.acts[a].rec.id, RiskCheckPending) && t.calls == s.calls
  {
    hide LegalHistory, BrokerSafe, StoreSafe;
    assert ActSafe(s, s.acts[a]);
  }

  /** Gates that refuse close the order for good, and nothing is sent. */
  lemma RefusedGates(s: State, a: nat, c: Choice)
    requires Safe(s) && s.mem.Some? && a < |s.acts| && s.acts[a].pc in {Checking, Approved}
    requires !c.pass && c.fate == Lands
    ensures var t := Next(s, Advance(a, c));
      && a < |t.acts| && t.acts[a].pc == Over && OnFile(t, s.acts[a].rec.id, RiskRejected)
      && t.calls == s.calls && t.transit == s.transit
  {
    hide LegalHistory, BrokerSafe, StoreSafe, Blocked;
    assert ActSafe(s, s.acts[a]);
  }

  /** An order id is an acknowledgement; an exception, or an empty id, is no outcome at all: the order is
      on file as UNKNOWN before anybody asks, and nothing is sent again. */
  lemma BrokerReplies(s: State, a: nat, c: Choice)
    requires Safe(s) && s.mem.Some? && a < |s.acts| && s.acts[a].pc == Waiting && c.fate == Lands
    ensures var id, t := s.acts[a].rec.id, Next(s, Advance(a, c));
      && t.calls == s.calls && t.transit == s.transit && a < |t.acts|
      && if c.reply.Some? && (c.reply.value != "" || s.acts[a].flatten)
         then t.acts[a].pc == Over && OnFile(t, id, Acknowledged) && t.disk[id].brokerId == c.reply.value
         else t.acts[a].pc == Resolving && OnFile(t, id, Unknown)
  {
    hide LegalHistory, BrokerSafe, StoreSafe, Blocked;
    assert ActSafe(s, s.acts[a]);
  }

  /** What a query concludes. Only a readable book moves the order out of UNKNOWN: to REJECTED when it is
      absent, else to what the broker reports, with its quantity and order id; a report the states do not
      provide for raises and leaves everything as it was. */
  predicate ConcludedAs(s: State, t: State, a: nat, r: Record, answer: Answer) {
    && a < |t.acts| && t.acts[a].pc == Over && t.calls == s.calls && t.transit == s.transit
    && match answer
       case Unreadable => OnFile(t, r.id, Unknown)
       case Absent => OnFile(t, r.id, Rejected) && r.id in t.gone
       case Found(o) =>
         var verdict := MapBrokerStatus(o.status, o.filled, r.qty);
         if verdict == Unknown then OnFile(t, r.id, Unknown) && t.disk[r.id].filledQty == r.filledQty
         else if verdict in {Submitted, CancelPending} then t.mem == s.mem && t.disk == s.disk
         else OnFile(t, r.id, verdict) && TakenFrom(r, o, t.disk[r.id])
  }

  lemma QueryConcludes(s: State, a: nat, c: Choice)
    requires Safe(s) && s.mem.Some? && a < |s.acts| && s.acts[a].pc.Answered? && !s.acts[a].flatten
    requires c.fate == Lands
    ensures ConcludedAs(s, Next(s, Advance(a, c)), a, s.acts[a].rec, s.acts[a].pc.answer)
  {
    hide LegalHistory, BrokerSafe, StoreSafe, Blocked, MapBrokerStatus, Conclude, ConcludedAs;
    var act := s.acts[a];
    assert ActSafe(s, act);
    if act.pc.answer.Found? {
      FoundConcludes(s, a, act.pc.answer.order);
    } else {
      NothingFoundConcludes(s, a, act.pc.answer);
    }
  }

  lemma NothingFoundConcludes(s: State, a: nat, answer: Answer)
    requires s.mem.Some? && a < |s.acts| && s.acts[a].rec.state == Unknown && !s.acts[a].flatten && !answer.Found?
    ensures ConcludedAs(s, Conclude(s, a, answer, Lands), a, s.acts[a].rec, answer)
  {
  }

  lemma FoundConcludes(s: State, a: nat, o: BrokerOrder)
    requires s.mem.Some? && a < |s.acts| && s.acts[a].rec.state == Unknown && !s.acts[a].flatten
    ensures ConcludedAs(s, Conclude(s, a, Found(o), Lands), a, s.acts[a].rec, Found(o))
  {
    hide MapBrokerStatus, Put, OnFile;
    var r := s.acts[a].rec;
    StatusNeverOptimistic(o.status, o.filled, r.qty);
    var to := MapBrokerStatus(o.status, o.filled, r.qty);
    if to == Unknown {
      PutLands(s, a, r.(brokerId := Reported(r, o).brokerId), Over);
    } else if Allowed(Unknown, to, true) {
      PutLands(s, a, Moved(Reported(r, o), to, true), Over);
    }
  }

  lemma PutLands(s: State, a: nat, r: Record, next: Pc)
    requires a < |s.acts| && s.mem.Some?
    ensures var t := Put(s, a, r, next, Lands);
      && OnFile(t, r.id, r.state) && t.disk[r.id] == r && t.acts[a].pc == next
      && |t.acts| == |s.acts| && t.calls == s.calls && t.transit == s.transit
  {
  }

  /** A retry writes nothing and sends nothing; it asks the broker exactly when the order is UNKNOWN. */
  lemma RetrySendsNothing(s: State, a: nat, c: Choice)
    requires s.mem.Some? && a < |s.acts| && s.acts[a].rec.id in s.mem.value
    requires s.acts[a].pc == Existing || (s.acts[a].pc == Start && !s.acts[a].flatten)
    ensures var t := Next(s, Advance(a, c));
      && t == s.(acts := t.acts) && a < |t.acts|
      && (s.acts[a].pc == Start ==> t.acts[a].pc == Existing)
      && (s.acts[a].pc == Existing ==>
            t.acts[a].pc == if s.mem.value[s.acts[a].rec.id].state == Unknown then Resolving else Over)
  {
    hide Blocked, Conclude;
  }

  // ---------------------------------------------------------------- an order that gets through

  const GO := Choice(true, Lands, None, None)

  /** The steps of one undisturbed submission, and the broker's acceptance. */
  function Undisturbed(r: Record, orderId: string): seq<Step> {
    [Opens, Ready, Begin(r, false), Advance(0, GO), Advance(0, GO), Advance(0, GO), Advance(0, GO), Advance(0, GO),
     Accepts(0, orderId), Advance(0, GO.(reply := Some(orderId)))]
  }

  lemma Then(steps: seq<Step>, step: Step)
    ensures Reached(steps + [step]) == Next(Reached(steps), step)
  {
    hide Next;
    assert (steps + [step])[..|steps|] == steps;
  }

  /** Undisturbed, an intent reaches the broker once and is on file as acknowledged under its order id. */
  lemma OrderGetsThrough(r: Record, orderId: string)
    requires Fresh(r) && orderId != ""
    ensures var s := Reached(Undisturbed(r, orderId));
      && s.calls == [r.id] && s.transit == [] && s.book == [Placed(r.id, orderId)]
      && OnFile(s, r.id, Acknowledged) && s.disk[r.id].brokerId == orderId
  {
    hide Reached, Next, OnFile, Standing, Moved;
    var go, sent := Advance(0, GO), Undisturbed(r, orderId)[..7];
    SubmittedIsReached(r);
    assert sent == [Opens, Ready, Begin(r, false), go, go, go, go];
    var r3 := Gate(Gate(Gate(r)));
    LastSteps(r3, orderId);
    Then(sent, go);
    Then(sent + [go], Accepts(0, orderId));
    Then(sent + [go] + [Accepts(0, orderId)], Advance(0, GO.(reply := Some(orderId))));
    assert sent + [go] + [Accepts(0, orderId)] + [Advance(0, GO.(reply := Some(orderId)))] == Undisturbed(r, orderId);
  }

  /** The record past its next gate. */
  function Gate(r: Record): (next: Record)
    requires r.state in {IntentCreated, RiskCheckPending, RiskApproved}
    ensures next.id == r.id
    ensures next.state == match r.state
                          case IntentCreated => RiskCheckPending
                          case RiskCheckPending => RiskApproved
                          case _ => Submitted
  {
    Moved(r, if r.state == IntentCreated then RiskCheckPending
             else if r.state == RiskCheckPending then RiskApproved else Submitted, false)
  }

  lemma SubmittedIsReached(r: Record)
    requires Fresh(r)
    ensures var go, r3 := Advance(0, GO), Gate(Gate(Gate(r)));
      && r3.state == Submitted && r3.id == r.id
      && Reached([Opens, Ready, Begin(r, false), go, go, go, go]) == Standing(r3, ToCall)
  {
    hide Reached, Next, Standing;
    var go, begun := Advance(0, GO), [Opens, Ready, Begin(r, false)];
    BegunIsReached(r);
    Gated(r, Reached(begun), r, Start, r, Reserved);
    Then(begun, go);
    Gated(r, Standing(r, Reserved), r, Reserved, Gate(r), Checking);
    Then(begun + [go], go);
    Gated(r, Standing(Gate(r), Checking), Gate(r), Checking, Gate(Gate(r)), Approved);
    Then(begun + [go] + [go], go);
    Gated(r, Standing(Gate(Gate(r)), Approved), Gate(Gate(r)), Approved, Gate(Gate(Gate(r))), ToCall);
    Then(begun + [go] + [go] + [go], go);
    assert begun + [go] + [go] + [go] + [go] == [Opens, Ready, Begin(r, false), go, go, go, go];
  }

  lemma NothingReached()
    ensures Reached([]) == INIT
  {
  }

  lemma BegunIsReached(r: Record)
    requires Fresh(r)
    ensures Reached([Opens, Ready, Begin(r, false)])
         == State(Some(map[]), map[], false, [Activation(Start, r, false)], [], [], [], {})
  {
    hide Next, Reached;
    assert Reached([]) == INIT by { NothingReached(); }
    Then([], Opens);
    Then([Opens], Ready);
    Then([Opens, Ready], Begin(r, false));
    assert [] + [Opens] == [Opens] && [Opens] + [Ready] == [Opens, Ready];
    assert [Opens, Ready] + [Begin(r, false)] == [Opens, Ready, Begin(r, false)];
    FirstSteps(r);
  }

  /** One order on file, its submission standing at this point. */
  function Standing(r: Record, pc: Pc): State {
    State(Some(map[r.id := r]), map[r.id := r], false, [Activation(pc, r, false)], [], [], [], {})
  }

  lemma FirstSteps(r: Record)
    requires Fresh(r)
    ensures Next(Next(Next(INIT, Opens), Ready), Begin(r, false))
         == State(Some(map[]), map[], false, [Activation(Start, r, false)], [], [], [], {})
  {
    assert [] + [Activation(Start, r, false)] == [Activation(Start, r, false)];
  }

  /** The steps up to the durable SUBMITTED. */
  lemma Gated(r0: Record, s: State, r: Record, pc: Pc, r': Record, next: Pc)
    requires Fresh(r0) && r.id == r0.id
    requires if pc == Start then s == State(Some(map[]), map[], false, [Activation(Start, r, false)], [], [], [], {})
                                 && r' == r == r0 && next == Reserved
             else s == Standing(r, pc)
    requires pc == Reserved ==> r == r0 && r' == Moved(r, RiskCheckPending, false) && next == Checking
    requires pc == Checking ==> r.state == RiskCheckPending && r' == Moved(r, RiskApproved, false) && next == Approved
    requires pc == Approved ==> r.state == RiskApproved && r' == Moved(r, Submitted, false) && next == ToCall
    requires pc in {Start, Reserved, Checking, Approved}
    ensures Next(s, Advance(0, GO)) == Standing(r', next)
  {
    assert map[r.id := r][r.id := r'] == map[r.id := r'];
    assert map[][r.id := r'] == map[r.id := r'];
  }

  lemma LastSteps(r: Record, orderId: string)
    requires r.state == Submitted && orderId != ""
    ensures var waiting := Next(Standing(r, ToCall), Advance(0, GO));
      var accepted := Next(waiting, Accepts(0, orderId));
      var s := Next(accepted, Advance(0, GO.(reply := Some(orderId))));
      && s.calls == [r.id] && s.transit == [] && s.book == [Placed(r.id, orderId)]
      && OnFile(s, r.id, Acknowledged) && s.disk[r.id].brokerId == orderId
  {
    var waiting := Next(Standing(r, ToCall), Advance(0, GO));
    assert waiting.transit == [r.id] && waiting.calls == [r.id] && waiting.acts[0].pc == Waiting;
    var accepted := Next(waiting, Accepts(0, orderId));
    assert accepted.book == [Placed(r.id, orderId)] && accepted.transit == [];
  }
}
