/** Durable order storage: the reference store as a value, the file-backed store as a class over a
    disk, and what a crash at any point leaves behind. */
module OrderStore {
  import opened Market
  import opened Lifecycle

  datatype Holding = Holding(quantity: int, averagePrice: real)

  /** The reference store (`InMemoryOrderStore`); dicts keep insertion order, hence `ids`. */
  datatype Store = Store(
    records: map<string, Record>, ids: seq<string>,
    trades: map<string, seq<Fill>>, tradeIds: set<string>,
    positions: map<LineKey, Holding>)

  const EMPTY := Store(map[], [], map[], {}, map[])

  function Reserved(s: Store, r: Record): Store {
    if r.id in s.records then s
    else s.(records := s.records[r.id := r], ids := s.ids + [r.id])
  }

  /** `save` raises on an id that was never reserved; the store is then unchanged. */
  function Saved(s: Store, r: Record): Store {
    if r.id in s.records then s.(records := s.records[r.id := r]) else s
  }

  function TradesFor(s: Store, id: string): seq<Fill> { if id in s.trades then s.trades[id] else [] }

  function TradeRecorded(s: Store, id: string, f: Fill): Store {
    if f.id == "" || f.id in s.tradeIds then s
    else s.(tradeIds := s.tradeIds + {f.id}, trades := s.trades[id := TradesFor(s, id) + [f]])
  }

  function HoldingOf(s: Store, line: LineKey): Holding {
    if line in s.positions then s.positions[line] else Holding(0, 0.0)
  }

  /** Buying averages into a long or flat line; a line that becomes flat forgets its average. */
  function Adjusted(h: Holding, delta: int, price: real): Holding {
    var quantity := h.quantity + delta;
    if h.quantity >= 0 && delta > 0 then
      var paid := h.averagePrice * h.quantity as real + price * delta as real;
      Holding(quantity, if quantity != 0 then paid / quantity as real else 0.0)
    else Holding(quantity, if quantity == 0 then 0.0 else h.averagePrice)
  }

  function DeltaApplied(s: Store, line: LineKey, delta: int, price: real): Store {
    s.(positions := s.positions[line := Adjusted(HoldingOf(s, line), delta, price)])
  }

  function ListOpen(s: Store, ids: seq<string>): seq<string> {
    if ids == [] then []
    else
      var rest := ListOpen(s, ids[..|ids| - 1]);
      var id := ids[|ids| - 1];
      if id in s.records && !Terminal(s.records[id].state) then rest + [id] else rest
  }

  /** The first reservation of an id wins; a save replaces what was reserved and nothing else; a trade is
      logged under its order, once per fill id. */
  lemma StoreMeans(s: Store, r: Record, id: string, f: Fill)
    ensures var t := Reserved(s, r);
      && r.id in t.records && t.records[r.id] == (if r.id in s.records then s.records[r.id] else r)
      && (forall k :: k in s.records ==> k in t.records && t.records[k] == s.records[k])
      && t.records.Keys == s.records.Keys + {r.id} && t == s.(records := t.records, ids := t.ids)
      && (r.id !in s.records ==> t.ids == s.ids + [r.id])
    ensures var t := Saved(s, r);
      && t.records.Keys == s.records.Keys && t == s.(records := t.records)
      && (r.id in s.records ==> t.records[r.id] == r)
      && (forall k :: k in s.records && k != r.id ==> t.records[k] == s.records[k])
    ensures f.id != "" ==>
      var t := TradeRecorded(s, id, f);
      && f.id in t.tradeIds && t == s.(trades := t.trades, tradeIds := t.tradeIds)
      && TradesFor(t, id) == TradesFor(s, id) + (if f.id in s.tradeIds then [] else [f])
      && (forall k :: k != id ==> TradesFor(t, k) == TradesFor(s, k))
  {
  }

  /** Quantities add up. Buying into a flat or long line that is not flat afterwards keeps the money of
      the line; selling keeps the average; a flat line has none. Other lines stay. */
  lemma DeltaMeans(s: Store, line: LineKey, delta: int, price: real)
    ensures var h, t := HoldingOf(s, line), DeltaApplied(s, line, delta, price);
      var h' := HoldingOf(t, line);
      && h'.quantity == h.quantity + delta
      && (h.quantity >= 0 && delta > 0 ==>
            h'.averagePrice * h'.quantity as real
            == h.averagePrice * h.quantity as real + price * delta as real)
      && (h'.quantity == 0 ==> h'.averagePrice == 0.0)
      && (!(h.quantity >= 0 && delta > 0) && h'.quantity != 0 ==> h'.averagePrice == h.averagePrice)
      && (forall k :: k != line ==> HoldingOf(t, k) == HoldingOf(s, k))
      && t == s.(positions := t.positions)
  {
    var h := HoldingOf(s, line);
    if h.quantity >= 0 && delta > 0 {
      var paid := h.averagePrice * h.quantity as real + price * delta as real;
      var total := (h.quantity + delta) as real;
      assert (paid / total) * total == paid;
    }
  }

  ghost predicate WellIndexed(s: Store) {
    && (forall id :: id in s.records <==> id in s.ids)
    && (forall id :: id in s.records ==> s.records[id].id == id)
    && (forall i, j :: 0 <= i < j < |s.ids| ==> s.ids[i] != s.ids[j])
  }

  lemma {:induction false} ListOpenMeans(s: Store, ids: seq<string>)
    ensures forall id :: id in ListOpen(s, ids) <==> id in ids && id in s.records && !Terminal(s.records[id].state)
  {
    if ids != [] {
      ListOpenMeans(s, ids[..|ids| - 1]);
      assert forall id :: id in ids <==> id in ids[..|ids| - 1] || id == ids[|ids| - 1];
    }
  }

  // ---------------------------------------------------------------- the file store

  datatype Image = Missing | Corrupt | Good(store: Store)

  /** The file. `past` is the ghost history of every image that was ever in place. */
  class Disk {
    var image: Image
    ghost var past: seq<Store>

    constructor ()
      ensures image == Missing && past == []
    {
      image, past := Missing, [];
    }

    /** Write a temporary file, then replace: the only durable instant is the replacement. */
    method AtomicWrite(s: Store)
      modifies this
      ensures image == Good(s) && past == old(past) + [s]
    {
      image := Good(s);
      past := past + [s];
    }
  }

  class FileOrderStore {
    const disk: Disk
    var records: map<string, Record>
    var ids: seq<string>
    var trades: map<string, seq<Fill>>
    var tradeIds: set<string>
    var positions: map<LineKey, Holding>

    function Memory(): Store
      reads this
    {
      Store(records, ids, trades, tradeIds, positions)
    }

    /** Between operations the file holds exactly what memory holds. */
    ghost predicate Valid()
      reads this, disk
    {
      && (disk.image == Good(Memory()) || (disk.image == Missing && Memory() == EMPTY))
      && WellIndexed(Memory())
    }

    constructor OnImage(disk: Disk, s: Store)
      ensures this.disk == disk && Memory() == s
    {
      this.disk := disk;
      records, ids, trades, tradeIds, positions := s.records, s.ids, s.trades, s.tradeIds, s.positions;
    }

    /** Open the store on a path; an unreadable file raises instead of reading as blank. */
    static method Open(disk: Disk) returns (r: Option<FileOrderStore>)
      ensures r.None? <==> disk.image == Corrupt
      ensures r.Some? ==> fresh(r.value) && r.value.disk == disk
      ensures r.Some? ==> r.value.Memory() == if disk.image.Good? then disk.image.store else EMPTY
    {
      if disk.image == Corrupt {
        return None;
      }
      var s := new FileOrderStore.OnImage(disk, if disk.image.Good? then disk.image.store else EMPTY);
      r := Some(s);
    }

    method Reserve(r: Record) returns (granted: bool)
      requires Valid()
      modifies this, disk
      ensures Valid()
      ensures granted == (r.id !in old(records))
      ensures Memory() == Reserved(old(Memory()), r)
      ensures disk.past == old(disk.past) + if granted then [Memory()] else []
    {
      if r.id in records {
        return false;
      }
      records := records[r.id := r];
      ids := ids + [r.id];
      disk.AtomicWrite(Memory());
      granted := true;
    }

    method Save(r: Record) returns (ok: bool)
      requires Valid()
      modifies this, disk
      ensures Valid()
      ensures ok == (r.id in old(records))
      ensures Memory() == Saved(old(Memory()), r)
      ensures disk.past == old(disk.past) + if ok then [Memory()] else []
    {
      if r.id !in records {
        return false;
      }
      records := records[r.id := r];
      disk.AtomicWrite(Memory());
      ok := true;
    }

    /** None where a fill without an id raises. */
    method RecordTrade(id: string, f: Fill) returns (first: Option<bool>)
      requires Valid()
      modifies this, disk
      ensures Valid()
      ensures first == if f.id == "" then None else Some(f.id !in old(tradeIds))
      ensures Memory() == TradeRecorded(old(Memory()), id, f)
      ensures disk.past == old(disk.past) + if first == Some(true) then [Memory()] else []
    {
      if f.id == "" {
        return None;
      }
      if f.id in tradeIds {
        return Some(false);
      }
      tradeIds := tradeIds + {f.id};
      trades := trades[id := (if id in trades then trades[id] else []) + [f]];
      disk.AtomicWrite(Memory());
      first := Some(true);
    }

    method ApplyPositionDelta(line: LineKey, delta: int, price: real)
      requires Valid()
      modifies this, disk
      ensures Valid()
      ensures Memory() == DeltaApplied(old(Memory()), line, delta, price)
      ensures disk.past == old(disk.past) + [Memory()]
    {
      var p := if line in positions then positions[line] else Holding(0, 0.0);
      positions := positions[line := Adjusted(p, delta, price)];
      disk.AtomicWrite(Memory());
    }

    method OpenIds() returns (open: seq<string>)
      requires Valid()
      ensures open == ListOpen(Memory(), ids)
    {
      open := [];
      var i := 0;
      while i < |ids|
        invariant 0 <= i <= |ids|
        invariant open == ListOpen(Memory(), ids[..i])
      {
        assert ids[..i + 1][..i] == ids[..i];
        if !Terminal(records[ids[i]].state) {
          open := open + [ids[i]];
        }
        i := i + 1;
      }
      assert ids[..|ids|] == ids;
    }
  }

  // ---------------------------------------------------------------- crash and reopen

  datatype Op =
    | OpReserve(r: Record)
    | OpSave(r: Record)
    | OpTrade(id: string, f: Fill)
    | OpDelta(line: LineKey, delta: int, price: real)

  /** The reference meaning of one operation. */
  function Do(s: Store, op: Op): Store {
    match op
    case OpReserve(r) => Reserved(s, r)
    case OpSave(r) => Saved(s, r)
    case OpTrade(id, f) => TradeRecorded(s, id, f)
    case OpDelta(line, delta, price) => DeltaApplied(s, line, delta, price)
  }

  /** Whether the operation gets as far as writing the file. */
  predicate Flushes(s: Store, op: Op) {
    match op
    case OpReserve(r) => r.id !in s.records
    case OpSave(r) => r.id in s.records
    case OpTrade(id, f) => f.id != "" && f.id !in s.tradeIds
    case OpDelta(_, _, _) => true
  }

  function DoAll(s: Store, ops: seq<Op>): Store {
    if ops == [] then s else Do(DoAll(s, ops[..|ops| - 1]), ops[|ops| - 1])
  }

  /** One event in the life of a path: an operation completes; its flush raises although memory has
      already changed; the process dies inside it, before or after the replacement; or a new
      instance opens the path. */
  datatype Event =
    | Completes(op: Op)
    | FlushRaises(op: Op)
    | DiesIn(op: Op, replaced: bool)
    | Reopens

  /** Memory (None while no process runs) and the image in place. */
  datatype Life = Life(memory: Option<Store>, image: Store)

  function After(l: Life, e: Event): Life {
    match e
    case Reopens => Life(Some(l.image), l.image)
    case Completes(op) =>
      if l.memory.None? || !Flushes(l.memory.value, op) then l
      else Life(Some(Do(l.memory.value, op)), Do(l.memory.value, op))
    case FlushRaises(op) => if l.memory.None? then l else Life(Some(Do(l.memory.value, op)), l.image)
    case DiesIn(op, replaced) =>
      if l.memory.None? then l
      else Life(None, if replaced && Flushes(l.memory.value, op) then Do(l.memory.value, op) else l.image)
  }

  function AfterAll(l: Life, es: seq<Event>): Life {
    if es == [] then l else After(AfterAll(l, es[..|es| - 1]), es[|es| - 1])
  }

  const BORN := Life(None, EMPTY)

  /** The operations a history made durable, when no flush ever raised: every completed one, and an
      interrupted one whose replacement happened. */
  function DurableOps(es: seq<Event>): seq<Op> {
    if es == [] then []
    else
      var before, alive := DurableOps(es[..|es| - 1]), AfterAll(BORN, es[..|es| - 1]).memory.Some?;
      match es[|es| - 1]
      case Completes(op) => if alive then before + [op] else before
      case DiesIn(op, replaced) => if alive && replaced then before + [op] else before
      case _ => before
  }

  /** Without flush failures, reopening at any point yields the reference store after exactly the
      durable operations, and a live instance never differs from its file. */
  lemma {:induction false} ReopenRefines(es: seq<Event>)
    requires forall i :: 0 <= i < |es| ==> !es[i].FlushRaises?
    ensures var l := AfterAll(BORN, es);
      && l.image == DoAll(EMPTY, DurableOps(es))
      && (l.memory.Some? ==> l.memory.value == l.image)
  {
    hide Do, Flushes;
    if es != [] {
      var before, e := es[..|es| - 1], es[|es| - 1];
      ReopenRefines(before);
      var l, done := AfterAll(BORN, before), DurableOps(before);
      if l.memory.Some? && (e.Completes? || e.DiesIn?) {
        QuietOp(l.memory.value, e.op);
        DoMore(EMPTY, done, e.op);
      }
    }
  }

  lemma QuietOp(s: Store, op: Op)
    ensures !Flushes(s, op) ==> Do(s, op) == s
  {
  }

  lemma DoMore(s: Store, ops: seq<Op>, op: Op)
    ensures DoAll(s, ops + [op]) == Do(DoAll(s, ops), op)
  {
    hide Do;
    assert (ops + [op])[..|ops|] == ops;
  }

  /** Whether the last event is a `reserve` that returned True. */
  predicate Grants(l: Life, e: Event, id: string) {
    l.memory.Some? && e.Completes? && e.op.OpReserve? && e.op.r.id == id && id !in l.memory.value.records
  }

  /** Whatever raises or dies in between, memory knows every id the file knows, and the file every
      id ever granted. */
  ghost predicate Remembered(es: seq<Event>) {
    var l := AfterAll(BORN, es);
    && (l.memory.Some? ==> l.image.records.Keys <= l.memory.value.records.Keys)
    && (forall i, id :: 0 <= i < |es| && Grants(AfterAll(BORN, es[..i]), es[i], id) ==> id in l.image.records)
  }

  lemma {:induction false} GrantsAreRemembered(es: seq<Event>)
    ensures Remembered(es)
  {
    if es != [] {
      var n := |es| - 1;
      GrantsAreRemembered(es[..n]);
      var l, l' := AfterAll(BORN, es[..n]), AfterAll(BORN, es);
      assert l.image.records.Keys <= l'.image.records.Keys;
      forall i, id | 0 <= i < |es| && Grants(AfterAll(BORN, es[..i]), es[i], id)
        ensures id in l'.image.records
      {
        if i < n {
          assert es[..n][..i] == es[..i] && es[..n][i] == es[i];
        }
      }
    }
  }

  /** Once `reserve` has returned True for an id, no instance on that path ever returns True for it
      again, across crashes, failed flushes and reopenings. */
  lemma NeverGrantedTwice(es: seq<Event>, i: nat, j: nat, id: string)
    requires i < j < |es|
    requires Grants(AfterAll(BORN, es[..i]), es[i], id)
    ensures !Grants(AfterAll(BORN, es[..j]), es[j], id)
  {
    GrantsAreRemembered(es[..j]);
    assert es[..j][..i] == es[..i] && es[..j][i] == es[i];
  }
}
