// The evdev event queue: a circular table kept in time order by insertion, a
// publication bound, and a reset that voids everything after an overflow.
module EventQueue {

  const CAPACITY := 1024

  datatype Kind = NoEvent | Mouse | Keyboard | Reset

  datatype Event = Event(time: nat, kind: Kind, data: nat)

  /** The queue as a value. */
  datatype Queue = Queue(items: seq<Event>, reset: bool, bounded: bool, before: nat)

  /** Behind every event that is not newer. */
  function Insert(items: seq<Event>, e: Event): (r: seq<Event>)
    ensures |r| == |items| + 1
    decreases |items|
  {
    if items == [] then [e]
    else
      var n := |items| - 1;
      if items[n].time <= e.time then items + [e] else Insert(items[..n], e) + [items[n]]
  }

  function Pushed(q: Queue, e: Event): Queue {
    if q.reset then q
    else if |q.items| >= CAPACITY then q.(items := [], reset := true)
    else q.(items := Insert(q.items, e))
  }

  function NextKind(q: Queue): Kind {
    if q.reset then Reset
    else if q.items == [] || (q.bounded && q.items[0].time >= q.before) then NoEvent
    else q.items[0].kind
  }

  /** What a pop of the given kind finds. */
  predicate Pops(q: Queue, kind: Kind) {
    kind != NoEvent && kind != Reset && NextKind(q) == kind
  }

  lemma PopsHead(q: Queue, kind: Kind)
    requires Pops(q, kind)
    ensures q.items != [] && !q.reset && q.items[0].kind == kind && (q.bounded ==> q.items[0].time < q.before)
  {
  }

  predicate TimeOrdered(items: seq<Event>) {
    forall i, j :: 0 <= i < j < |items| ==> items[i].time <= items[j].time
  }

  predicate Between(items: seq<Event>, e: Event, k: nat) {
    && k <= |items|
    && (forall i :: 0 <= i < k ==> items[i].time <= e.time)
    && (forall i :: k <= i < |items| ==> e.time < items[i].time)
  }

  /** The insertion puts e at one place, behind everything not newer and before everything newer. */
  lemma {:induction false} InsertPlace(items: seq<Event>, e: Event) returns (k: nat)
    requires TimeOrdered(items)
    ensures Between(items, e, k) && Insert(items, e) == items[..k] + [e] + items[k..]
    decreases |items|
  {
    var n := |items| - 1;
    if items == [] || items[n].time <= e.time {
      k := |items|;
      assert items[..k] == items && items[k..] == [];
    } else {
      k := InsertPlace(items[..n], e);
      assert items[k..] == items[..n][k..] + [items[n]];
      assert items[..k] == items[..n][..k];
      assert Between(items, e, k);
    }
  }

  lemma InsertOrdered(items: seq<Event>, e: Event)
    requires TimeOrdered(items)
    ensures TimeOrdered(Insert(items, e))
  {
    var k := InsertPlace(items, e);
    hide Insert;
  }

  function Cell(head: nat, i: nat): (r: nat)
    ensures r < CAPACITY
  {
    (head + i) % CAPACITY
  }

  lemma CellsApart(head: nat, i: nat, j: nat)
    requires i < j < i + CAPACITY
    ensures Cell(head, i) != Cell(head, j)
  {
    var a, b := head + i, head + j;
    var q := b / CAPACITY - a / CAPACITY;
    assert b - a == q * CAPACITY + (b % CAPACITY - a % CAPACITY);
  }

  /** The events from head on, round the table. */
  function Row(table: seq<Event>, head: nat, count: nat): (r: seq<Event>)
    requires |table| == CAPACITY
    ensures |r| == count
  {
    seq(count, i requires 0 <= i < count => table[Cell(head, i)])
  }

  /** The table holds items with one free cell at position pos, the later ones moved up. */
  predicate Gap(table: seq<Event>, head: nat, items: seq<Event>, pos: nat) {
    && |table| == CAPACITY && pos <= |items| < CAPACITY
    && (forall i :: 0 <= i < pos ==> table[Cell(head, i)] == items[i])
    && (forall i :: pos < i <= |items| ==> table[Cell(head, i)] == items[i - 1])
  }

  lemma OtherCell(head: nat, count: nat, pos: nat)
    requires pos <= count < CAPACITY
    ensures forall i :: 0 <= i <= count && i != pos ==> Cell(head, i) != Cell(head, pos)
  {
    forall i | 0 <= i <= count && i != pos ensures Cell(head, i) != Cell(head, pos) {
      if i < pos { CellsApart(head, i, pos); } else { CellsApart(head, pos, i); }
    }
  }

  lemma GapMoves(table: seq<Event>, head: nat, items: seq<Event>, pos: nat)
    requires Gap(table, head, items, pos) && pos > 0
    ensures Gap(table[Cell(head, pos) := table[Cell(head, pos - 1)]], head, items, pos - 1)
  {
    OtherCell(head, |items|, pos);
    hide Cell;
  }

  lemma GapFills(table: seq<Event>, head: nat, items: seq<Event>, pos: nat, e: Event)
    requires Gap(table, head, items, pos)
    ensures Row(table[Cell(head, pos) := e], head, |items| + 1) == items[..pos] + [e] + items[pos..]
  {
    OtherCell(head, |items|, pos);
    hide Cell;
  }

  class EventRing {
    const events: array<Event>
    var head: nat
    var count: nat
    var resetPending: bool
    var bounded: bool
    var before: nat

    ghost predicate Valid()
      reads this
    {
      events.Length == CAPACITY && head < CAPACITY && count <= CAPACITY
    }

    ghost function Items(): (r: seq<Event>)
      requires Valid()
      reads this, events
      ensures |r| == count
    {
      Row(events[..], head, count)
    }

    ghost function Value(): Queue
      requires Valid()
      reads this, events
    {
      Queue(Items(), resetPending, bounded, before)
    }

    constructor ()
      ensures Valid() && fresh(events) && Value() == Queue([], false, true, 0)
    {
      events := new Event[CAPACITY](_ => Event(0, NoEvent, 0));
      head, count, resetPending, bounded, before := 0, 0, false, true, 0;
    }

    method PublishBefore(time: nat)
      requires Valid()
      modifies this`bounded, this`before
      ensures Valid() && Value() == old(Value()).(bounded := true, before := time)
    {
      bounded := true;
      before := time;
    }

    method ResetQueue()
      requires Valid()
      modifies this`head, this`count, this`resetPending
      ensures Valid() && Value() == old(Value()).(items := [], reset := true)
    {
      head, count, resetPending := 0, 0, true;
    }

    method Push(e: Event)
      requires Valid()
      modifies this`head, this`count, this`resetPending, events
      ensures Valid() && Value() == Pushed(old(Value()), e)
    {
      if resetPending { return; }
      if count == CAPACITY {
        ResetQueue();
        return;
      }
      InsertShift(e);
    }

    /** The in-place insertion: newer events move up one cell each until e has its place. */
    method InsertShift(e: Event)
      requires Valid() && count < CAPACITY
      modifies this`count, events
      ensures Valid() && Items() == Insert(old(Items()), e)
    {
      hide Cell, Row;
      ghost var items := Items();
      var pos: nat := count;
      RowGap(events[..], head, count);
      assert items[..count] == items && items[count..] == [];
      while pos > 0
        invariant pos <= count == |items| && head == old(head) && Valid() && Gap(events[..], head, items, pos)
        invariant Insert(items, e) == Insert(items[..pos], e) + items[pos..]
      {
        var prev := Cell(head, pos - 1);
        if events[prev].time <= e.time { break; }
        Shifted(items, e, pos);
        GapMoves(events[..], head, items, pos);
        events[Cell(head, pos)] := events[prev];
        pos := pos - 1;
      }
      InsertHere(items[..pos], e);
      ghost var table := events[..];
      GapFills(table, head, items, pos, e);
      events[Cell(head, pos)] := e;
      assert events[..] == table[Cell(head, pos) := e];
      count := count + 1;
    }

    method GetNextKind() returns (kind: Kind)
      requires Valid()
      ensures kind == NextKind(Value())
    {
      if resetPending { return Reset; }
      if count == 0 { return NoEvent; }
      assert Items()[0] == events[Cell(head, 0)] == events[head];
      if bounded && events[head].time >= before { return NoEvent; }
      return events[head].kind;
    }

    method Pop(kind: Kind) returns (ok: bool, e: Event)
      requires Valid()
      modifies this`head, this`count
      ensures Valid() && ok == Pops(old(Value()), kind)
      ensures ok ==> e == old(Value()).items[0] && Value() == old(Value()).(items := old(Value()).items[1..])
      ensures !ok ==> Value() == old(Value())
    {
      e := Event(0, NoEvent, 0);
      if kind == NoEvent || kind == Reset { return false, e; }
      var next := GetNextKind();
      if next != kind { return false, e; }
      ghost var items := Items();
      PopsHead(Value(), kind);
      assert items[0] == events[Cell(head, 0)] == events[head];
      e := events[head];
      Following(head, count);
      head := (head + 1) % CAPACITY;
      count := count - 1;
      assert Items() == items[1..];
      ok := true;
    }

    method TakeReset() returns (pending: bool)
      requires Valid()
      modifies this`resetPending
      ensures Valid() && pending == old(resetPending) && Value() == old(Value()).(reset := false)
    {
      pending := resetPending;
      resetPending := false;
    }
  }

  lemma RowGap(table: seq<Event>, head: nat, count: nat)
    requires |table| == CAPACITY && count < CAPACITY
    ensures Gap(table, head, Row(table, head, count), count)
  {
  }

  lemma InsertHere(items: seq<Event>, e: Event)
    requires items == [] || items[|items| - 1].time <= e.time
    ensures Insert(items, e) == items + [e]
  {
  }

  lemma Shifted(items: seq<Event>, e: Event, pos: nat)
    requires 0 < pos <= |items| && items[pos - 1].time > e.time
    ensures Insert(items[..pos], e) + items[pos..] == Insert(items[..pos - 1], e) + items[pos - 1..]
  {
    assert items[..pos][..pos - 1] == items[..pos - 1];
    assert items[pos - 1..] == [items[pos - 1]] + items[pos..];
  }

  lemma Following(head: nat, count: nat)
    requires head < CAPACITY
    ensures var next := (head + 1) % CAPACITY; forall i :: 0 <= i < count ==> Cell(next, i) == Cell(head, i + 1)
  {
  }
}
