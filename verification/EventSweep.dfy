// The reader thread's sweep discipline over several devices, and what it buys:
// events of all devices come out in one global order.
module EventSweep {
  import opened EventQueue

  /** An event in a device buffer; not every event is dispatched to the queue. */
  datatype Raw = Raw(time: nat, kind: Kind, wanted: bool)

  /** Sweeping(start, left): the devices with index left and above are done, left - 1 is being read. */
  datatype Phase = Resting | Sweeping(start: nat, left: nat)

  /** data numbers the pushes; log is what has been pushed since the last reset was taken, floor its first
    * number, and popped what the consumer got since then. */
  datatype State = State(queue: Queue, devices: seq<seq<Raw>>, clock: nat, phase: Phase,
                         arrivals: nat, floor: nat, log: seq<Event>, popped: seq<Event>)

  datatype Step =
    | Happens(device: nat, kind: Kind, wanted: bool)
    | Tick(us: nat)
    | BeginSweep
    | Sweep
    | Pop(kind: Kind)
    | TakeReset
    | GiveUp

  /** One pushed event, stamped with its number. */
  function Deliver(s: State, raw: Raw): State {
    var e := Event(raw.time, raw.kind, s.arrivals);
    s.(queue := Pushed(s.queue, e), arrivals := s.arrivals + 1, log := s.log + [e])
  }

  /** One read of the sweep: a device is done when it is empty or has given an event not older than the start. */
  function Sweeps(s: State): State
    requires s.phase.Sweeping? && s.phase.left <= |s.devices|
  {
    var start, left := s.phase.start, s.phase.left;
    if left == 0 then s.(queue := s.queue.(bounded := true, before := start), phase := Resting)
    else
      var buffer := s.devices[left - 1];
      if buffer == [] then s.(phase := Sweeping(start, left - 1))
      else
        var t := s.(devices := s.devices[left - 1 := buffer[1..]],
                    phase := if buffer[0].time >= start then Sweeping(start, left - 1) else s.phase);
        if buffer[0].wanted then Deliver(t, buffer[0]) else t
  }

  function Apply(s: State, step: Step): State {
    match step
    case Happens(d, kind, wanted) =>
      if d < |s.devices| then s.(devices := s.devices[d := s.devices[d] + [Raw(s.clock, kind, wanted)]]) else s
    case Tick(us) => s.(clock := s.clock + us)
    case BeginSweep => if s.phase.Resting? then s.(phase := Sweeping(s.clock, |s.devices|)) else s
    case Sweep => if s.phase.Sweeping? && s.phase.left <= |s.devices| then Sweeps(s) else s
    case Pop(kind) =>
      if s.phase.Resting? && Pops(s.queue, kind)
      then s.(queue := s.queue.(items := s.queue.items[1..]), popped := s.popped + [s.queue.items[0]]) else s
    case TakeReset =>
      if s.phase.Resting? && s.queue.reset
      then s.(queue := s.queue.(reset := false), popped := [], log := [], floor := s.arrivals) else s
    case GiveUp => if s.phase.Resting? then s.(queue := s.queue.(items := [], reset := true)) else s
  }

  function Run(s: State, steps: seq<Step>): State {
    if steps == [] then s else Apply(Run(s, steps[..|steps| - 1]), steps[|steps| - 1])
  }

  predicate Init(s: State) {
    && s.queue == Queue([], false, true, 0) && s.phase.Resting? && s.arrivals == 0 && s.floor == 0
    && s.log == [] && s.popped == [] && forall d :: 0 <= d < |s.devices| ==> s.devices[d] == []
  }

  // ------------------------------------------------------------- invariant

  /** Earlier in time, or pushed earlier at the same time. */
  predicate Older(a: Event, b: Event) {
    a.time < b.time || (a.time == b.time && a.data < b.data)
  }

  predicate Ordered(events: seq<Event>) {
    forall i, j :: 0 <= i < j < |events| ==> Older(events[i], events[j])
  }

  /** What is still in device d's buffer is not older than its part of the bound. */
  function Bound(s: State, d: nat): nat {
    if s.phase.Sweeping? && d >= s.phase.left then s.phase.start else s.queue.before
  }

  predicate BufferOk(buffer: seq<Raw>, low: nat, clock: nat) {
    && (forall i :: 0 <= i < |buffer| ==> low <= buffer[i].time <= clock)
    && (forall i, j :: 0 <= i < j < |buffer| ==> buffer[i].time <= buffer[j].time)
  }

  predicate Numbered(s: State, events: seq<Event>) {
    forall i :: 0 <= i < |events| ==> s.floor <= events[i].data < s.arrivals
  }

  predicate DevicesOk(s: State) {
    && s.queue.bounded && s.queue.before <= s.clock
    && (s.phase.Sweeping? ==> s.queue.before <= s.phase.start <= s.clock && s.phase.left <= |s.devices|)
    && forall d :: 0 <= d < |s.devices| ==> BufferOk(s.devices[d], Bound(s, d), s.clock)
  }

  predicate QueueOk(s: State) {
    && s.floor <= s.arrivals
    && Ordered(s.popped + s.queue.items) && Numbered(s, s.popped) && Numbered(s, s.queue.items)
    && (forall i :: 0 <= i < |s.popped| ==> s.popped[i].time < s.queue.before)
    && (if s.queue.reset then s.queue.items == [] else multiset(s.popped + s.queue.items) == multiset(s.log))
  }

  predicate Inv(s: State) {
    DevicesOk(s) && QueueOk(s)
  }

  lemma OrderedParts(popped: seq<Event>, items: seq<Event>)
    requires Ordered(popped + items)
    ensures Ordered(popped) && Ordered(items) && TimeOrdered(items)
  {
    var all := popped + items;
    forall i, j | 0 <= i < j < |items| ensures Older(items[i], items[j]) {
      assert Older(all[|popped| + i], all[|popped| + j]);
    }
    forall i, j | 0 <= i < j < |popped| ensures Older(popped[i], popped[j]) {
      assert Older(all[i], all[j]);
    }
  }

  lemma OrderedInsertion(all: seq<Event>, at: nat, e: Event)
    requires Ordered(all) && at <= |all|
    requires forall i :: 0 <= i < at ==> Older(all[i], e)
    requires forall i :: at <= i < |all| ==> Older(e, all[i])
    ensures Ordered(all[..at] + [e] + all[at..])
  {
    hide Older;
    var after := all[..at] + [e] + all[at..];
    forall i, j | 0 <= i < j < |after| ensures Older(after[i], after[j]) {
      if i == at {
        assert after[j] == all[j - 1];
      } else if j == at {
        assert after[i] == all[i];
      } else {
        var a, b := if i < at then i else i - 1, if j < at then j else j - 1;
        assert after[i] == all[a] && after[j] == all[b];
        assert Older(all[a], all[b]);
      }
    }
  }

  lemma {:induction false} InsertContents(items: seq<Event>, e: Event)
    ensures multiset(Insert(items, e)) == multiset(items) + multiset{e}
    decreases |items|
  {
    if items != [] {
      var n := |items| - 1;
      assert items == items[..n] + [items[n]];
      InsertContents(items[..n], e);
    }
  }

  /** An event newer than everything popped and numbered after everything queued keeps the order. */
  lemma InsertKeepsOrder(popped: seq<Event>, items: seq<Event>, e: Event)
    requires Ordered(popped + items)
    requires forall i :: 0 <= i < |popped| ==> popped[i].time < e.time
    requires forall i :: 0 <= i < |items| ==> items[i].data < e.data
    ensures Ordered(popped + Insert(items, e))
  {
    OrderedParts(popped, items);
    var k := InsertPlace(items, e);
    hide Insert, Ordered;
    var all := popped + items;
    InsertOlder(popped, items, e, k);
    OrderedInsertion(all, |popped| + k, e);
    assert popped + Insert(items, e) == all[..|popped| + k] + [e] + all[|popped| + k..];
  }

  lemma InsertOlder(popped: seq<Event>, items: seq<Event>, e: Event, k: nat)
    requires Between(items, e, k)
    requires forall i :: 0 <= i < |popped| ==> popped[i].time < e.time
    requires forall i :: 0 <= i < |items| ==> items[i].data < e.data
    ensures var all, at := popped + items, |popped| + k;
            && (forall i :: 0 <= i < at ==> Older(all[i], e))
            && (forall i :: at <= i < |all| ==> Older(e, all[i]))
  {
  }

  lemma InsertNumbered(s: State, e: Event)
    requires Numbered(s, s.queue.items) && e.data == s.arrivals && s.floor <= s.arrivals
    ensures forall i :: 0 <= i <= |s.queue.items| ==> s.floor <= Insert(s.queue.items, e)[i].data <= s.arrivals
  {
    InsertContents(s.queue.items, e);
    var r := Insert(s.queue.items, e);
    hide Insert;
    forall i | 0 <= i < |r| ensures s.floor <= r[i].data <= s.arrivals {
      assert r[i] in multiset(r);
      assert r[i] == e || r[i] in s.queue.items;
    }
  }

  lemma DeliverOk(s: State, raw: Raw)
    requires QueueOk(s) && raw.time >= s.queue.before
    ensures QueueOk(Deliver(s, raw))
  {
    var e := Event(raw.time, raw.kind, s.arrivals);
    if !s.queue.reset && |s.queue.items| < CAPACITY {
      InsertKeepsOrder(s.popped, s.queue.items, e);
      InsertNumbered(s, e);
      InsertContents(s.queue.items, e);
    } else {
      OrderedParts(s.popped, s.queue.items);
      assert s.popped + [] == s.popped;
    }
    hide Insert, Ordered;
  }

  lemma SweepsOk(s: State)
    requires Inv(s) && s.phase.Sweeping?
    ensures Inv(Sweeps(s))
  {
    var left := s.phase.left;
    hide QueueOk, Sweeps, BufferOk;
    if left > 0 && s.devices[left - 1] != [] {
      ReadDevices(s);
      ReadQueue(s);
    } else {
      MoveOn(s);
      MoveQueue(s);
    }
  }

  lemma MoveQueue(s: State)
    requires Inv(s) && s.phase.Sweeping? && (s.phase.left == 0 || s.devices[s.phase.left - 1] == [])
    ensures QueueOk(Sweeps(s))
  {
    hide Ordered, BufferOk;
  }

  lemma ReadQueue(s: State)
    requires Inv(s) && s.phase.Sweeping? && s.phase.left > 0 && s.devices[s.phase.left - 1] != []
    ensures QueueOk(Sweeps(s))
  {
    var at := s.phase.left - 1;
    var raw := s.devices[at][0];
    assert BufferOk(s.devices[at], Bound(s, at), s.clock);
    var t := s.(devices := s.devices[at := s.devices[at][1..]],
                phase := if raw.time >= s.phase.start then Sweeping(s.phase.start, at) else s.phase);
    assert Sweeps(s) == if raw.wanted then Deliver(t, raw) else t;
    hide DevicesOk, Ordered, Insert, Sweeps;
    assert QueueOk(t);
    if raw.wanted { DeliverOk(t, raw); }
  }

  /** Reading one event leaves every buffer within its bound. */
  lemma ReadDevices(s: State)
    requires DevicesOk(s) && s.phase.Sweeping? && s.phase.left > 0 && s.devices[s.phase.left - 1] != []
    ensures DevicesOk(Sweeps(s))
  {
    var t, at := Sweeps(s), s.phase.left - 1;
    forall d | 0 <= d < |t.devices| ensures BufferOk(t.devices[d], Bound(t, d), t.clock) {
      assert BufferOk(s.devices[d], Bound(s, d), s.clock);
    }
  }

  lemma MoveOn(s: State)
    requires DevicesOk(s) && s.phase.Sweeping? && (s.phase.left == 0 || s.devices[s.phase.left - 1] == [])
    ensures DevicesOk(Sweeps(s))
  {
    var t := Sweeps(s);
    forall d | 0 <= d < |t.devices| ensures BufferOk(t.devices[d], Bound(t, d), t.clock) {
      assert BufferOk(s.devices[d], Bound(s, d), s.clock);
    }
  }

  lemma DevicesStay(s: State, t: State)
    requires DevicesOk(s) && |t.devices| == |s.devices| && t.queue.bounded && t.queue.before == s.queue.before
    requires s.clock <= t.clock
      && (t.phase == s.phase || (s.phase.Resting? && t.phase == Sweeping(s.clock, |s.devices|)))
    requires forall d :: 0 <= d < |s.devices| ==>
               t.devices[d] == s.devices[d]
               || (exists raw :: t.devices[d] == s.devices[d] + [raw] && raw.time == s.clock)
    ensures DevicesOk(t)
  {
    forall d | 0 <= d < |t.devices| ensures BufferOk(t.devices[d], Bound(t, d), t.clock) {
      assert BufferOk(s.devices[d], Bound(s, d), s.clock);
    }
  }

  lemma PopOk(s: State, kind: Kind)
    requires Inv(s) && s.phase.Resting? && Pops(s.queue, kind)
    ensures Inv(Apply(s, Pop(kind)))
  {
    PopsHead(s.queue, kind);
    var items := s.queue.items;
    assert items == [items[0]] + items[1..];
    assert s.popped + [items[0]] + items[1..] == s.popped + items;
    DevicesStay(s, Apply(s, Pop(kind)));
    hide DevicesOk, Ordered;
  }

  lemma ApplyOk(s: State, step: Step)
    requires Inv(s)
    ensures Inv(Apply(s, step))
  {
    match step {
      case Sweep => hide Sweeps, DevicesOk, QueueOk; SweepStepOk(s);
      case Pop(kind) => if s.phase.Resting? && Pops(s.queue, kind) { hide Inv; PopOk(s, kind); }
      case _ => OtherOk(s, step);
    }
  }

  lemma SweepStepOk(s: State)
    requires Inv(s)
    ensures Inv(Apply(s, Sweep))
  {
    hide Sweeps, QueueOk;
    if s.phase.Sweeping? { SweepsOk(s); }
  }

  lemma OtherOk(s: State, step: Step)
    requires Inv(s) && !step.Sweep? && !step.Pop?
    ensures Inv(Apply(s, step))
  {
    DevicesStay(s, Apply(s, step));
    assert s.popped + [] == s.popped;
    OrderedParts(s.popped, s.queue.items);
    hide DevicesOk, Ordered;
    assert Ordered([]);
  }

  lemma {:induction false} RunOk(s: State, steps: seq<Step>)
    requires Init(s)
    ensures Inv(Run(s, steps))
    decreases |steps|
  {
    hide Apply, Inv;
    if steps == [] {
      InitOk(s);
    } else {
      RunOk(s, steps[..|steps| - 1]);
      ApplyOk(Run(s, steps[..|steps| - 1]), steps[|steps| - 1]);
    }
  }

  lemma InitOk(s: State)
    requires Init(s)
    ensures Inv(s)
  {
  }

  /** In every run, with any number of devices: between two resets events come out in one order of time,
    * ties in the order they were read, none from before the reset, and, until history is lost, none
    * missing and none twice. */
  lemma GloballyOrdered(s: State, steps: seq<Step>)
    requires Init(s)
    ensures var t := Run(s, steps);
            && Ordered(t.popped) && Numbered(t, t.popped)
            && (!t.queue.reset ==> multiset(t.popped) + multiset(t.queue.items) == multiset(t.log))
  {
    RunOk(s, steps);
    var t := Run(s, steps);
    hide Run, DevicesOk;
    OrderedParts(t.popped, t.queue.items);
  }
}
