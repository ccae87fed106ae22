// The camera worker against everything that may happen to the shared state
// between two of its locked sections.
module CaptureTenure {
  import opened Bytes
  import opened Capture

  /** The worker's own variables; stream is the queue of the open camera stream. */
  datatype Worker = Worker(running: bool, active: Option<Target>, stream: Option<seq<Picture>>, physical: bool)

  /** withdrawn marks a reconfiguration between its withdrawal and its new profile. */
  datatype State = State(c: Shared, worker: Worker, withdrawn: bool)

  datatype Step =
    | Foreground(slot: Option<nat>, answers: seq<bool>)
    | Session(i: nat, session: Option<nat>, camera: bool, audio: bool, taken: bool, again: bool)
    | Start(i: nat, generation: nat, width: nat, height: nat, fps: nat, taken: bool)
    | Stop(i: nat, generation: nat)
    | Request(i: nat, generation: nat)
    | AudioOn(i: nat, generation: nat, frames: nat)
    | AudioOff(i: nat, generation: nat)
    | Halt
    | Exit(taken: bool)
    | WithdrawAll
    | Apply(profile: Profile, started: bool)
    | Destroy(answers: seq<bool>)
    | Top(taken: bool)
    | Forget
    | Probe(present: bool)
    | Open
    | Close
    | Drop(taken: bool)
    | Ingest(data: nat, restart: bool, keep: bool)
    | SubmitOne(taken: bool, failed: bool)

  const IDLE := Worker(false, None, None, false)

  predicate SameTarget(a: Option<Target>, b: Option<Target>) {
    a.Some? == b.Some?
    && (a.Some? ==> a.value.slot == b.value.slot && a.value.generation == b.value.generation
                    && a.value.stateGen == b.value.stateGen && a.value.epoch == b.value.epoch)
  }

  function Retarget(c: Shared, w: Worker): Worker
    requires Shape(c)
  {
    if SameTarget(Search(c, 0), w.active) then w else w.(active := Search(c, 0), stream := None)
  }

  function LoopTop(s: State, taken: bool): State
    requires Shape(s.c)
  {
    var w := s.worker;
    var c := if !SameTarget(Search(s.c, 0), w.active) && w.active.Some?
             then FailCredit(s.c, w.active.value.slot, w.active.value.generation, taken) else s.c;
    s.(c := SetPhysical(c, w.physical), worker := Retarget(s.c, w))
  }

  function ExitWorker(s: State, taken: bool): State
    requires Shape(s.c)
  {
    var w := s.worker;
    var c := if w.active.Some? then FailCredit(s.c, w.active.value.slot, w.active.value.generation, taken) else s.c;
    s.(c := SetPhysical(c, false), worker := IDLE)
  }

  function Ingested(s: State, data: nat, restart: bool, keep: bool): State
    requires Shape(s.c) && s.worker.active.Some? && s.worker.stream.Some? && s.worker.active.value.slot < SLOTS
  {
    var queue := if restart then [] else s.worker.stream.value;
    var picture := Picture(data, Now(s.c, s.worker.active.value.slot));
    s.(worker := s.worker.(stream := Some(if keep then queue + [picture] else queue)))
  }

  function SubmitStep(s: State, taken: bool, failed: bool): State
    requires Shape(s.c) && s.worker.active.Some? && s.worker.stream.Some?
  {
    var (c, rest, ok) := SubmitQueued(s.c, s.worker.active.value, s.worker.stream.value, taken, failed);
    s.(c := c, worker := s.worker.(stream := if ok then Some(rest) else None))
  }

  predicate WorkerEnabled(s: State, step: Step) {
    var w := s.worker;
    match step
    case Open => w.running && w.active.Some? && w.stream.None?
    case Drop(_) => w.running && w.active.Some?
    case Ingest(_, _, _) => w.running && w.active.Some? && w.stream.Some? && w.active.value.slot < SLOTS
    case SubmitOne(_, _) => w.running && w.active.Some? && w.stream.Some?
    case _ => w.running
  }

  function WorkerStep(s: State, step: Step): State
    requires Shape(s.c) && WorkerEnabled(s, step)
  {
    match step
    case Top(taken) => LoopTop(s, taken)
    case Forget => s.(worker := s.worker.(active := None, stream := None))
    case Probe(present) => s.(c := SetPhysical(s.c, present), worker := s.worker.(physical := present))
    case Open => s.(worker := s.worker.(stream := Some([])))
    case Close => s.(worker := s.worker.(stream := None))
    case Drop(taken) => s.(c := FailCredit(s.c, s.worker.active.value.slot, s.worker.active.value.generation, taken))
    case Ingest(data, restart, keep) => Ingested(s, data, restart, keep)
    case SubmitOne(taken, failed) => SubmitStep(s, taken, failed)
    case Exit(taken) => if s.c.stop then ExitWorker(s, taken) else s
    case _ => s
  }

  /** The steps of the RDP callbacks and of the control thread. */
  function SharedStep(c: Shared, step: Step): (r: Shared)
    requires Shape(c)
    ensures Shape(r)
  {
    match step
    case Foreground(slot, taken) => SetForeground(c, slot, taken)
    case Session(i, session, camera, audio, taken, again) => SetSession(c, i, session, camera, audio, taken, again)
    case Start(i, generation, width, height, fps, taken) => CameraStart(c, i, generation, width, height, fps, taken)
    case Stop(i, generation) => CameraStop(c, i, generation)
    case Request(i, generation) => SampleRequest(c, i, generation)
    case AudioOn(i, generation, frames) => AudioStart(c, i, generation, frames)
    case AudioOff(i, generation) => AudioStop(c, i, generation)
    case Halt => c.(stop := true)
    case Destroy(taken) => CloseAll(c.(stop := true), taken, SLOTS)
    case _ => c
  }

  predicate OfWorker(step: Step) {
    step.Top? || step.Forget? || step.Probe? || step.Open? || step.Close? || step.Drop?
    || step.Ingest? || step.SubmitOne? || step.Exit?
  }

  function Take(s: State, step: Step): State
    requires Shape(s.c)
  {
    if OfWorker(step) then (if WorkerEnabled(s, step) then WorkerStep(s, step) else s)
    else if step.WithdrawAll? then
      (if s.c.stop && !s.worker.running then s.(c := SetPhysical(s.c, false), withdrawn := true) else s)
    else if step.Apply? then
      (if s.withdrawn && !s.worker.running
       then State(ApplyConfig(s.c, step.profile).(stop := false),
                  IDLE.(running := step.started && step.profile.enabled), false)
       else s)
    else s.(c := SharedStep(s.c, step))
  }

  function Run(s: State, steps: seq<Step>): (r: State)
    requires Shape(s.c)
    ensures Shape(r.c)
  {
    if steps == [] then s else Take(Run(s, steps[..|steps| - 1]), steps[|steps| - 1])
  }

  predicate Init(s: State) {
    && Shape(s.c) && (forall i :: 0 <= i < SLOTS ==> s.c.slots[i] == VACANT && s.c.stateGen[i] == 1)
    && s.c.foreground.None? && s.c.epoch == 0 && !s.c.physical && !s.c.stop && s.c.calls == []
    && s.worker == IDLE.(running := s.worker.running) && !s.withdrawn
  }

  const VACANT := Slot(None, false, false, false, 0, 0, 0, 0, 0, false, false, 0, 0, [], 0, 0)

  // ------------------------------------------------------------ advertising

  /** The slots whose device the server has been told is there. */
  function OnAir(calls: seq<Call>): set<nat>
    decreases |calls|
  {
    if calls == [] then {}
    else
      var n := |calls| - 1;
      match calls[n]
      case Available(slot, on) => if on then OnAir(calls[..n]) + {slot} else OnAir(calls[..n]) - {slot}
      case _ => OnAir(calls[..n])
  }

  predicate AtMostOne(slots: set<nat>) {
    forall a, b :: a in slots && b in slots ==> a == b
  }

  /** At no point of the call sequence are two devices advertised. */
  ghost predicate NeverTwo(calls: seq<Call>) {
    forall n :: 0 <= n <= |calls| ==> AtMostOne(OnAir(calls[..n]))
  }

  lemma Tell(calls: seq<Call>, call: Call)
    requires NeverTwo(calls)
    ensures OnAir(calls + [call]) ==
      if !call.Available? then OnAir(calls)
      else if call.on then OnAir(calls) + {call.slot}
      else OnAir(calls) - {call.slot}
    ensures AtMostOne(OnAir(calls + [call])) ==> NeverTwo(calls + [call])
  {
    var all := calls + [call];
    assert all[..|calls|] == calls;
    if AtMostOne(OnAir(all)) {
      forall n | 0 <= n <= |all| ensures AtMostOne(OnAir(all[..n])) {
        if n == |all| { assert all[..n] == all; } else { assert all[..n] == calls[..n]; }
      }
    }
  }

  /** The flags mirror what the server was told. */
  ghost predicate AirOk(c: Shared) {
    && Shape(c) && NeverTwo(c.calls)
    && (forall i :: i in OnAir(c.calls) ==> i < SLOTS)
    && (forall i :: 0 <= i < SLOTS ==> (i in OnAir(c.calls) <==> c.slots[i].advertised))
    && (forall i :: 0 <= i < SLOTS && c.slots[i].advertised ==> c.slots[i].session.Some?)
  }

  lemma AirSingle(c: Shared)
    requires AirOk(c)
    ensures AtMostOne(OnAir(c.calls))
  {
    assert c.calls[..|c.calls|] == c.calls;
  }

  lemma TellAir(c: Shared, call: Call)
    requires AirOk(c) && !call.Available?
    ensures AirOk(Told(c, call))
  {
    Tell(c.calls, call);
    AirSingle(c);
    hide OnAir, NeverTwo;
  }

  predicate SameFlags(c: Shared, d: Shared) {
    && Shape(c) && Shape(d)
    && forall i :: 0 <= i < SLOTS ==>
         d.slots[i].advertised == c.slots[i].advertised && d.slots[i].session == c.slots[i].session
  }

  lemma FlagsAir(c: Shared, d: Shared)
    requires AirOk(c) && SameFlags(c, d) && d.calls == c.calls
    ensures AirOk(d)
  {
    hide OnAir, NeverTwo;
  }

  lemma FailAir(c: Shared, i: nat, generation: nat, taken: bool)
    requires AirOk(c)
    ensures AirOk(FailCredit(c, i, generation, taken)) && SameFlags(c, FailCredit(c, i, generation, taken))
  {
    var d := Told(c, Fail(i, generation, taken));
    TellAir(c, Fail(i, generation, taken));
    hide AirOk;
    if FailCredit(c, i, generation, taken) != c { FlagsAir(d, FailCredit(c, i, generation, taken)); }
  }

  /** A device is withdrawn, or the one wanted device advertised while nothing is. */
  lemma FlipAir(c: Shared, i: nat, on: bool)
    requires AirOk(c) && i < SLOTS && c.slots[i].session.Some?
    requires on ==> forall k :: 0 <= k < SLOTS ==> !c.slots[k].advertised
    ensures AirOk(Flag(c, i, on)) && SameOwnership(c, Flag(c, i, on))
    ensures forall k :: 0 <= k < SLOTS && k != i ==> Flag(c, i, on).slots[k] == c.slots[k]
    ensures Flag(c, i, on).slots[i].advertised == on
  {
    Tell(c.calls, Available(i, on));
    AirSingle(c);
    hide OnAir, NeverTwo;
  }

  predicate SameOwnership(c: Shared, d: Shared) {
    && Shape(c) && Shape(d) && d.foreground == c.foreground && d.physical == c.physical && d.profile == c.profile
    && d.epoch == c.epoch && d.stateGen == c.stateGen && d.stop == c.stop
    && forall i :: 0 <= i < SLOTS ==> d.slots[i] == c.slots[i].(advertised := d.slots[i].advertised)
  }

  predicate OnlyWanted(c: Shared, n: nat)
    requires Shape(c) && n <= SLOTS
  {
    forall i :: 0 <= i < n ==> (c.slots[i].advertised ==> Wanted(c, i))
  }

  lemma WantedSame(c: Shared, d: Shared)
    requires SameOwnership(c, d)
    ensures forall i :: 0 <= i < SLOTS ==> Wanted(d, i) == Wanted(c, i)
  {
  }

  lemma {:induction false} WithdrawAir(c: Shared, n: nat)
    requires AirOk(c) && n <= SLOTS
    ensures var d := Withdraw(c, n);
            && AirOk(d) && SameOwnership(c, d) && OnlyWanted(d, n)
            && forall i :: n <= i < SLOTS ==> d.slots[i] == c.slots[i]
  {
    hide AirOk, Wanted, Flag;
    if n > 0 {
      WithdrawAir(c, n - 1);
      var d := Withdraw(c, n - 1);
      if d.slots[n - 1].advertised && !Wanted(d, n - 1) {
        HasSession(d, n - 1);
        FlipAir(d, n - 1, false);
        WantedSame(d, Flag(d, n - 1, false));
      }
    }
  }

  lemma HasSession(c: Shared, i: nat)
    requires AirOk(c) && i < SLOTS && c.slots[i].advertised
    ensures c.slots[i].session.Some?
  {
  }

  lemma OneOwner(c: Shared, a: nat, b: nat)
    requires Shape(c) && a < SLOTS && b < SLOTS && Wanted(c, b)
    ensures Wanted(c, a) ==> a == b
  {
  }

  lemma WantedHas(c: Shared, i: nat)
    requires Shape(c) && i < SLOTS && Wanted(c, i)
    ensures c.slots[i].session.Some?
  {
  }

  lemma {:induction false} AdvertiseAir(c: Shared, n: nat)
    requires AirOk(c) && n <= SLOTS && OnlyWanted(c, SLOTS)
    ensures var d := Advertise(c, n);
            && AirOk(d) && SameOwnership(c, d) && OnlyWanted(d, SLOTS)
            && forall i :: 0 <= i < n ==> d.slots[i].advertised == Wanted(d, i)
  {
    hide AirOk, Wanted, Flag;
    if n > 0 {
      AdvertiseAir(c, n - 1);
      var d := Advertise(c, n - 1);
      if !d.slots[n - 1].advertised && Wanted(d, n - 1) {
        forall k | 0 <= k < SLOTS ensures !d.slots[k].advertised {
          assert d.slots[k].advertised ==> Wanted(d, k);
          OneOwner(d, k, n - 1);
        }
        WantedHas(d, n - 1);
        FlipAir(d, n - 1, true);
        WantedSame(d, Flag(d, n - 1, true));
      }
    }
  }

  /** After every reconciliation a device is advertised exactly when it is wanted. */
  ghost predicate Reconciled(c: Shared) {
    AirOk(c) && forall i :: 0 <= i < SLOTS ==> c.slots[i].advertised == Wanted(c, i)
  }

  lemma UpdateAir(c: Shared)
    requires AirOk(c)
    ensures Reconciled(Update(c)) && SameOwnership(c, Update(c))
  {
    WithdrawAir(c, SLOTS);
    AdvertiseAir(Withdraw(c, SLOTS), SLOTS);
    hide AirOk, Advertise, Withdraw, Wanted;
  }
}
