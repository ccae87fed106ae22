// The capture gates of the RDP sessions: which are open at any moment, what
// goes through them, and what the owner changes leave behind.
module CaptureGates {
  import opened Bytes
  import opened Capture
  import opened CaptureTenure
  import opened CaptureSafety

  /** The slots whose session was last told that its capture gate is open. */
  function Gates(calls: seq<Call>): set<nat>
    decreases |calls|
  {
    if calls == [] then {}
    else
      var n := |calls| - 1;
      match calls[n]
      case Active(slot, on) => if on then Gates(calls[..n]) + {slot} else Gates(calls[..n]) - {slot}
      case _ => Gates(calls[..n])
  }

  /** What one call may do while the gates in open are open: leave at most one open, submit a picture or add
    * a device only behind an open gate. */
  predicate Allowed(open: set<nat>, call: Call) {
    match call
    case Active(slot, on) => on ==> AtMostOne(open + {slot})
    case Submit(slot, _, _, _, _) => slot in open
    case Available(slot, on) => on ==> slot in open
    case Fail(_, _, _) => true
  }

  ghost predicate AllAllowed(calls: seq<Call>) {
    forall j :: 0 <= j < |calls| ==> Allowed(Gates(calls[..j]), calls[j])
  }

  /** The sessions have been told to keep the gates in open and no others, and nothing forbidden before. */
  ghost predicate Heard(calls: seq<Call>, open: set<nat>) {
    Gates(calls) == open && AtMostOne(open) && AllAllowed(calls)
  }

  function After(open: set<nat>, call: Call): set<nat> {
    match call
    case Active(slot, on) => if on then open + {slot} else open - {slot}
    case _ => open
  }

  lemma TellGate(calls: seq<Call>, open: set<nat>, call: Call)
    requires Heard(calls, open) && Allowed(open, call)
    ensures Heard(calls + [call], After(open, call))
  {
    var all := calls + [call];
    assert all[..|calls|] == calls;
    forall j | 0 <= j < |all| ensures Allowed(Gates(all[..j]), all[j]) {
      assert all[..j] == calls[..j];
      if j < |calls| { assert all[j] == calls[j]; } else { assert calls[..j] == calls; }
    }
  }

  lemma FailGate(c: Shared, open: set<nat>, i: nat, generation: nat, taken: bool)
    requires Shape(c) && Heard(c.calls, open)
    ensures Heard(FailCredit(c, i, generation, taken).calls, open)
  {
    TellGate(c.calls, open, Fail(i, generation, taken));
    hide Heard;
  }

  // ------------------------------------------------------- reconciliation

  lemma FlagOwner(c: Shared, i: nat, on: bool)
    requires Shape(c) && i < SLOTS
    ensures SameOwnership(c, Flag(c, i, on))
  {
  }

  lemma {:induction false} LoopsOwner(c: Shared, n: nat)
    requires Shape(c) && n <= SLOTS
    ensures SameOwnership(c, Withdraw(c, n)) && SameOwnership(c, Advertise(c, n))
  {
    hide Flag, Wanted;
    if n > 0 {
      LoopsOwner(c, n - 1);
      FlagOwner(Withdraw(c, n - 1), n - 1, false);
      FlagOwner(Advertise(c, n - 1), n - 1, true);
    }
  }

  /** Every slot whose device may be added has its gate open. */
  predicate Behind(c: Shared, open: set<nat>)
    requires Shape(c)
  {
    forall i :: 0 <= i < SLOTS && Wanted(c, i) ==> i in open
  }

  lemma FlagGate(c: Shared, open: set<nat>, i: nat, on: bool)
    requires Shape(c) && i < SLOTS && Heard(c.calls, open) && (on ==> i in open)
    ensures Heard(Flag(c, i, on).calls, open)
  {
    TellGate(c.calls, open, Available(i, on));
    hide Heard;
  }

  lemma {:induction false} LoopsGate(c: Shared, open: set<nat>, n: nat)
    requires Shape(c) && n <= SLOTS && Heard(c.calls, open) && Behind(c, open)
    ensures Heard(Withdraw(c, n).calls, open) && Heard(Advertise(c, n).calls, open)
  {
    hide Heard, Flag, Wanted;
    if n > 0 {
      LoopsGate(c, open, n - 1);
      LoopsOwner(c, n - 1);
      var d, e := Withdraw(c, n - 1), Advertise(c, n - 1);
      FlagGate(d, open, n - 1, false);
      WantedSame(c, e);
      if Wanted(e, n - 1) { FlagGate(e, open, n - 1, true); }
    }
  }

  lemma UpdateGate(c: Shared, open: set<nat>)
    requires Shape(c) && Heard(c.calls, open) && Behind(c, open)
    ensures Heard(Update(c).calls, open) && SameOwnership(c, Update(c))
  {
    hide Heard, Wanted;
    LoopsGate(c, open, SLOTS);
    LoopsOwner(c, SLOTS);
    var d := Withdraw(c, SLOTS);
    WantedSame(c, d);
    LoopsGate(d, open, SLOTS);
    LoopsOwner(d, SLOTS);
    hide Withdraw, Advertise;
  }

  // ------------------------------------------------------------- invariant

  /** The slot whose gate has to be open: the foreground one, if it has a session. */
  function OpenSlots(c: Shared): set<nat>
    requires Shape(c)
  {
    if c.foreground.Some? && c.foreground.value < SLOTS && c.slots[c.foreground.value].session.Some?
    then {c.foreground.value} else {}
  }

  /** Between locked sections the gate of the foreground session is open and no other. */
  ghost predicate GateOk(c: Shared) {
    Shape(c) && Heard(c.calls, OpenSlots(c))
  }

  lemma OpenBehind(c: Shared)
    requires Shape(c)
    ensures Behind(c, OpenSlots(c)) && AtMostOne(OpenSlots(c))
  {
  }

  lemma SettledGate(c: Shared)
    requires GateOk(c)
    ensures GateOk(Update(c)) && SameOwnership(c, Update(c))
  {
    OpenBehind(c);
    hide Heard, Update, Behind;
    UpdateGate(c, OpenSlots(c));
  }

  lemma PhysicalGate(c: Shared, present: bool)
    requires GateOk(c)
    ensures GateOk(SetPhysical(c, present))
  {
    hide Update, Heard;
    SettledGate(c.(physical := present && !c.stop));
  }

  // ------------------------------------------------------ foreground change

  /** Closing the gates of the first n slots but keep. */
  lemma {:induction false} ClosedGates(c: Shared, open: set<nat>, keep: Option<nat>, taken: seq<bool>, n: nat)
    requires Shape(c) && n <= SLOTS && Heard(c.calls, open)
    requires forall i :: i in open ==> i < SLOTS && c.slots[i].session.Some? && keep != Some(i)
    ensures Heard(CloseGates(c, keep, taken, n).calls, set i | i in open && i >= n)
    decreases n
  {
    hide Heard, FailCredit;
    var rest := set i | i in open && i >= n;
    if n == 0 {
      assert rest == open;
    } else {
      ClosedGates(c, open, keep, taken, n - 1);
      GatesKeepAudio(c, keep, taken, n - 1);
      var d, i := CloseGates(c, keep, taken, n - 1), n - 1;
      var before := set k | k in open && k >= n - 1;
      if keep == Some(i) || d.slots[i].session.None? {
        assert rest == before;
      } else {
        FailGate(d, before, i, d.slots[i].generation, TakenAt(taken, i));
        var e := FailCredit(d, i, d.slots[i].generation, TakenAt(taken, i));
        TellGate(e.calls, before, Active(i, false));
        assert rest == before - {i};
      }
    }
  }

  lemma AllClosed(c: Shared, slot: Option<nat>, taken: seq<bool>)
    requires GateOk(c) && c.foreground != slot
    ensures Heard(HandOver(c, slot, taken).calls, {})
  {
    hide Heard, CloseGates;
    ClosedGates(c, OpenSlots(c), slot, taken, SLOTS);
    assert (set i | i in OpenSlots(c) && i >= SLOTS) == {};
  }

  lemma ForegroundGate(c: Shared, slot: Option<nat>, taken: seq<bool>)
    requires GateOk(c)
    ensures GateOk(SetForeground(c, slot, taken))
  {
    hide Heard, HandOver, Update;
    if (slot.None? || slot.value < SLOTS) && c.foreground != slot {
      AllClosed(c, slot, taken);
      var d := HandOver(c, slot, taken);
      assert d.foreground == slot by { HandedOver(c, slot, taken); }
      if slot.Some? && d.slots[slot.value].session.Some? {
        TellGate(d.calls, {}, Active(slot.value, true));
        assert After({}, Active(slot.value, true)) == {slot.value};
        SettledGate(Told(d, Active(slot.value, true)));
      } else {
        SettledGate(d);
      }
    }
  }

  lemma HandedOver(c: Shared, slot: Option<nat>, taken: seq<bool>)
    requires Shape(c)
    ensures HandOver(c, slot, taken).foreground == slot && HandOver(c, slot, taken).epoch == c.epoch + 1
  {
  }

  // -------------------------------------------------------- the other steps

  lemma SameGate(c: Shared, d: Shared)
    requires GateOk(c) && Shape(d) && d.calls == c.calls && d.foreground == c.foreground
    requires forall i :: 0 <= i < SLOTS ==> d.slots[i].session == c.slots[i].session
    ensures GateOk(d)
  {
    hide Heard;
  }

  lemma FailKeepsOwner(c: Shared, i: nat, generation: nat, taken: bool)
    requires Shape(c)
    ensures var d := FailCredit(c, i, generation, taken);
            && d.foreground == c.foreground && d.epoch == c.epoch
            && d.physical == c.physical && d.profile == c.profile
            && forall k :: 0 <= k < SLOTS ==>
                 d.slots[k] == c.slots[k].(credit := d.slots[k].credit, answered := d.slots[k].answered)
                 && (k != i ==> d.slots[k] == c.slots[k])
  {
  }

  lemma FailedGate(c: Shared, i: nat, generation: nat, taken: bool)
    requires GateOk(c)
    ensures GateOk(FailCredit(c, i, generation, taken))
  {
    FailGate(c, OpenSlots(c), i, generation, taken);
    FailKeepsOwner(c, i, generation, taken);
    hide Heard, FailCredit;
  }

  lemma RetireGate(c: Shared, open: set<nat>, i: nat, taken: bool)
    requires Shape(c) && Heard(c.calls, open) && i < SLOTS
    ensures Heard(Retire(c, i, taken).calls, open - {i}) && Retire(c, i, taken).foreground == c.foreground
    ensures forall k :: 0 <= k < SLOTS ==> Retire(c, i, taken).slots[k].session == c.slots[k].session
  {
    hide Heard, FailCredit;
    FailGate(c, open, i, c.slots[i].generation, taken);
    FailKeepsOwner(c, i, c.slots[i].generation, taken);
    var d := FailCredit(c, i, c.slots[i].generation, taken);
    TellGate(d.calls, open, Active(i, false));
    TellGate(d.calls + [Active(i, false)], open - {i}, Available(i, false));
  }

  lemma LeaveGate(c: Shared, i: nat, session: Option<nat>, camera: bool, taken: bool, again: bool)
    requires GateOk(c) && i < SLOTS
    ensures var e := LeaveSession(c, i, session, camera, taken, again);
            && Heard(e.calls, if c.slots[i].session != session then OpenSlots(c) - {i} else OpenSlots(c))
            && e.foreground == c.foreground
            && forall k :: 0 <= k < SLOTS ==> e.slots[k].session == c.slots[k].session
  {
    hide Heard, FailCredit, Retire;
    var changed, open := c.slots[i].session != session, OpenSlots(c);
    RetireGate(c, open, i, taken);
    var d := if c.slots[i].session.Some? && changed then Retire(c, i, taken) else c;
    if c.slots[i].session.None? { assert open - {i} == open; }
    FailGate(d, if changed then open - {i} else open, i, d.slots[i].generation, again);
    FailKeepsOwner(d, i, d.slots[i].generation, again);
  }

  lemma SessionGate(c: Shared, i: nat, session: Option<nat>, camera: bool, audio: bool, taken: bool, again: bool)
    requires GateOk(c)
    ensures GateOk(SetSession(c, i, session, camera, audio, taken, again))
  {
    hide Heard, LeaveSession, Update;
    if i < SLOTS {
      var e := LeaveSession(c, i, session, camera, taken, again);
      LeaveGate(c, i, session, camera, taken, again);
      var f := EnterSession(e, i, session, camera, audio);
      var left := if c.slots[i].session != session then OpenSlots(c) - {i} else OpenSlots(c);
      assert f.calls == e.calls && f.foreground == c.foreground && f.slots[i].session == session;
      if session.Some? {
        var call := Active(i, f.foreground == Some(i));
        TellGate(f.calls, left, call);
        assert After(left, call) == OpenSlots(Told(f, call));
        SettledGate(Told(f, call));
      } else {
        assert left == OpenSlots(f);
        SettledGate(f);
      }
    }
  }

  lemma StartGate(c: Shared, i: nat, generation: nat, width: nat, height: nat, fps: nat, taken: bool)
    requires GateOk(c)
    ensures GateOk(CameraStart(c, i, generation, width, height, fps, taken))
  {
    assert Shape(c);
    hide Heard, FailCredit, GateOk;
    if i < SLOTS {
      FailedGate(c, i, c.slots[i].generation, taken);
      var d := FailCredit(c, i, c.slots[i].generation, taken);
      SameGate(d, CameraStart(c, i, generation, width, height, fps, taken));
    }
  }

  lemma {:induction false} ClosedAll(c: Shared, open: set<nat>, taken: seq<bool>, n: nat)
    requires Shape(c) && n <= SLOTS && Heard(c.calls, open)
    requires forall i :: i in open ==> i < SLOTS && c.slots[i].session.Some?
    ensures var d := CloseAll(c, taken, n);
            && Heard(d.calls, set i | i in open && i >= n)
            && (forall k :: 0 <= k < n ==> d.slots[k].session.None?)
            && (forall k :: n <= k < SLOTS ==> d.slots[k].session == c.slots[k].session)
  {
    hide Heard, Retire;
    var rest := set i | i in open && i >= n;
    if n == 0 {
      assert rest == open;
    } else {
      ClosedAll(c, open, taken, n - 1);
      var d, i := CloseAll(c, taken, n - 1), n - 1;
      var before := set k | k in open && k >= n - 1;
      if d.slots[i].session.Some? {
        RetireGate(d, before, i, TakenAt(taken, i));
        assert rest == before - {i};
      } else {
        assert rest == before;
      }
    }
  }

  lemma DestroyGate(c: Shared, taken: seq<bool>)
    requires GateOk(c)
    ensures var d := CloseAll(c.(stop := true), taken, SLOTS);
            GateOk(d) && Gates(d.calls) == {} && forall i :: 0 <= i < SLOTS ==> d.slots[i].session.None?
  {
    hide CloseAll, AllAllowed;
    ClosedAll(c.(stop := true), OpenSlots(c), taken, SLOTS);
    assert (set i | i in OpenSlots(c) && i >= SLOTS) == {};
  }

  lemma BookkeepingGate(c: Shared, step: Step)
    requires GateOk(c) && (Bookkeeping(step) || OfWorker(step) || step.WithdrawAll? || step.Apply?)
    ensures GateOk(SharedStep(c, step))
  {
    assert Shape(c);
    hide GateOk;
    SameGate(c, SharedStep(c, step));
  }

  lemma SharedGate(c: Shared, step: Step)
    requires GateOk(c)
    ensures GateOk(SharedStep(c, step))
  {
    hide GateOk, SetForeground, SetSession, CameraStart, CloseAll;
    match step {
      case Foreground(slot, taken) => ForegroundGate(c, slot, taken);
      case Session(i, session, camera, audio, taken, again) => SessionGate(c, i, session, camera, audio, taken, again);
      case Start(i, generation, width, height, fps, taken) => StartGate(c, i, generation, width, height, fps, taken);
      case Destroy(taken) => DestroyGate(c, taken);
      case _ => hide SharedStep; BookkeepingGate(c, step);
    }
  }

  lemma SubmitGate(c: Shared, t: Target, queue: seq<Picture>, taken: bool, failed: bool)
    requires GateOk(c)
    ensures GateOk(SubmitQueued(c, t, queue, taken, failed).0)
  {
    if MaySubmit(c, t) && queue != [] {
      var s := c.slots[t.slot];
      var call := Submit(t.slot, s.generation, queue[0], Now(c, t.slot), taken);
      TellGate(c.calls, OpenSlots(c), call);
      var d := Told(c, call);
      assert GateOk(d);
      hide Heard, GateOk, FailCredit;
      if taken {
        SameGate(d, SetSlot(d, t.slot, s.(credit := s.credit - 1, answered := s.answered + 1)));
      } else {
        FailedGate(d, t.slot, t.generation, failed);
      }
    }
  }

  lemma WorkerGate(s: State, step: Step)
    requires GateOk(s.c) && OfWorker(step) && WorkerEnabled(s, step)
    ensures GateOk(WorkerStep(s, step).c)
  {
    assert Shape(s.c);
    hide GateOk, SetPhysical, FailCredit, SubmitQueued;
    match step {
      case Top(taken) => TopGate(s, taken);
      case Exit(taken) =>
        if s.c.stop {
          if s.worker.active.Some? {
            var t := s.worker.active.value;
            FailedGate(s.c, t.slot, t.generation, taken);
            PhysicalGate(FailCredit(s.c, t.slot, t.generation, taken), false);
          } else {
            PhysicalGate(s.c, false);
          }
        }
      case SubmitOne(taken, failed) =>
        SubmitGate(s.c, s.worker.active.value, s.worker.stream.value, taken, failed);
      case Probe(present) => PhysicalGate(s.c, present);
      case Drop(taken) => FailedGate(s.c, s.worker.active.value.slot, s.worker.active.value.generation, taken);
      case _ =>
    }
  }

  lemma TopGate(s: State, taken: bool)
    requires GateOk(s.c)
    ensures GateOk(LoopTop(s, taken).c)
  {
    assert Shape(s.c);
    hide GateOk, SetPhysical, FailCredit, Search, Retarget, SameTarget;
    var w := s.worker;
    if w.active.Some? {
      FailedGate(s.c, w.active.value.slot, w.active.value.generation, taken);
      PhysicalGate(FailCredit(s.c, w.active.value.slot, w.active.value.generation, taken), w.physical);
    }
    PhysicalGate(s.c, w.physical);
  }

  lemma TakeGate(s: State, step: Step)
    requires GateOk(s.c)
    ensures GateOk(Take(s, step).c)
  {
    assert Shape(s.c);
    hide GateOk, WorkerStep, WorkerEnabled, SharedStep, SetPhysical;
    if OfWorker(step) {
      if WorkerEnabled(s, step) { WorkerGate(s, step); }
    } else if step.WithdrawAll? {
      PhysicalGate(s.c, false);
    } else if step.Apply? {
      SameGate(s.c, ApplyConfig(s.c, step.profile).(stop := false));
    } else {
      SharedGate(s.c, step);
    }
  }

  lemma {:induction false} RunGate(s: State, steps: seq<Step>)
    requires Init(s)
    ensures GateOk(Run(s, steps).c)
    decreases |steps|
  {
    hide Take;
    if steps == [] {
      assert Gates([]) == {};
    } else {
      hide GateOk;
      RunGate(s, steps[..|steps| - 1]);
      TakeGate(Run(s, steps[..|steps| - 1]), steps[|steps| - 1]);
    }
  }

  // -------------------------------------------------------------- theorems

  /** In every run, at every call and so inside every locked section: never are two capture gates open, a
    * picture is submitted only to a session whose gate is open, and a device is added only there, that is
    * after the old gate was closed and the new one opened. */
  lemma NothingPastClosedGates(s: State, steps: seq<Step>, j: nat)
    requires Init(s) && j <= |Run(s, steps).c.calls|
    ensures var calls := Run(s, steps).c.calls;
            && AtMostOne(Gates(calls[..j]))
            && (j < |calls| && calls[j].Submit? ==> calls[j].slot in Gates(calls[..j]))
            && (j < |calls| && calls[j].Available? && calls[j].on ==> calls[j].slot in Gates(calls[..j]))
  {
    RunGate(s, steps);
    var calls := Run(s, steps).c.calls;
    hide Run, OpenSlots;
    OneOpen(calls, j);
    if j < |calls| { assert Allowed(Gates(calls[..j]), calls[j]); }
  }

  lemma {:induction false} OneOpen(calls: seq<Call>, j: nat)
    requires AllAllowed(calls) && j <= |calls|
    ensures AtMostOne(Gates(calls[..j]))
    decreases j
  {
    if j > 0 {
      OneOpen(calls, j - 1);
      assert calls[..j][..j - 1] == calls[..j - 1];
      assert Allowed(Gates(calls[..j - 1]), calls[j - 1]);
    }
  }

  /** In every run, whenever the lock is free: a gate is open exactly at the foreground slot, if it has a
    * session; and a microphone packet that passes its check finds the gate of its slot open. */
  lemma GateAtForeground(s: State, steps: seq<Step>, i: nat)
    requires Init(s)
    ensures var c := Run(s, steps).c;
            && (i in Gates(c.calls) <==> i < SLOTS && c.foreground == Some(i) && c.slots[i].session.Some?)
            && forall session, stateGen, generation ::
                 MaySendPcm(c, i, session, stateGen, generation) ==> i in Gates(c.calls)
  {
    RunGate(s, steps);
    hide Run, AllAllowed, Gates;
  }

  // ------------------------------------------- what each owner change leaves

  /** A slot whose stream holds a credit that the change has to answer. */
  predicate Owes(s: Slot) {
    s.session.Some? && s.streaming && s.credit > 0
  }

  /** A slot once its gate has been closed, unless it is the new owner's. */
  function GateClosed(s: Slot, spared: bool, taken: bool): Slot {
    if !spared && Owes(s) && taken then s.(credit := 0, answered := s.answered + 1) else s
  }

  lemma {:induction false} GatesCredits(c: Shared, keep: Option<nat>, taken: seq<bool>, n: nat)
    requires Shape(c) && n <= SLOTS
    ensures var d := CloseGates(c, keep, taken, n);
            && (forall i :: 0 <= i < n ==> d.slots[i] == GateClosed(c.slots[i], keep == Some(i), TakenAt(taken, i)))
            && (forall i :: n <= i < SLOTS ==> d.slots[i] == c.slots[i])
  {
    hide CloseGates, TakenAt, GateClosed;
    if n > 0 {
      GatesCredits(c, keep, taken, n - 1);
      GatesCredit(c, keep, taken, n - 1);
    } else {
      NoGates(c, keep, taken);
    }
  }

  lemma NoGates(c: Shared, keep: Option<nat>, taken: seq<bool>)
    requires Shape(c)
    ensures CloseGates(c, keep, taken, 0) == c
  {
  }

  lemma GatesCredit(c: Shared, keep: Option<nat>, taken: seq<bool>, i: nat)
    requires Shape(c) && i < SLOTS
    ensures var d, e := CloseGates(c, keep, taken, i), CloseGates(c, keep, taken, i + 1);
            && (forall k :: 0 <= k < SLOTS && k != i ==> e.slots[k] == d.slots[k])
            && e.slots[i] == GateClosed(d.slots[i], keep == Some(i), TakenAt(taken, i))
  {
    hide TakenAt;
  }

  /** A foreground change to another slot: every other session's open credit is failed as far as its mailbox
    * takes the error, no other credit moves, only the new owner's gate is open, the epoch has moved, and a
    * device is advertised exactly where it is wanted now. */
  lemma ForegroundHandsOver(c: Shared, slot: Option<nat>, taken: seq<bool>)
    requires GateOk(c) && Reconciled(c) && c.foreground != slot && (slot.Some? ==> slot.value < SLOTS)
    ensures var d := SetForeground(c, slot, taken);
            && d.foreground == slot && d.epoch == c.epoch + 1 && d.stateGen == c.stateGen
            && Gates(d.calls) == (if slot.Some? && c.slots[slot.value].session.Some? then {slot.value} else {})
            && (forall i :: 0 <= i < SLOTS ==>
                  d.slots[i].credit == GateClosed(c.slots[i], slot == Some(i), TakenAt(taken, i)).credit)
            && (forall i :: 0 <= i < SLOTS ==> d.slots[i].advertised == Wanted(d, i))
  {
    ForegroundGood(c, slot, taken);
    ForegroundGate(c, slot, taken);
    ForegroundFields(c, slot, taken);
    hide SetForeground, Wanted, AllAllowed, AirOk, Moves, TakenAt, GateClosed, Gates;
  }

  lemma ForegroundFields(c: Shared, slot: Option<nat>, taken: seq<bool>)
    requires Shape(c) && c.foreground != slot && (slot.Some? ==> slot.value < SLOTS)
    ensures var d := SetForeground(c, slot, taken);
            && d.foreground == slot && d.epoch == c.epoch + 1 && d.stateGen == c.stateGen
            && (forall i :: 0 <= i < SLOTS ==> d.slots[i].session == c.slots[i].session)
            && (forall i :: 0 <= i < SLOTS ==>
                  d.slots[i].credit == GateClosed(c.slots[i], slot == Some(i), TakenAt(taken, i)).credit)
  {
    GatesCredits(c, slot, taken, SLOTS);
    GatesKeepAudio(c, slot, taken, SLOTS);
    var h := HandOver(c, slot, taken);
    assert h.slots == CloseGates(c, slot, taken, SLOTS).slots && h.stateGen == c.stateGen;
    hide CloseGates, TakenAt, HandOver, Update, GateClosed;
    HandedOver(c, slot, taken);
    var e := if slot.Some? && h.slots[slot.value].session.Some? then Told(h, Active(slot.value, true)) else h;
    UpdateOwner(e);
  }

  lemma UpdateOwner(c: Shared)
    requires Shape(c)
    ensures SameOwnership(c, Update(c))
  {
    hide Withdraw, Advertise;
    LoopsOwner(c, SLOTS);
    LoopsOwner(Withdraw(c, SLOTS), SLOTS);
  }

  /** A publication: a new session ends the stream and the credit of the old one and moves the slot generation,
    * the same one moves nothing but the permissions, and no other slot is touched but for its device. */
  predicate Published(c: Shared, d: Shared, i: nat, session: Option<nat>, camera: bool, audio: bool)
    requires Shape(c) && Shape(d) && i < SLOTS
  {
    var was, now, changed := c.slots[i], d.slots[i], c.slots[i].session != session;
    && now.session == session && now.cameraAllowed == camera && now.audioAllowed == audio
    && d.stateGen == (if changed then c.stateGen[i := c.stateGen[i] + 1] else c.stateGen)
    && (if changed || !camera then !now.streaming && now.credit == 0
        else now.streaming == was.streaming && now.credit == was.credit)
    && (!audio ==> !now.audioStreaming)
    && d.foreground == c.foreground && d.epoch == c.epoch
    && forall k :: 0 <= k < SLOTS && k != i ==> d.slots[k] == c.slots[k].(advertised := d.slots[k].advertised)
  }

  lemma SessionReplaced(c: Shared, i: nat, session: Option<nat>, camera: bool, audio: bool, taken: bool, again: bool)
    requires GateOk(c) && Reconciled(c) && i < SLOTS
    ensures var d := SetSession(c, i, session, camera, audio, taken, again);
            && Published(c, d, i, session, camera, audio)
            && (i in Gates(d.calls) <==> session.Some? && c.foreground == Some(i))
            && (forall k :: 0 <= k < SLOTS ==> d.slots[k].advertised == Wanted(d, k))
  {
    SessionGood(c, i, session, camera, audio, taken, again);
    SessionGate(c, i, session, camera, audio, taken, again);
    SessionFields(c, i, session, camera, audio, taken, again);
    hide SetSession, Wanted, AllAllowed, AirOk, Moves, Gates;
  }

  lemma LeaveFields(c: Shared, i: nat, session: Option<nat>, camera: bool, taken: bool, again: bool)
    requires Shape(c) && i < SLOTS
    ensures var e := LeaveSession(c, i, session, camera, taken, again);
            && e.foreground == c.foreground && e.epoch == c.epoch && e.stateGen == c.stateGen
            && (forall k :: 0 <= k < SLOTS && k != i ==> e.slots[k] == c.slots[k])
            && e.slots[i].session == c.slots[i].session
            && (c.slots[i].session == session && camera ==> e == c)
  {
    hide FailCredit;
    var changed := c.slots[i].session != session;
    FailKeepsOwner(c, i, c.slots[i].generation, taken);
    var d := if c.slots[i].session.Some? && changed then Retire(c, i, taken) else c;
    FailKeepsOwner(d, i, d.slots[i].generation, again);
  }

  lemma SessionFields(c: Shared, i: nat, session: Option<nat>, camera: bool, audio: bool, taken: bool, again: bool)
    requires Shape(c) && i < SLOTS
    ensures Published(c, SetSession(c, i, session, camera, audio, taken, again), i, session, camera, audio)
  {
    LeaveFields(c, i, session, camera, taken, again);
    var e := LeaveSession(c, i, session, camera, taken, again);
    EnterFields(c, e, i, session, camera, audio);
    hide LeaveSession, Update, Published;
    var f := EnterSession(e, i, session, camera, audio);
    var g := if session.Some? then Told(f, Active(i, f.foreground == Some(i))) else f;
    UpdateOwner(g);
    PublishedUpdate(c, f, Update(g), i, session, camera, audio);
  }

  lemma EnterFields(c: Shared, e: Shared, i: nat, session: Option<nat>, camera: bool, audio: bool)
    requires Shape(c) && Shape(e) && i < SLOTS
    requires e.foreground == c.foreground && e.epoch == c.epoch && e.stateGen == c.stateGen
    requires forall k :: 0 <= k < SLOTS && k != i ==> e.slots[k] == c.slots[k]
    requires e.slots[i].session == c.slots[i].session && (c.slots[i].session == session && camera ==> e == c)
    ensures Published(c, EnterSession(e, i, session, camera, audio), i, session, camera, audio)
  {
  }

  lemma PublishedUpdate(c: Shared, f: Shared, g: Shared, i: nat, session: Option<nat>, camera: bool, audio: bool)
    requires Shape(c) && Shape(f) && i < SLOTS && Published(c, f, i, session, camera, audio)
    requires SameOwnership(f.(calls := g.calls), g)
    ensures Published(c, g, i, session, camera, audio)
  {
  }

  /** The shutdown leaves no session, no open gate and no advertised device. */
  lemma DestroyWithdraws(c: Shared, taken: seq<bool>)
    requires GateOk(c) && Reconciled(c)
    ensures var d := CloseAll(c.(stop := true), taken, SLOTS);
            && (forall i :: 0 <= i < SLOTS ==> d.slots[i].session.None? && !d.slots[i].advertised)
            && Gates(d.calls) == {} && OnAir(d.calls) == {}
  {
    DestroyGate(c, taken);
    DestroyGood(c, taken);
    hide CloseAll, GateOk, Moves, NeverTwo, Gates;
  }

  /** A new profile, applied after the withdrawal: every slot generation moves, no device is advertised, and
    * sessions, gates and streams stay. */
  lemma ConfigMovesAll(c: Shared, profile: Profile)
    requires GateOk(c) && Reconciled(c) && !c.physical
    ensures var d := ApplyConfig(c, profile).(stop := false);
            && d.profile == profile && OnAir(d.calls) == {} && Gates(d.calls) == Gates(c.calls)
            && forall i :: 0 <= i < SLOTS ==>
                 && d.stateGen[i] == c.stateGen[i] + 1 && !d.slots[i].advertised
                 && d.slots[i] == c.slots[i].(starts := d.slots[i].starts)
  {
    ConfigGood(c, profile);
    hide Moves, NeverTwo, Gates;
  }
}
