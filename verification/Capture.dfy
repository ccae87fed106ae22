// The capture-redirect state shared under one lock by the RDP callbacks, the
// control thread and the two workers, and the camera and microphone gates on it.
module Capture {
  import opened Bytes

  const SLOTS := 4

  /** Who owned the camera at some time; starts are the generations started on that slot so far. */
  datatype Tag = Tag(foreground: Option<nat>, epoch: nat, stateGen: nat, starts: seq<nat>)

  datatype Picture = Picture(data: nat, tag: Tag)

  /** Calls into the RDP sessions, in order. taken is the mailbox's answer. */
  datatype Call =
    | Active(slot: nat, on: bool)
    | Available(slot: nat, on: bool)
    | Submit(slot: nat, generation: nat, picture: Picture, now: Tag, taken: bool)
    | Fail(slot: nat, generation: nat, taken: bool)

  /** starts, asked and answered only record: the generations started since the slot generation last moved,
    * and the sample requests accepted and answered since the last start. */
  datatype Slot = Slot(session: Option<nat>, cameraAllowed: bool, audioAllowed: bool, streaming: bool,
                       generation: nat, width: nat, height: nat, fps: nat, credit: nat, advertised: bool,
                       audioStreaming: bool, audioGeneration: nat, framesPerPacket: nat,
                       starts: seq<nat>, asked: nat, answered: nat)

  datatype Profile = Profile(enabled: bool, width: nat, height: nat, fps: nat, audioEnabled: bool)

  datatype Shared = Shared(slots: seq<Slot>, stateGen: seq<nat>, foreground: Option<nat>, epoch: nat,
                           physical: bool, stop: bool, profile: Profile, calls: seq<Call>)

  /** What the camera worker remembers of the stream it feeds. starts only records. */
  datatype Target = Target(slot: nat, generation: nat, stateGen: nat, epoch: nat, starts: seq<nat>)

  predicate Shape(c: Shared) {
    |c.slots| == |c.stateGen| == SLOTS
  }

  function SetSlot(c: Shared, i: nat, s: Slot): (r: Shared)
    requires Shape(c) && i < SLOTS
    ensures Shape(r)
  {
    c.(slots := c.slots[i := s])
  }

  function Told(c: Shared, call: Call): Shared {
    c.(calls := c.calls + [call])
  }

  // -------------------------------------------------------------- predicates

  predicate Eligible(c: Shared, i: nat)
    requires Shape(c) && i < SLOTS
  {
    c.profile.enabled && c.slots[i].session.Some? && c.slots[i].cameraAllowed
  }

  predicate Wanted(c: Shared, i: nat)
    requires Shape(c) && i < SLOTS
  {
    c.physical && Eligible(c, i) && c.foreground == Some(i)
  }

  predicate Requested(c: Shared, i: nat)
    requires Shape(c) && i < SLOTS
  {
    && Eligible(c, i) && c.foreground == Some(i) && c.slots[i].streaming
    && c.slots[i].width == c.profile.width && c.slots[i].height == c.profile.height && c.slots[i].fps == c.profile.fps
  }

  /** The first requested slot from i on. */
  function Search(c: Shared, i: nat): Option<Target>
    requires Shape(c) && i <= SLOTS
    decreases SLOTS - i
  {
    if i == SLOTS then None
    else if Requested(c, i) then Some(Target(i, c.slots[i].generation, c.stateGen[i], c.epoch, c.slots[i].starts))
    else Search(c, i + 1)
  }

  function Now(c: Shared, i: nat): Tag
    requires Shape(c) && i < SLOTS
  {
    Tag(c.foreground, c.epoch, c.stateGen[i], c.slots[i].starts)
  }

  // -------------------------------------------------------------- operations

  /** capture_camera_fail_credit_locked; taken is what rdp_submit_camera_error answers. */
  function FailCredit(c: Shared, i: nat, generation: nat, taken: bool): (r: Shared)
    requires Shape(c)
    ensures Shape(r) && r.stateGen == c.stateGen && (i < SLOTS ==> r.slots[i].session == c.slots[i].session)
  {
    if i >= SLOTS then c
    else
      var s := c.slots[i];
      if !s.streaming || s.generation != generation || s.credit == 0 || s.session.None? then c
      else
        var d := Told(c, Fail(i, generation, taken));
        if taken then SetSlot(d, i, s.(credit := 0, answered := s.answered + 1)) else d
  }

  /** The flag of one slot, and the word of it to the server. */
  function Flag(c: Shared, i: nat, on: bool): (r: Shared)
    requires Shape(c) && i < SLOTS
    ensures Shape(r)
  {
    SetSlot(if c.slots[i].session.Some? then Told(c, Available(i, on)) else c, i, c.slots[i].(advertised := on))
  }

  /** The removals among the first n slots. */
  function Withdraw(c: Shared, n: nat): (r: Shared)
    requires Shape(c) && n <= SLOTS
    ensures Shape(r)
  {
    if n == 0 then c
    else
      var d := Withdraw(c, n - 1);
      if !d.slots[n - 1].advertised || Wanted(d, n - 1) then d else Flag(d, n - 1, false)
  }

  /** The additions among the first n slots. */
  function Advertise(c: Shared, n: nat): (r: Shared)
    requires Shape(c) && n <= SLOTS
    ensures Shape(r)
  {
    if n == 0 then c
    else
      var d := Advertise(c, n - 1);
      if d.slots[n - 1].advertised || !Wanted(d, n - 1) then d else Flag(d, n - 1, true)
  }

  function Update(c: Shared): (r: Shared)
    requires Shape(c)
    ensures Shape(r)
  {
    Advertise(Withdraw(c, SLOTS), SLOTS)
  }

  function SetPhysical(c: Shared, present: bool): (r: Shared)
    requires Shape(c)
    ensures Shape(r)
  {
    Update(c.(physical := present && !c.stop))
  }

  function TakenAt(taken: seq<bool>, i: nat): bool {
    i < |taken| && taken[i]
  }

  /** Every other session's credit is failed and its gate closed, for the first n slots. */
  function CloseGates(c: Shared, keep: Option<nat>, taken: seq<bool>, n: nat): (r: Shared)
    requires Shape(c) && n <= SLOTS
    ensures Shape(r)
  {
    if n == 0 then c
    else
      var d := CloseGates(c, keep, taken, n - 1);
      var i := n - 1;
      if keep == Some(i) || d.slots[i].session.None? then d
      else Told(FailCredit(d, i, d.slots[i].generation, TakenAt(taken, i)), Active(i, false))
  }

  function HandOver(c: Shared, slot: Option<nat>, taken: seq<bool>): (r: Shared)
    requires Shape(c)
    ensures Shape(r)
  {
    CloseGates(c, slot, taken, SLOTS).(foreground := slot, epoch := c.epoch + 1)
  }

  function SetForeground(c: Shared, slot: Option<nat>, taken: seq<bool>): (r: Shared)
    requires Shape(c)
    ensures Shape(r)
  {
    if (slot.Some? && slot.value >= SLOTS) || c.foreground == slot then c
    else
      var d := HandOver(c, slot, taken);
      Update(if slot.Some? && d.slots[slot.value].session.Some? then Told(d, Active(slot.value, true)) else d)
  }

  /** The old session's gate is closed and its device withdrawn before the slot is rewritten. */
  function Retire(c: Shared, i: nat, taken: bool): (r: Shared)
    requires Shape(c) && i < SLOTS
    ensures Shape(r) && r.stateGen == c.stateGen && r.slots[i].session == c.slots[i].session
  {
    var d := Told(FailCredit(c, i, c.slots[i].generation, taken), Active(i, false));
    if d.slots[i].advertised then SetSlot(Told(d, Available(i, false)), i, d.slots[i].(advertised := false)) else d
  }

  /** The slot's own fields after a publication. */
  function Renamed(s: Slot, session: Option<nat>, camera: bool, audio: bool): Slot {
    var changed := s.session != session;
    var quiet := if changed || !camera then s.(streaming := false, credit := 0) else s;
    var muted :=
      if !audio || (changed && (s.session.Some? || session.None?))
      then quiet.(audioStreaming := false, framesPerPacket := 0)
      else quiet;
    muted.(session := session, cameraAllowed := camera, audioAllowed := audio,
           starts := if changed then [] else s.starts)
  }

  /** The old session is retired and its stream's credit failed, as far as the publication calls for it. */
  function LeaveSession(c: Shared, i: nat, session: Option<nat>, camera: bool, taken: bool, again: bool): (r: Shared)
    requires Shape(c) && i < SLOTS
    ensures Shape(r) && r.stateGen == c.stateGen && r.slots[i].session == c.slots[i].session
  {
    var changed := c.slots[i].session != session;
    var d := if c.slots[i].session.Some? && changed then Retire(c, i, taken) else c;
    if changed || !camera then FailCredit(d, i, d.slots[i].generation, again) else d
  }

  function EnterSession(c: Shared, i: nat, session: Option<nat>, camera: bool, audio: bool): (r: Shared)
    requires Shape(c) && i < SLOTS
    ensures Shape(r)
  {
    SetSlot(c, i, Renamed(c.slots[i], session, camera, audio))
    .(stateGen := if c.slots[i].session != session then c.stateGen[i := c.stateGen[i] + 1] else c.stateGen)
  }

  function SetSession(c: Shared, i: nat, session: Option<nat>, camera: bool, audio: bool, taken: bool, again: bool)
      : (r: Shared)
    requires Shape(c)
    ensures Shape(r)
  {
    if i >= SLOTS then c
    else
      var d := EnterSession(LeaveSession(c, i, session, camera, taken, again), i, session, camera, audio);
      Update(if session.Some? then Told(d, Active(i, d.foreground == Some(i))) else d)
  }

  function CameraStart(c: Shared, i: nat, generation: nat, width: nat, height: nat, fps: nat, taken: bool): (r: Shared)
    requires Shape(c)
    ensures Shape(r)
  {
    if i >= SLOTS then c
    else
      var d := FailCredit(c, i, c.slots[i].generation, taken);
      SetSlot(d, i, d.slots[i].(streaming := true, generation := generation, width := width, height := height,
                                fps := fps,
                                credit := 0, starts := d.slots[i].starts + [generation], asked := 0, answered := 0))
  }

  function CameraStop(c: Shared, i: nat, generation: nat): (r: Shared)
    requires Shape(c)
    ensures Shape(r)
  {
    if i >= SLOTS || c.slots[i].generation != generation then c
    else SetSlot(c, i, c.slots[i].(streaming := false, credit := 0))
  }

  function SampleRequest(c: Shared, i: nat, generation: nat): (r: Shared)
    requires Shape(c)
    ensures Shape(r)
  {
    if i >= SLOTS || !c.slots[i].streaming || c.slots[i].generation != generation then c
    else
      var s := c.slots[i];
      SetSlot(c, i, s.(credit := if s.credit < 1 then s.credit + 1 else s.credit, asked := s.asked + 1))
  }

  function AudioStart(c: Shared, i: nat, generation: nat, frames: nat): (r: Shared)
    requires Shape(c)
    ensures Shape(r)
  {
    if i >= SLOTS || frames == 0 || frames > 4096 then c
    else SetSlot(c, i, c.slots[i].(audioStreaming := true, audioGeneration := generation, framesPerPacket := frames))
  }

  function AudioStop(c: Shared, i: nat, generation: nat): (r: Shared)
    requires Shape(c)
    ensures Shape(r)
  {
    if i >= SLOTS || c.slots[i].audioGeneration != generation then c
    else SetSlot(c, i, c.slots[i].(audioStreaming := false, framesPerPacket := 0))
  }

  /** Every slot generation moves; a stream that goes on keeps its generation number. */
  function ApplyConfig(c: Shared, profile: Profile): (r: Shared)
    requires Shape(c)
    ensures Shape(r)
  {
    c.(profile := profile,
       stateGen := seq(SLOTS, i requires 0 <= i < SLOTS => c.stateGen[i] + 1),
       slots := seq(SLOTS, i requires 0 <= i < SLOTS => c.slots[i].(starts := [c.slots[i].generation])))
  }

  /** The head of the worker's queue goes out if the tenure it was collected under is still the current one. */
  predicate MaySubmit(c: Shared, t: Target)
    requires Shape(c)
  {
    && t.slot < SLOTS && c.epoch == t.epoch && c.stateGen[t.slot] == t.stateGen && Requested(c, t.slot)
    && c.slots[t.slot].generation == t.generation && c.slots[t.slot].credit > 0
  }

  /** camera_submit_queued; taken answers the submission, and failed the error that follows a refusal. */
  function SubmitQueued(c: Shared, t: Target, queue: seq<Picture>, taken: bool, failed: bool)
      : (r: (Shared, seq<Picture>, bool))
    requires Shape(c)
    ensures Shape(r.0)
  {
    if !MaySubmit(c, t) || queue == [] then (c, queue, true)
    else
      var s := c.slots[t.slot];
      var d := Told(c, Submit(t.slot, s.generation, queue[0], Now(c, t.slot), taken));
      if taken then (SetSlot(d, t.slot, s.(credit := s.credit - 1, answered := s.answered + 1)), queue[1..], true)
      else (FailCredit(d, t.slot, t.generation, failed), queue, false)
  }

  /** The shutdown's locked section, for the first n slots. */
  function CloseAll(c: Shared, taken: seq<bool>, n: nat): (r: Shared)
    requires Shape(c) && n <= SLOTS
    ensures Shape(r)
  {
    if n == 0 then c
    else
      var d := CloseAll(c, taken, n - 1);
      var i := n - 1;
      var e := if d.slots[i].session.Some? then Retire(d, i, TakenAt(taken, i)) else d;
      SetSlot(e, i, e.slots[i].(session := None))
  }

  /** audio_packet: a microphone packet collected for a target goes out only if this holds. */
  predicate MaySendPcm(c: Shared, i: nat, session: Option<nat>, stateGen: nat, generation: nat)
    requires Shape(c)
  {
    && i < SLOTS && c.stateGen[i] == stateGen && session.Some? && c.slots[i].session == session
    && c.foreground == Some(i) && c.slots[i].audioStreaming && c.slots[i].audioGeneration == generation
  }

  // ---------------------------------------------------------------- the class

  class Redirect {
    var slots: seq<Slot>
    var stateGen: seq<nat>
    var foreground: Option<nat>
    var epoch: nat
    var physical: bool
    var stop: bool
    var profile: Profile
    ghost var calls: seq<Call>

    ghost function Value(): Shared
      reads this
    {
      Shared(slots, stateGen, foreground, epoch, physical, stop, profile, calls)
    }

    ghost predicate Valid()
      reads this
    {
      Shape(Value())
    }

    method FailCreditLocked(i: nat, generation: nat, taken: bool)
      requires Valid()
      modifies this`slots, this`calls
      ensures Valid() && Value() == FailCredit(old(Value()), i, generation, taken)
    {
      if i >= SLOTS { return; }
      var s := slots[i];
      if !s.streaming || s.generation != generation || s.credit == 0 { return; }
      if s.session.None? { return; }
      calls := calls + [Fail(i, generation, taken)];
      if !taken { return; }
      slots := slots[i := s.(credit := 0, answered := s.answered + 1)];
    }

    predicate WantedNow(i: nat)
      requires Valid() && i < SLOTS
      reads this
      ensures WantedNow(i) == Wanted(Value(), i)
    {
      physical && profile.enabled && slots[i].session.Some? && slots[i].cameraAllowed && foreground == Some(i)
    }

    /** Every removal before any addition. */
    method UpdateAvailability()
      requires Valid()
      modifies this`slots, this`calls
      ensures Valid() && Value() == Update(old(Value()))
    {
      hide Wanted;
      var i := 0;
      while i < SLOTS
        invariant i <= SLOTS && Valid() && Value() == Withdraw(old(Value()), i)
      {
        var available := WantedNow(i);
        var s := slots[i];
        if s.advertised && !available {
          if s.session.Some? { calls := calls + [Available(i, false)]; }
          slots := slots[i := s.(advertised := false)];
        }
        i := i + 1;
      }
      ghost var withdrawn := Value();
      i := 0;
      while i < SLOTS
        invariant i <= SLOTS && Valid() && Value() == Advertise(withdrawn, i)
      {
        var available := WantedNow(i);
        var s := slots[i];
        if !s.advertised && available {
          if s.session.Some? { calls := calls + [Available(i, true)]; }
          slots := slots[i := s.(advertised := true)];
        }
        i := i + 1;
      }
    }

    method SetPhysicalAvailable(present: bool)
      requires Valid()
      modifies this`slots, this`calls, this`physical
      ensures Valid() && Value() == SetPhysical(old(Value()), present)
    {
      hide Update;
      physical := present && !stop;
      UpdateAvailability();
    }

    method SetForegroundSlot(slot: Option<nat>, taken: seq<bool>)
      requires Valid()
      modifies this`slots, this`calls, this`foreground, this`epoch
      ensures Valid() && Value() == SetForeground(old(Value()), slot, taken)
    {
      hide Update, FailCredit;
      if slot.Some? && slot.value >= SLOTS { return; }
      if foreground == slot { return; }
      ghost var before := Value();
      var i := 0;
      while i < SLOTS
        invariant i <= SLOTS && Valid() && Value() == CloseGates(before, slot, taken, i)
      {
        if slot != Some(i) && slots[i].session.Some? {
          FailCreditLocked(i, slots[i].generation, TakenAt(taken, i));
          calls := calls + [Active(i, false)];
        }
        i := i + 1;
      }
      SameOwner(before, slot, taken, SLOTS);
      foreground := slot;
      epoch := epoch + 1;
      if slot.Some? && slots[slot.value].session.Some? { calls := calls + [Active(slot.value, true)]; }
      UpdateAvailability();
    }

    method RetireSession(i: nat, taken: bool)
      requires Valid() && i < SLOTS
      modifies this`slots, this`calls
      ensures Valid() && Value() == Retire(old(Value()), i, taken)
    {
      hide FailCredit;
      FailCreditLocked(i, slots[i].generation, taken);
      calls := calls + [Active(i, false)];
      if slots[i].advertised {
        calls := calls + [Available(i, false)];
        slots := slots[i := slots[i].(advertised := false)];
      }
    }

    method SetSlotSession(i: nat, session: Option<nat>, camera: bool, audio: bool, taken: bool, again: bool)
      requires Valid()
      modifies this`slots, this`calls, this`stateGen
      ensures Valid() && Value() == SetSession(old(Value()), i, session, camera, audio, taken, again)
    {
      hide Update, LeaveSession, Renamed;
      if i >= SLOTS { return; }
      var changed := slots[i].session != session;
      Leave(i, session, camera, taken, again);
      Rename(i, session, camera, audio);
      if changed { stateGen := stateGen[i := stateGen[i] + 1]; }
      if session.Some? { calls := calls + [Active(i, foreground == Some(i))]; }
      UpdateAvailability();
    }

    method Leave(i: nat, session: Option<nat>, camera: bool, taken: bool, again: bool)
      requires Valid() && i < SLOTS
      modifies this`slots, this`calls
      ensures Valid() && Value() == LeaveSession(old(Value()), i, session, camera, taken, again)
    {
      hide FailCredit, Retire;
      var changed := slots[i].session != session;
      if slots[i].session.Some? && changed { RetireSession(i, taken); }
      if changed || !camera { FailCreditLocked(i, slots[i].generation, again); }
    }

    method Rename(i: nat, session: Option<nat>, camera: bool, audio: bool)
      requires Valid() && i < SLOTS
      modifies this`slots
      ensures Valid() && slots == old(slots)[i := Renamed(old(slots)[i], session, camera, audio)]
    {
      var s := slots[i];
      var changed := s.session != session;
      if changed || !camera { s := s.(streaming := false, credit := 0); }
      if !audio || (changed && (s.session.Some? || session.None?)) {
        s := s.(audioStreaming := false, framesPerPacket := 0);
      }
      if changed { s := s.(starts := []); }
      slots := slots[i := s.(session := session, cameraAllowed := camera, audioAllowed := audio)];
    }

    method CameraStarted(i: nat, generation: nat, width: nat, height: nat, fps: nat, taken: bool)
      requires Valid()
      modifies this`slots, this`calls
      ensures Valid() && Value() == CameraStart(old(Value()), i, generation, width, height, fps, taken)
    {
      hide FailCredit;
      if i >= SLOTS { return; }
      FailCreditLocked(i, slots[i].generation, taken);
      slots := slots[i := slots[i].(streaming := true, generation := generation, width := width, height := height,
                                   fps := fps,
                                    credit := 0, starts := slots[i].starts + [generation], asked := 0, answered := 0)];
    }

    method CameraStopped(i: nat, generation: nat)
      requires Valid()
      modifies this`slots
      ensures Valid() && Value() == CameraStop(old(Value()), i, generation)
    {
      if i >= SLOTS { return; }
      if slots[i].generation == generation { slots := slots[i := slots[i].(streaming := false, credit := 0)]; }
    }

    method SampleRequested(i: nat, generation: nat)
      requires Valid()
      modifies this`slots
      ensures Valid() && Value() == SampleRequest(old(Value()), i, generation)
    {
      if i >= SLOTS || !slots[i].streaming || slots[i].generation != generation { return; }
      var s := slots[i].(asked := slots[i].asked + 1);
      slots := slots[i := if s.credit < 1 then s.(credit := s.credit + 1) else s];
    }

    predicate RequestedNow(i: nat)
      requires Valid() && i < SLOTS
      reads this
      ensures RequestedNow(i) == Requested(Value(), i)
    {
      && profile.enabled && slots[i].session.Some? && slots[i].cameraAllowed && foreground == Some(i)
      && slots[i].streaming
      && slots[i].width == profile.width && slots[i].height == profile.height && slots[i].fps == profile.fps
    }

    method StreamTarget() returns (t: Option<Target>)
      requires Valid()
      ensures t == Search(Value(), 0)
    {
      var i := 0;
      while i < SLOTS
        invariant i <= SLOTS && Search(Value(), 0) == Search(Value(), i)
      {
        if RequestedNow(i) {
          var s := slots[i];
          return Some(Target(i, s.generation, stateGen[i], epoch, s.starts));
        }
        i := i + 1;
      }
      return None;
    }

    method SubmitHead(t: Target, queue: seq<Picture>, taken: bool, failed: bool) returns (rest: seq<Picture>, ok: bool)
      requires Valid()
      modifies this`slots, this`calls
      ensures Valid() && (Value(), rest, ok) == SubmitQueued(old(Value()), t, queue, taken, failed)
    {
      hide FailCredit;
      if t.slot >= SLOTS || epoch != t.epoch || stateGen[t.slot] != t.stateGen { return queue, true; }
      if !RequestedNow(t.slot) || slots[t.slot].generation != t.generation || slots[t.slot].credit == 0 || queue == [] {
        return queue, true;
      }
      var s := slots[t.slot];
      calls := calls + [Submit(t.slot, s.generation, queue[0], Now(Value(), t.slot), taken)];
      if taken {
        slots := slots[t.slot := s.(credit := s.credit - 1, answered := s.answered + 1)];
        return queue[1..], true;
      }
      FailCreditLocked(t.slot, t.generation, failed);
      return queue, false;
    }

    method Shutdown(taken: seq<bool>)
      requires Valid()
      modifies this`slots, this`calls, this`stop
      ensures Valid() && Value() == CloseAll(old(Value()).(stop := true), taken, SLOTS)
    {
      hide Retire;
      stop := true;
      ghost var before := Value();
      var i := 0;
      while i < SLOTS
        invariant i <= SLOTS && Valid() && Value() == CloseAll(before, taken, i)
      {
        if slots[i].session.Some? { RetireSession(i, TakenAt(taken, i)); }
        slots := slots[i := slots[i].(session := None)];
        i := i + 1;
      }
    }
  }

  lemma {:induction false} SameOwner(c: Shared, keep: Option<nat>, taken: seq<bool>, n: nat)
    requires Shape(c) && n <= SLOTS
    ensures var d := CloseGates(c, keep, taken, n);
            && d.foreground == c.foreground && d.epoch == c.epoch && d.stateGen == c.stateGen
            && d.physical == c.physical && d.stop == c.stop && d.profile == c.profile
  {
    if n > 0 { SameOwner(c, keep, taken, n - 1); }
  }
}
