// What every operation on the shared capture state keeps, and the theorems over runs.
module CaptureSafety {
  import opened Bytes
  import opened Capture
  import opened CaptureTenure

  // ------------------------------------------- credits and stream numbers

  /** At most one credit, no more answers than requests, and a stream runs under its latest number. */
  predicate SlotFine(s: Slot) {
    && s.credit <= 1 && s.answered + s.credit <= s.asked
    && (s.streaming ==> s.starts != [] && s.starts[|s.starts| - 1] == s.generation)
  }

  predicate AllFine(c: Shared)
    requires Shape(c)
  {
    forall i :: 0 <= i < SLOTS ==> SlotFine(c.slots[i])
  }

  /** Epochs and slot generations only grow; while one stands still, so does what it stands for. */
  predicate Later(c: Shared, d: Shared) {
    && Shape(c) && Shape(d) && c.epoch <= d.epoch && (d.epoch == c.epoch ==> d.foreground == c.foreground)
    && forall i :: 0 <= i < SLOTS ==>
         c.stateGen[i] <= d.stateGen[i] && (d.stateGen[i] == c.stateGen[i] ==> c.slots[i].starts <= d.slots[i].starts)
  }

  predicate NoSubmit(c: Shared, d: Shared) {
    c.calls <= d.calls && forall j :: |c.calls| <= j < |d.calls| ==> !d.calls[j].Submit?
  }

  predicate Moves(c: Shared, d: Shared) {
    Later(c, d) && NoSubmit(c, d) && (AllFine(c) ==> AllFine(d)) && d.physical == c.physical
  }

  lemma MovesOn(c: Shared, d: Shared, e: Shared)
    requires Moves(c, d) && Moves(d, e)
    ensures Moves(c, e)
  {
    hide SlotFine;
  }

  lemma Stays(c: Shared)
    requires Shape(c)
    ensures Moves(c, c)
  {
  }

  lemma TellMoves(c: Shared, call: Call)
    requires Shape(c) && !call.Submit?
    ensures Moves(c, Told(c, call))
  {
    hide SlotFine;
  }

  lemma SlotMoves(c: Shared, i: nat, s: Slot)
    requires Shape(c) && i < SLOTS && c.slots[i].starts <= s.starts && (SlotFine(c.slots[i]) ==> SlotFine(s))
    ensures Moves(c, SetSlot(c, i, s))
  {
    hide SlotFine;
  }

  lemma FailMoves(c: Shared, i: nat, generation: nat, taken: bool)
    requires Shape(c)
    ensures Moves(c, FailCredit(c, i, generation, taken))
  {
    var d := Told(c, Fail(i, generation, taken));
    TellMoves(c, Fail(i, generation, taken));
    Stays(c);
    hide Moves;
    if FailCredit(c, i, generation, taken) != c && taken {
      var s := c.slots[i];
      SlotMoves(d, i, s.(credit := 0, answered := s.answered + 1));
      MovesOn(c, d, SetSlot(d, i, s.(credit := 0, answered := s.answered + 1)));
    }
  }

  lemma FlagMoves(c: Shared, i: nat, on: bool)
    requires Shape(c) && i < SLOTS
    ensures Moves(c, Flag(c, i, on))
  {
    var d := Told(c, Available(i, on));
    TellMoves(c, Available(i, on));
    Stays(c);
    hide Moves;
    SlotMoves(c, i, c.slots[i].(advertised := on));
    SlotMoves(d, i, c.slots[i].(advertised := on));
    MovesOn(c, d, SetSlot(d, i, c.slots[i].(advertised := on)));
  }

  lemma {:induction false} UpdateLoopsMove(c: Shared, n: nat)
    requires Shape(c) && n <= SLOTS
    ensures Moves(c, Withdraw(c, n)) && Moves(c, Advertise(c, n))
  {
    hide Moves, Flag, Wanted;
    if n == 0 {
      Stays(c);
    } else {
      UpdateLoopsMove(c, n - 1);
      var d, e := Withdraw(c, n - 1), Advertise(c, n - 1);
      FlagMoves(d, n - 1, false);
      FlagMoves(e, n - 1, true);
      MovesOn(c, d, Flag(d, n - 1, false));
      MovesOn(c, e, Flag(e, n - 1, true));
    }
  }

  lemma UpdateMoves(c: Shared)
    requires Shape(c)
    ensures Moves(c, Update(c))
  {
    hide Moves;
    UpdateLoopsMove(c, SLOTS);
    UpdateLoopsMove(Withdraw(c, SLOTS), SLOTS);
    MovesOn(c, Withdraw(c, SLOTS), Update(c));
  }

  // ------------------------------------------------------- each operation

  ghost predicate Good(c: Shared) {
    Reconciled(c) && AllFine(c)
  }

  lemma UpdateGood(c: Shared, d: Shared)
    requires AirOk(d) && Moves(c, d)
    ensures Reconciled(Update(d)) && Moves(c, Update(d))
  {
    hide Moves, AirOk, Update;
    UpdateAir(d);
    UpdateMoves(d);
    MovesOn(c, d, Update(d));
  }

  lemma PhysicalGood(c: Shared, present: bool)
    requires AirOk(c) && Shape(c)
    ensures Reconciled(SetPhysical(c, present))
    ensures Moves(c.(physical := present && !c.stop), SetPhysical(c, present))
  {
    var d := c.(physical := present && !c.stop);
    FlagsAir(c, d);
    Stays(d);
    hide AirOk, Update, Reconciled, Moves;
    UpdateGood(d, d);
  }

  lemma {:induction false} GatesGood(c: Shared, keep: Option<nat>, taken: seq<bool>, n: nat)
    requires Shape(c) && AirOk(c) && n <= SLOTS
    ensures var d := CloseGates(c, keep, taken, n); AirOk(d) && Moves(c, d)
  {
    hide Moves, AirOk, FailCredit;
    if n == 0 {
      Stays(c);
    } else {
      GatesGood(c, keep, taken, n - 1);
      var d := CloseGates(c, keep, taken, n - 1);
      var i := n - 1;
      var e := FailCredit(d, i, d.slots[i].generation, TakenAt(taken, i));
      FailAir(d, i, d.slots[i].generation, TakenAt(taken, i));
      FailMoves(d, i, d.slots[i].generation, TakenAt(taken, i));
      MovesOn(c, d, e);
      TellAir(e, Active(i, false));
      TellMoves(e, Active(i, false));
      MovesOn(c, e, Told(e, Active(i, false)));
    }
  }

  lemma OwnerMoves(c: Shared, d: Shared, slot: Option<nat>)
    requires Moves(c, d) && d.epoch == c.epoch
    ensures Moves(c, d.(foreground := slot, epoch := c.epoch + 1))
  {
    hide SlotFine;
  }

  /** The last word to a session and the reconciliation that ends an operation. */
  lemma FinishGood(c: Shared, d: Shared, tell: bool, call: Call)
    requires Shape(c) && Shape(d) && AirOk(d) && Moves(c, d) && call.Active?
    ensures var e := Update(if tell then Told(d, call) else d); Reconciled(e) && Moves(c, e)
  {
    hide AirOk, Moves, Reconciled, Update;
    if tell {
      TellAir(d, call);
      TellMoves(d, call);
      MovesOn(c, d, Told(d, call));
      UpdateGood(c, Told(d, call));
    } else {
      UpdateGood(c, d);
    }
  }

  lemma HandOverGood(c: Shared, slot: Option<nat>, taken: seq<bool>)
    requires Shape(c) && AirOk(c)
    ensures AirOk(HandOver(c, slot, taken)) && Moves(c, HandOver(c, slot, taken))
  {
    hide AirOk, Moves, CloseGates;
    GatesGood(c, slot, taken, SLOTS);
    var gates := CloseGates(c, slot, taken, SLOTS);
    SameOwner(c, slot, taken, SLOTS);
    FlagsAir(gates, gates.(foreground := slot, epoch := c.epoch + 1));
    OwnerMoves(c, gates, slot);
  }

  lemma ForegroundGood(c: Shared, slot: Option<nat>, taken: seq<bool>)
    requires Shape(c) && Reconciled(c)
    ensures Reconciled(SetForeground(c, slot, taken)) && Moves(c, SetForeground(c, slot, taken))
  {
    assert AirOk(c);
    Stays(c);
    hide AirOk, Moves, Reconciled, HandOver, Update;
    HandOverGood(c, slot, taken);
    var d := HandOver(c, slot, taken);
    if slot.Some? && slot.value < SLOTS {
      FinishGood(c, d, d.slots[slot.value].session.Some?, Active(slot.value, true));
    } else {
      FinishGood(c, d, false, Active(0, true));
    }
  }

  lemma RetireGood(c: Shared, i: nat, taken: bool)
    requires Shape(c) && AirOk(c) && i < SLOTS && c.slots[i].session.Some?
    ensures var d := Retire(c, i, taken);
            && AirOk(d) && Moves(c, d) && !d.slots[i].advertised
            && d.stateGen == c.stateGen && d.slots[i].session == c.slots[i].session
  {
    FailAir(c, i, c.slots[i].generation, taken);
    FailMoves(c, i, c.slots[i].generation, taken);
    var d := FailCredit(c, i, c.slots[i].generation, taken);
    assert d.stateGen == c.stateGen && d.slots[i].session == c.slots[i].session;
    hide AirOk, Moves, FailCredit;
    var e := Told(d, Active(i, false));
    TellAir(d, Active(i, false));
    TellMoves(d, Active(i, false));
    MovesOn(c, d, e);
    FlipAir(e, i, false);
    FlagMoves(e, i, false);
    MovesOn(c, e, Flag(e, i, false));
  }

  /** A slot that is not advertised, or keeps its session, may be rewritten. */
  lemma RewriteAir(c: Shared, d: Shared, i: nat)
    requires AirOk(c) && Shape(d) && i < SLOTS && d.calls == c.calls && d.slots == c.slots[i := d.slots[i]]
    requires d.slots[i].advertised == c.slots[i].advertised
    requires c.slots[i].advertised ==> d.slots[i].session.Some?
    ensures AirOk(d)
  {
    hide OnAir, NeverTwo;
  }

  lemma RenameMoves(c: Shared, i: nat, session: Option<nat>, camera: bool, audio: bool)
    requires Shape(c) && i < SLOTS
    ensures var changed := c.slots[i].session != session;
            Moves(c, SetSlot(c, i, Renamed(c.slots[i], session, camera, audio))
                     .(stateGen := if changed then c.stateGen[i := c.stateGen[i] + 1] else c.stateGen))
  {
  }

  lemma EnterGood(c: Shared, e: Shared, i: nat, session: Option<nat>, camera: bool, audio: bool)
    requires Shape(c) && Shape(e) && AirOk(e) && Moves(c, e) && i < SLOTS
    requires e.slots[i].session != session ==> !e.slots[i].advertised
    ensures var f := EnterSession(e, i, session, camera, audio); AirOk(f) && Moves(c, f)
  {
    hide AirOk, Moves;
    var f := EnterSession(e, i, session, camera, audio);
    HasSessionIf(e, i);
    RewriteAir(e, f, i);
    RenameMoves(e, i, session, camera, audio);
    MovesOn(c, e, f);
  }

  lemma LeaveGood(c: Shared, i: nat, session: Option<nat>, camera: bool, taken: bool, again: bool)
    requires Shape(c) && AirOk(c) && i < SLOTS
    ensures var e := LeaveSession(c, i, session, camera, taken, again);
            AirOk(e) && Moves(c, e) && (e.slots[i].session != session ==> !e.slots[i].advertised)
  {
    HasSessionIf(c, i);
    Stays(c);
    var changed := c.slots[i].session != session;
    if c.slots[i].session.Some? && changed { RetireGood(c, i, taken); }
    var d := if c.slots[i].session.Some? && changed then Retire(c, i, taken) else c;
    FailAir(d, i, d.slots[i].generation, again);
    FailMoves(d, i, d.slots[i].generation, again);
    hide AirOk, Moves, Retire, FailCredit;
    if changed || !camera { MovesOn(c, d, FailCredit(d, i, d.slots[i].generation, again)); }
  }

  lemma SessionGood(c: Shared, i: nat, session: Option<nat>, camera: bool, audio: bool, taken: bool, again: bool)
    requires Shape(c) && Reconciled(c)
    ensures var d := SetSession(c, i, session, camera, audio, taken, again);
            Reconciled(d) && Moves(c, d)
  {
    Stays(c);
    assert AirOk(c);
    hide AirOk, Moves, Reconciled, LeaveSession, EnterSession, Update;
    if i < SLOTS {
      var e := LeaveSession(c, i, session, camera, taken, again);
      LeaveGood(c, i, session, camera, taken, again);
      EnterGood(c, e, i, session, camera, audio);
      var f := EnterSession(e, i, session, camera, audio);
      FinishGood(c, f, session.Some?, Active(i, f.foreground == Some(i)));
    }
  }

  lemma HasSessionIf(c: Shared, i: nat)
    requires AirOk(c) && i < SLOTS
    ensures c.slots[i].advertised ==> c.slots[i].session.Some?
  {
  }

  /** Stream, credit and audio bookkeeping leaves the device flags alone. */
  lemma FlagsReconciled(c: Shared, d: Shared)
    requires Reconciled(c) && SameFlags(c, d) && d.calls == c.calls
    requires d.foreground == c.foreground && d.physical == c.physical && d.profile == c.profile
    requires forall i :: 0 <= i < SLOTS ==> d.slots[i].cameraAllowed == c.slots[i].cameraAllowed
    ensures Reconciled(d)
  {
    FlagsAir(c, d);
    hide AirOk;
  }

  lemma FailGood(c: Shared, i: nat, generation: nat, taken: bool)
    requires Reconciled(c)
    ensures Reconciled(FailCredit(c, i, generation, taken)) && Moves(c, FailCredit(c, i, generation, taken))
  {
    FailAir(c, i, generation, taken);
    FailMoves(c, i, generation, taken);
    hide AirOk, Moves;
  }

  lemma StartGood(c: Shared, i: nat, generation: nat, width: nat, height: nat, fps: nat, taken: bool)
    requires Shape(c) && Reconciled(c)
    ensures var d := CameraStart(c, i, generation, width, height, fps, taken); Reconciled(d) && Moves(c, d)
  {
    Stays(c);
    if i < SLOTS {
      FailGood(c, i, c.slots[i].generation, taken);
      var d := FailCredit(c, i, c.slots[i].generation, taken);
      var s := d.slots[i].(streaming := true, generation := generation, width := width, height := height, fps := fps,
                           credit := 0, starts := d.slots[i].starts + [generation], asked := 0, answered := 0);
      hide Reconciled, Moves, FailCredit;
      FlagsReconciled(d, SetSlot(d, i, s));
      SlotMoves(d, i, s);
      MovesOn(c, d, SetSlot(d, i, s));
    }
  }

  predicate Bookkeeping(step: Step) {
    step.Stop? || step.Request? || step.AudioOn? || step.AudioOff? || step.Halt?
  }

  /** One slot's bookkeeping: the streams keep their starts, the flags stay. */
  lemma SlotGood(c: Shared, i: nat, s: Slot)
    requires Shape(c) && Reconciled(c) && i < SLOTS
    requires s == c.slots[i].(streaming := s.streaming, credit := s.credit, asked := s.asked,
                             audioStreaming := s.audioStreaming,
                              audioGeneration := s.audioGeneration, framesPerPacket := s.framesPerPacket)
    requires SlotFine(c.slots[i]) ==> SlotFine(s)
    ensures Reconciled(SetSlot(c, i, s)) && Moves(c, SetSlot(c, i, s))
  {
    SlotMoves(c, i, s);
    hide Reconciled, Moves, SlotFine;
    FlagsReconciled(c, SetSlot(c, i, s));
  }

  lemma BookkeepingGood(c: Shared, step: Step)
    requires Shape(c) && Reconciled(c) && Bookkeeping(step)
    ensures Reconciled(SharedStep(c, step)) && Moves(c, SharedStep(c, step))
  {
    Stays(c);
    if step.Halt? {
      FlagsReconciled(c, c.(stop := true));
      assert Moves(c, c.(stop := true));
      hide Reconciled, Moves;
    } else {
      hide Reconciled, Moves;
      if SharedStep(c, step) != c { SlotGood(c, step.i, SharedStep(c, step).slots[step.i]); }
    }
  }

  lemma {:induction false} CloseAllGood(c: Shared, taken: seq<bool>, n: nat)
    requires Shape(c) && AirOk(c) && n <= SLOTS
    ensures var d := CloseAll(c, taken, n);
            && AirOk(d) && Moves(c, d) && (forall i :: 0 <= i < n ==> d.slots[i].session.None?)
            && (forall i :: n <= i < SLOTS ==> d.slots[i].session == c.slots[i].session)
  {
    hide AirOk, Moves, Retire;
    if n == 0 {
      Stays(c);
    } else {
      CloseAllGood(c, taken, n - 1);
      var d, i := CloseAll(c, taken, n - 1), n - 1;
      CloseOne(c, d, i, TakenAt(taken, i));
    }
  }

  function Closed(c: Shared, i: nat, taken: bool): (r: Shared)
    requires Shape(c) && i < SLOTS
    ensures Shape(r)
  {
    var e := if c.slots[i].session.Some? then Retire(c, i, taken) else c;
    SetSlot(e, i, e.slots[i].(session := None))
  }

  lemma CloseOne(c: Shared, d: Shared, i: nat, taken: bool)
    requires Shape(c) && Shape(d) && AirOk(d) && Moves(c, d) && i < SLOTS
    ensures var f := Closed(d, i, taken);
            && AirOk(f) && Moves(c, f) && f.slots[i].session.None?
            && forall k :: 0 <= k < SLOTS && k != i ==> f.slots[k].session == d.slots[k].session
  {
    HasSessionIf(d, i);
    if d.slots[i].session.Some? { RetireGood(d, i, taken); }
    RetireOthers(d, i, taken);
    var e := if d.slots[i].session.Some? then Retire(d, i, taken) else d;
    hide AirOk, Moves, Retire;
    if d.slots[i].session.Some? { MovesOn(c, d, e); }
    RewriteAir(e, Closed(d, i, taken), i);
    SlotMoves(e, i, e.slots[i].(session := None));
    MovesOn(c, e, Closed(d, i, taken));
  }

  lemma RetireOthers(c: Shared, i: nat, taken: bool)
    requires Shape(c) && i < SLOTS
    ensures forall k :: 0 <= k < SLOTS && k != i ==> Retire(c, i, taken).slots[k] == c.slots[k]
  {
  }

  lemma DestroyGood(c: Shared, taken: seq<bool>)
    requires Shape(c) && Reconciled(c)
    ensures var d := CloseAll(c.(stop := true), taken, SLOTS); Reconciled(d) && Moves(c, d)
  {
    var e := c.(stop := true);
    assert Moves(c, e);
    FlagsAir(c, e);
    hide AirOk, Moves, CloseAll;
    CloseAllGood(e, taken, SLOTS);
    var d := CloseAll(e, taken, SLOTS);
    MovesOn(c, e, d);
    forall i | 0 <= i < SLOTS ensures d.slots[i].advertised == Wanted(d, i) { HasSessionIf(d, i); }
  }

  lemma ConfigGood(c: Shared, profile: Profile)
    requires Shape(c) && Reconciled(c) && !c.physical
    ensures var d := ApplyConfig(c, profile).(stop := false); Reconciled(d) && Moves(c, d)
  {
    var d := ApplyConfig(c, profile).(stop := false);
    FlagsAir(c, d);
    hide AirOk;
  }

  lemma SharedGood(c: Shared, step: Step)
    requires Shape(c) && Reconciled(c)
    ensures Reconciled(SharedStep(c, step)) && Moves(c, SharedStep(c, step))
  {
    Stays(c);
    hide Reconciled, Moves, SetForeground, SetSession, CameraStart, CloseAll,
      CameraStop, SampleRequest, AudioStart, AudioStop;
    match step {
      case Foreground(slot, answers) => ForegroundGood(c, slot, answers);
      case Session(i, session, camera, audio, taken, again) => SessionGood(c, i, session, camera, audio, taken, again);
      case Start(i, generation, width, height, fps, taken) => StartGood(c, i, generation, width, height, fps, taken);
      case Destroy(answers) => DestroyGood(c, answers);
      case Stop(_, _) => BookkeepingGood(c, step);
      case Request(_, _) => BookkeepingGood(c, step);
      case AudioOn(_, _, _) => BookkeepingGood(c, step);
      case AudioOff(_, _) => BookkeepingGood(c, step);
      case Halt => BookkeepingGood(c, step);
      case _ =>
    }
  }

  // ---------------------------------------------------------------- tenure

  predicate Distinct(numbers: seq<nat>) {
    forall j, k :: 0 <= j < k < |numbers| ==> numbers[j] != numbers[k]
  }

  /** A submission went out under the very tenure its picture was ingested in: same foreground, epoch and
    * slot generation, and the same stream start unless a stream number has been used twice. */
  predicate Proper(call: Call)
    requires call.Submit?
  {
    var then_, now := call.picture.tag, call.now;
    && then_.foreground == now.foreground == Some(call.slot) && then_.epoch == now.epoch
    && then_.stateGen == now.stateGen
    && now.starts != [] && now.starts[|now.starts| - 1] == call.generation && then_.starts <= now.starts
    && (Distinct(now.starts) ==> then_.starts == now.starts)
  }

  predicate LogOk(calls: seq<Call>) {
    forall j :: 0 <= j < |calls| ==> (calls[j].Submit? ==> Proper(calls[j]))
  }

  /** What the worker remembers is a tenure the shared state has had. */
  predicate TargetOk(c: Shared, t: Target)
    requires Shape(c)
  {
    && t.slot < SLOTS && t.epoch <= c.epoch && (t.epoch == c.epoch ==> c.foreground == Some(t.slot))
    && t.stateGen <= c.stateGen[t.slot] && (t.stateGen == c.stateGen[t.slot] ==> t.starts <= c.slots[t.slot].starts)
    && t.starts != [] && t.starts[|t.starts| - 1] == t.generation
  }

  /** A queued picture was ingested between the worker's choice of target and now. */
  predicate PictureOk(c: Shared, t: Target, tag: Tag)
    requires Shape(c) && t.slot < SLOTS
  {
    && t.epoch <= tag.epoch <= c.epoch && (tag.epoch == t.epoch ==> tag.foreground == Some(t.slot))
    && t.stateGen <= tag.stateGen <= c.stateGen[t.slot]
    && (tag.stateGen == t.stateGen ==> t.starts <= tag.starts)
    && (tag.stateGen == c.stateGen[t.slot] ==> tag.starts <= c.slots[t.slot].starts)
  }

  predicate WorkerOk(c: Shared, w: Worker)
    requires Shape(c)
  {
    && (w.stream.Some? ==> w.active.Some?)
    && (w.active.Some? ==>
          && TargetOk(c, w.active.value)
          && (w.stream.Some? ==>
                forall j :: 0 <= j < |w.stream.value| ==> PictureOk(c, w.active.value, w.stream.value[j].tag)))
  }

  ghost predicate Inv(s: State) {
    && Shape(s.c) && Reconciled(s.c) && AllFine(s.c) && WorkerOk(s.c, s.worker) && LogOk(s.c.calls)
    && (s.withdrawn ==> !s.c.physical && !s.worker.running)
  }

  lemma LaterWorker(c: Shared, d: Shared, w: Worker)
    requires Shape(c) && Later(c, d) && WorkerOk(c, w)
    ensures WorkerOk(d, w)
  {
  }

  lemma LaterLog(c: Shared, d: Shared)
    requires NoSubmit(c, d) && LogOk(c.calls)
    ensures LogOk(d.calls)
  {
    hide Proper;
    forall j | 0 <= j < |d.calls| && d.calls[j].Submit? ensures Proper(d.calls[j]) {
      assert j < |c.calls| ==> d.calls[j] == c.calls[j];
    }
  }

  /** Any operation on the shared state, whoever runs it. */
  lemma MoveInv(s: State, d: Shared)
    requires Inv(s) && Moves(s.c, d) && Reconciled(d)
    ensures Inv(s.(c := d))
  {
    LaterWorker(s.c, d, s.worker);
    LaterLog(s.c, d);
    hide Reconciled, WorkerOk, LogOk, SlotFine;
  }

  lemma {:induction false} SearchTarget(c: Shared, i: nat)
    requires Shape(c) && AllFine(c) && i <= SLOTS
    ensures Search(c, i).Some? ==> TargetOk(c, Search(c, i).value)
    decreases SLOTS - i
  {
    if i < SLOTS && !Requested(c, i) { SearchTarget(c, i + 1); }
  }

  lemma IngestInv(s: State, data: nat, restart: bool, keep: bool)
    requires Inv(s) && WorkerEnabled(s, Ingest(data, restart, keep))
    ensures Inv(Ingested(s, data, restart, keep))
  {
    hide Reconciled, AllFine, LogOk;
    var t := s.worker.active.value;
    assert PictureOk(s.c, t, Now(s.c, t.slot));
  }

  /** The gate of the submission leaves only pictures of the current tenure. */
  lemma SubmitProper(c: Shared, t: Target, picture: Picture)
    requires Shape(c) && AllFine(c) && MaySubmit(c, t) && TargetOk(c, t) && PictureOk(c, t, picture.tag)
    ensures Proper(Submit(t.slot, c.slots[t.slot].generation, picture, Now(c, t.slot), true))
    ensures Proper(Submit(t.slot, c.slots[t.slot].generation, picture, Now(c, t.slot), false))
  {
    var all := c.slots[t.slot].starts;
    assert SlotFine(c.slots[t.slot]);
    assert t.starts <= picture.tag.starts <= all;
    assert all[|t.starts| - 1] == t.generation == all[|all| - 1];
    if Distinct(all) {
      assert |t.starts| == |all|;
    }
  }

  lemma SubmittedMoves(c: Shared, i: nat, call: Call)
    requires Shape(c) && i < SLOTS && c.slots[i].credit > 0
    ensures var s := c.slots[i]; var d := Told(c, call);
            && (AllFine(c) ==> AllFine(SetSlot(d, i, s.(credit := s.credit - 1, answered := s.answered + 1))))
            && Later(c, d) && Later(c, SetSlot(d, i, s.(credit := s.credit - 1, answered := s.answered + 1)))
  {
  }

  lemma LogMore(calls: seq<Call>, call: Call)
    requires LogOk(calls) && (call.Submit? ==> Proper(call))
    ensures LogOk(calls + [call])
  {
    hide Proper;
  }

  lemma ToldReconciled(c: Shared, call: Call)
    requires Reconciled(c) && !call.Available?
    ensures Reconciled(Told(c, call))
  {
    TellAir(c, call);
    hide AirOk;
  }

  lemma SubmitAir(c: Shared, i: nat, call: Call)
    requires Reconciled(c) && Shape(c) && i < SLOTS && call.Submit?
    ensures var s := c.slots[i]; var d := Told(c, call);
            var left := if s.credit > 0 then s.credit - 1 else 0;
            Reconciled(d) && Reconciled(SetSlot(d, i, s.(credit := left, answered := s.answered + 1)))
  {
    ToldReconciled(c, call);
    hide Reconciled;
    var s, d := c.slots[i], Told(c, call);
    var left := if s.credit > 0 then s.credit - 1 else 0;
    FlagsReconciled(d, SetSlot(d, i, s.(credit := left, answered := s.answered + 1)));
  }

  lemma QueueShrinks(c: Shared, w: Worker, queue: seq<Picture>)
    requires Shape(c) && WorkerOk(c, w) && w.stream.Some? && queue <= w.stream.value
    ensures WorkerOk(c, w.(stream := Some(w.stream.value[|queue|..]))) && WorkerOk(c, w.(stream := None))
  {
  }

  /** The call is proper, and the books are in order with it and without the credit it used. */
  lemma SubmitCall(s: State, call: Call)
    requires Inv(s) && s.worker.active.Some? && s.worker.stream.Some? && s.worker.stream.value != []
    requires var t := s.worker.active.value;
             && MaySubmit(s.c, t) && call.Submit?
             && call == Submit(t.slot, s.c.slots[t.slot].generation, s.worker.stream.value[0],
                               Now(s.c, t.slot), call.taken)
    ensures var i := s.worker.active.value.slot; var e := s.c.slots[i];
            var d := SetSlot(Told(s.c, call), i, e.(credit := e.credit - 1, answered := e.answered + 1));
            && LogOk(s.c.calls + [call]) && Reconciled(Told(s.c, call)) && Later(s.c, Told(s.c, call))
            && Reconciled(d) && AllFine(d) && Later(s.c, d)
  {
    var t := s.worker.active.value;
    HeadProper(s.c, s.worker, call);
    hide Proper, Reconciled, WorkerOk, LogOk, SlotFine, Later;
    LogMore(s.c.calls, call);
    SubmittedMoves(s.c, t.slot, call);
    SubmitAir(s.c, t.slot, call);
  }

  lemma HeadProper(c: Shared, w: Worker, call: Call)
    requires Shape(c) && AllFine(c) && WorkerOk(c, w) && w.active.Some? && w.stream.Some? && w.stream.value != []
    requires var t := w.active.value;
             && MaySubmit(c, t) && call.Submit?
             && call == Submit(t.slot, c.slots[t.slot].generation, w.stream.value[0], Now(c, t.slot), call.taken)
    ensures Proper(call)
  {
    SubmitProper(c, w.active.value, w.stream.value[0]);
    hide Proper, AllFine;
  }

  lemma SubmitStepIs(s: State, taken: bool, failed: bool)
    requires Shape(s.c) && s.worker.active.Some? && s.worker.stream.Some? && s.worker.active.value.slot < SLOTS
    ensures var t, queue := s.worker.active.value, s.worker.stream.value;
            if MaySubmit(s.c, t) && queue != [] then
              var e := s.c.slots[t.slot];
              var call := Submit(t.slot, e.generation, queue[0], Now(s.c, t.slot), taken);
              SubmitStep(s, taken, failed) ==
                if taken then
                  State(SetSlot(Told(s.c, call), t.slot, e.(credit := e.credit - 1, answered := e.answered + 1)),
                        s.worker.(stream := Some(queue[1..])), s.withdrawn)
                else State(FailCredit(Told(s.c, call), t.slot, t.generation, failed),
                           s.worker.(stream := None), s.withdrawn)
            else SubmitStep(s, taken, failed) == s
  {
    hide FailCredit, Now;
    assert s.worker == s.worker.(stream := Some(s.worker.stream.value));
  }

  lemma SubmitInv(s: State, taken: bool, failed: bool)
    requires Inv(s) && WorkerEnabled(s, SubmitOne(taken, failed))
    ensures Inv(SubmitStep(s, taken, failed))
  {
    assert Shape(s.c) && s.worker.active.value.slot < SLOTS;
    SubmitStepIs(s, taken, failed);
    hide Inv, Reconciled, AllFine, LogOk, Later, Proper, FailCredit, SetSlot, Told, Now, SubmitStep;
    var t, queue := s.worker.active.value, s.worker.stream.value;
    if MaySubmit(s.c, t) && queue != [] {
      var call := Submit(t.slot, s.c.slots[t.slot].generation, queue[0], Now(s.c, t.slot), taken);
      SubmitCall(s, call);
      if taken { SubmitTaken(s, call); } else { SubmitRefused(s, call, failed); }
    }
  }

  lemma SubmitRefused(s: State, call: Call, failed: bool)
    requires Inv(s) && s.worker.active.Some? && s.worker.stream.Some? && s.worker.active.value.slot < SLOTS
    requires LogOk(s.c.calls + [call]) && Reconciled(Told(s.c, call)) && Later(s.c, Told(s.c, call))
    ensures var t := s.worker.active.value;
            Inv(State(FailCredit(Told(s.c, call), t.slot, t.generation, failed),
                      s.worker.(stream := None), s.withdrawn))
  {
    var t, d, w := s.worker.active.value, Told(s.c, call), s.worker;
    SameFine(s.c, d);
    hide Reconciled, AllFine, LogOk, WorkerOk, Later, FailCredit;
    LaterWorker(s.c, d, w);
    QueueShrinks(d, w, []);
    FailGood(d, t.slot, t.generation, failed);
    MoveInv(State(d, w.(stream := None), s.withdrawn), FailCredit(d, t.slot, t.generation, failed));
  }

  lemma SameFine(c: Shared, d: Shared)
    requires Shape(c) && AllFine(c) && Shape(d) && d.slots == c.slots
    ensures AllFine(d)
  {
  }

  lemma SubmitTaken(s: State, call: Call)
    requires Inv(s) && s.worker.active.Some? && s.worker.stream.Some?
      && s.worker.stream.value != [] && s.worker.active.value.slot < SLOTS
    requires s.c.slots[s.worker.active.value.slot].credit > 0 && LogOk(s.c.calls + [call])
    requires var i := s.worker.active.value.slot; var e := s.c.slots[i];
             var d := SetSlot(Told(s.c, call), i, e.(credit := e.credit - 1, answered := e.answered + 1));
             Reconciled(d) && AllFine(d) && Later(s.c, d)
    ensures var i := s.worker.active.value.slot; var e := s.c.slots[i];
            var d := SetSlot(Told(s.c, call), i, e.(credit := e.credit - 1, answered := e.answered + 1));
            Inv(State(d, s.worker.(stream := Some(s.worker.stream.value[1..])), s.withdrawn))
  {
    var i, w := s.worker.active.value.slot, s.worker;
    var e := s.c.slots[i];
    var d := SetSlot(Told(s.c, call), i, e.(credit := e.credit - 1, answered := e.answered + 1));
    hide Reconciled, AllFine, LogOk, WorkerOk, Later;
    LaterWorker(s.c, d, w);
    QueueShrinks(d, w, w.stream.value[..1]);
  }

  lemma PhysicalInv(s: State, w: Worker, present: bool)
    requires Inv(s) && WorkerOk(s.c, w) && (s.withdrawn ==> !present && !w.running)
    ensures Inv(s.(c := SetPhysical(s.c, present), worker := w))
  {
    var d := s.c.(physical := present && !s.c.stop);
    assert AirOk(s.c) && Later(s.c, d) && NoSubmit(s.c, d) && AllFine(d);
    PhysicalGood(s.c, present);
    var e := SetPhysical(s.c, present);
    hide Reconciled, LogOk, WorkerOk, AirOk, SetPhysical, SlotFine, Later;
    LaterWorker(s.c, d, w);
    LaterLog(s.c, d);
    assert Later(d, e);
    LaterWorker(d, e, w);
    LaterLog(d, e);
  }

  lemma TopInv(s: State, taken: bool)
    requires Inv(s) && s.worker.running
    ensures Inv(LoopTop(s, taken))
  {
    var w := s.worker;
    SearchTarget(s.c, 0);
    RetargetOk(s.c, w);
    var i := if w.active.Some? then w.active.value.slot else 0;
    var g := if w.active.Some? then w.active.value.generation else 0;
    var fails := !SameTarget(Search(s.c, 0), w.active) && w.active.Some?;
    FailGood(s.c, i, g, taken);
    var c := if fails then FailCredit(s.c, i, g, taken) else s.c;
    Stays(s.c);
    hide Reconciled, Moves, WorkerOk, Retarget, SetPhysical, FailCredit, LogOk, AllFine;
    MoveInv(s, c);
    MovesWorker(s.c, c, Retarget(s.c, w));
    PhysicalInv(s.(c := c), Retarget(s.c, w), w.physical);
  }

  lemma MovesWorker(c: Shared, d: Shared, w: Worker)
    requires Shape(c) && Moves(c, d) && WorkerOk(c, w)
    ensures WorkerOk(d, w)
  {
    LaterWorker(c, d, w);
    hide WorkerOk;
  }

  lemma RetargetOk(c: Shared, w: Worker)
    requires Shape(c) && WorkerOk(c, w) && (Search(c, 0).Some? ==> TargetOk(c, Search(c, 0).value))
    ensures WorkerOk(c, Retarget(c, w)) && Retarget(c, w).running == w.running
  {
    hide TargetOk, Search, PictureOk;
  }

  lemma ExitInv(s: State, taken: bool)
    requires Inv(s) && s.worker.running
    ensures Inv(ExitWorker(s, taken))
  {
    var w := s.worker;
    var i := if w.active.Some? then w.active.value.slot else 0;
    var g := if w.active.Some? then w.active.value.generation else 0;
    FailGood(s.c, i, g, taken);
    var c := if w.active.Some? then FailCredit(s.c, i, g, taken) else s.c;
    Stays(s.c);
    assert WorkerOk(c, IDLE);
    hide Reconciled, Moves, WorkerOk, SetPhysical, FailCredit, LogOk, AllFine;
    MoveInv(s, c);
    PhysicalInv(s.(c := c), IDLE, false);
  }

  lemma WorkerInv(s: State, step: Step)
    requires Inv(s) && OfWorker(step) && WorkerEnabled(s, step)
    ensures Inv(WorkerStep(s, step))
  {
    hide Inv, SetPhysical, LoopTop, ExitWorker, Ingested, SubmitStep, FailCredit;
    match step {
      case Top(taken) => TopInv(s, taken);
      case Exit(taken) => if s.c.stop { ExitInv(s, taken); }
      case Ingest(data, restart, keep) => IngestInv(s, data, restart, keep);
      case SubmitOne(taken, failed) => SubmitInv(s, taken, failed);
      case Probe(present) => ProbeInv(s, present);
      case Drop(taken) => DropInv(s, taken);
      case Forget => StreamInv(s);
      case Open => StreamInv(s);
      case Close => StreamInv(s);
    }
  }

  lemma StreamInv(s: State)
    requires Inv(s)
    ensures Inv(s.(worker := s.worker.(active := None, stream := None))) && Inv(s.(worker := s.worker.(stream := None)))
    ensures s.worker.active.Some? ==> Inv(s.(worker := s.worker.(stream := Some([]))))
  {
    hide Reconciled, AllFine, LogOk;
  }

  lemma ProbeInv(s: State, present: bool)
    requires Inv(s) && s.worker.running
    ensures Inv(s.(c := SetPhysical(s.c, present), worker := s.worker.(physical := present)))
  {
    assert WorkerOk(s.c, s.worker.(physical := present));
    hide Reconciled, AllFine, LogOk, WorkerOk, SetPhysical;
    PhysicalInv(s, s.worker.(physical := present), present);
  }

  lemma DropInv(s: State, taken: bool)
    requires Inv(s) && s.worker.active.Some?
    ensures Inv(s.(c := FailCredit(s.c, s.worker.active.value.slot, s.worker.active.value.generation, taken)))
  {
    FailGood(s.c, s.worker.active.value.slot, s.worker.active.value.generation, taken);
    hide Reconciled, AllFine, LogOk, WorkerOk, FailCredit;
    MoveInv(s, FailCredit(s.c, s.worker.active.value.slot, s.worker.active.value.generation, taken));
  }

  lemma ApplyInv(s: State, profile: Profile, started: bool)
    requires Inv(s) && s.withdrawn
    ensures Inv(State(ApplyConfig(s.c, profile).(stop := false), IDLE.(running := started && profile.enabled), false))
  {
    ConfigGood(s.c, profile);
    var d := ApplyConfig(s.c, profile).(stop := false);
    hide Reconciled, AllFine, LogOk, ApplyConfig;
    MoveInv(s, d);
    assert WorkerOk(d, IDLE.(running := started && profile.enabled));
  }

  lemma TakeInv(s: State, step: Step)
    requires Inv(s)
    ensures Inv(Take(s, step))
  {
    assert Shape(s.c) && Reconciled(s.c);
    hide Inv, WorkerStep, WorkerEnabled, SharedStep, SetPhysical, ApplyConfig, Reconciled;
    if OfWorker(step) {
      if WorkerEnabled(s, step) { WorkerInv(s, step); }
    } else if step.WithdrawAll? {
      if s.c.stop && !s.worker.running { WithdrawInv(s); }
    } else if step.Apply? {
      if s.withdrawn && !s.worker.running { ApplyInv(s, step.profile, step.started); }
    } else {
      SharedGood(s.c, step);
      MoveInv(s, SharedStep(s.c, step));
    }
  }

  lemma WithdrawInv(s: State)
    requires Inv(s) && s.c.stop && !s.worker.running
    ensures Inv(s.(c := SetPhysical(s.c, false), withdrawn := true))
  {
    assert WorkerOk(s.c, s.worker);
    WithdrawnPhysical(s.c);
    hide Reconciled, AllFine, LogOk, WorkerOk, SetPhysical;
    PhysicalInv(s, s.worker, false);
  }

  lemma WithdrawnPhysical(c: Shared)
    requires Shape(c) && AirOk(c)
    ensures !SetPhysical(c, false).physical
  {
    PhysicalGood(c, false);
    hide AirOk, Reconciled, SetPhysical;
  }

  lemma InitInv(s: State)
    requires Init(s)
    ensures Inv(s)
  {
    assert OnAir([]) == {};
  }

  lemma {:induction false} RunInv(s: State, steps: seq<Step>)
    requires Init(s)
    ensures Inv(Run(s, steps))
    decreases |steps|
  {
    hide Inv, Take;
    if steps == [] {
      InitInv(s);
    } else {
      RunInv(s, steps[..|steps| - 1]);
      TakeInv(Run(s, steps[..|steps| - 1]), steps[|steps| - 1]);
    }
  }

  /** In every run, whenever the lock is free: a camera is advertised exactly on the foreground slot, if
    * that slot has a session, permission and an enabled profile and the device is there; and at no moment,
    * inside a locked section included, have the servers been told of two. */
  lemma OneCameraAdvertised(s: State, steps: seq<Step>)
    requires Init(s)
    ensures var c := Run(s, steps).c;
            && (forall i :: 0 <= i < SLOTS ==> c.slots[i].advertised == Wanted(c, i))
            && (forall i :: 0 <= i < SLOTS ==> (i in OnAir(c.calls) <==> c.slots[i].advertised))
            && NeverTwo(c.calls)
  {
    RunInv(s, steps);
    hide Run, NeverTwo, OnAir, Wanted, WorkerOk, AllFine, LogOk;
  }

  /** In every run: a picture submitted to a session was ingested under the very tenure it is submitted
    * in, away-and-back changes of the foreground included. */
  lemma SubmittedInTenure(s: State, steps: seq<Step>, j: nat)
    requires Init(s) && j < |Run(s, steps).c.calls| && Run(s, steps).c.calls[j].Submit?
    ensures Proper(Run(s, steps).c.calls[j])
  {
    RunInv(s, steps);
    hide Run, Proper, WorkerOk, AllFine, Reconciled;
  }

  /** In every run: since a slot's last stream start, the mailbox has taken no more answers, pictures and
    * errors together, than there were sample requests. */
  lemma AnswersWithinRequests(s: State, steps: seq<Step>, i: nat)
    requires Init(s) && i < SLOTS
    ensures var slot := Run(s, steps).c.slots[i]; slot.credit <= 1 && slot.answered + slot.credit <= slot.asked
  {
    RunInv(s, steps);
    assert SlotFine(Run(s, steps).c.slots[i]);
    hide Run, WorkerOk, Reconciled, LogOk;
  }

  // -------------------------------------------------------- the microphone

  predicate SameAudio(c: Shared, d: Shared) {
    && Shape(c) && Shape(d) && d.stateGen == c.stateGen
    && forall i :: 0 <= i < SLOTS ==>
         && d.slots[i].session == c.slots[i].session && d.slots[i].audioStreaming == c.slots[i].audioStreaming
         && d.slots[i].audioGeneration == c.slots[i].audioGeneration
  }

  lemma {:induction false} LoopsKeepAudio(c: Shared, n: nat)
    requires Shape(c) && n <= SLOTS
    ensures SameAudio(c, Withdraw(c, n)) && SameAudio(c, Advertise(c, n))
  {
    hide Wanted;
    if n > 0 { LoopsKeepAudio(c, n - 1); }
  }

  lemma {:induction false} GatesKeepAudio(c: Shared, keep: Option<nat>, taken: seq<bool>, n: nat)
    requires Shape(c) && n <= SLOTS
    ensures SameAudio(c, CloseGates(c, keep, taken, n))
  {
    if n > 0 { GatesKeepAudio(c, keep, taken, n - 1); }
  }

  lemma ForegroundKeepsAudio(c: Shared, slot: Option<nat>, taken: seq<bool>)
    requires Shape(c) && (slot.Some? ==> slot.value < SLOTS)
    ensures SameAudio(c, SetForeground(c, slot, taken)) && SetForeground(c, slot, taken).foreground == slot
  {
    GatesKeepAudio(c, slot, taken, SLOTS);
    var d := HandOver(c, slot, taken);
    var e := if slot.Some? && d.slots[slot.value].session.Some? then Told(d, Active(slot.value, true)) else d;
    LoopsKeepAudio(e, SLOTS);
    LoopsKeepAudio(Withdraw(e, SLOTS), SLOTS);
    LoopsKeepOwner(e, SLOTS);
    LoopsKeepOwner(Withdraw(e, SLOTS), SLOTS);
    hide CloseGates, Withdraw, Advertise;
  }

  lemma {:induction false} LoopsKeepOwner(c: Shared, n: nat)
    requires Shape(c) && n <= SLOTS
    ensures Withdraw(c, n).foreground == c.foreground && Advertise(c, n).foreground == c.foreground
  {
    hide Wanted;
    if n > 0 { LoopsKeepOwner(c, n - 1); }
  }

  /** The microphone gate knows no owner epoch: a packet collected before the foreground went away is
    * held back while it is away and let through once it is back, unlike a camera picture. */
  lemma PcmAwayAndBack(c: Shared, i: nat, session: Option<nat>, stateGen: nat, generation: nat,
          first: seq<bool>, second: seq<bool>)
    requires Shape(c) && MaySendPcm(c, i, session, stateGen, generation)
    ensures var away := SetForeground(c, None, first); var back := SetForeground(away, Some(i), second);
            && !MaySendPcm(away, i, session, stateGen, generation)
            && MaySendPcm(back, i, session, stateGen, generation)
  {
    ForegroundKeepsAudio(c, None, first);
    ForegroundKeepsAudio(SetForeground(c, None, first), Some(i), second);
    hide SetForeground;
  }
}
