// The session-switch protocol as a state machine. The SDL thread runs one
// operation at a time, cut into the steps between which a worker can hold
// video_lock; every worker callback is one step. Any interleaving is a run.
module SwitchMachine {
  import opened Bytes
  import opened AuSnapshot
  import opened VideoScan
  import opened VideoCore

  const SLOTS := 4

  /** The SDL thread's own bookkeeping for one slot. */
  datatype Ctl = Ctl(rdp: bool, online: bool, suppressed: bool, pending: bool, ineffective: bool, retryUsed: bool)

  /** What a connect was made for decides what follows it. */
  datatype After = JustConnect(reports: bool) | ThenSettle | ThenPrepared

  /** The next step of the SDL operation in progress. */
  datatype Act =
    | Idle
    | Handoff(i: nat)
    | Background(i: nat)
    | Connect(i: nat, arm: bool, after: After)
    | ArmCache(i: nat, after: After)
    | Launch(i: nat, after: After)
    | Settle(i: nat)
    | SettlePrepared(i: nat)
    | Resume(i: nat, hadPending: bool)
    | ReplayCache(i: nat)
    | Prepare(i: nat)
    | ArmInPlace(i: nat)
    | TickVoid(i: nat)
    | TickExpire(i: nat)
    | HubActivate(i: nat)
    | StopSlot(i: nat)

  /** cur is running; rest is what the enclosing functions still have to do. */
  datatype State = State(core: Core, ctl: seq<Ctl>, arrivals: seq<seq<Au>>, target: Option<nat>, force: bool,
                         cur: Act, rest: seq<Act>)

  /** Everything the outside world decides during one SDL step. */
  datatype Choice = Choice(flag: bool, memory: bool, connects: bool, timedOut: bool, now: nat,
                           width: nat, height: nat, envs: seq<Env>)

  datatype Op =
    | Tick(i: nat)
    | Deferred
    | Request(i: nat)
    | ShowHub
    | Supervise(i: nat, survivor: nat)
    | HubConnect(i: nat)
    | Reconfigure(i: nat)
    | StopSession(i: nat)
    | ChangeEndpoint(i: nat)
    | Watchdog
    | StopMedia

  datatype Step =
    | Begin(op: Op, choice: Choice)
    | Sdl(choice: Choice)
    | Arrive(i: nat, codec: Codec, memory: bool, au: Au, env: Env)
    | BitmapArrives(i: nat, bitmap: BitmapEnv)
    | FrameShown(i: nat)
    | GoesOnline(i: nat, online: bool)
    | WorkerFails(i: nat, nativeFailure: bool)
    | Resize(i: nat, width: nat, height: nat)

  predicate Shape(s: State) {
    |s.core.slots| == |s.ctl| == |s.arrivals| == SLOTS && s.core.active < SLOTS
  }

  // -------------------------------------------------------------- SDL steps

  function Done(s: State): State {
    if s.rest == [] then s.(cur := Idle) else s.(cur := s.rest[0], rest := s.rest[1..])
  }

  function SetCtl(s: State, i: nat, c: Ctl): State
    requires i < |s.ctl|
  {
    s.(ctl := s.ctl[i := c])
  }

  function SetSnap(s: State, i: nat, snap: Snap): State
    requires Shape(s) && i < SLOTS
  {
    s.(core := SetSlot(s.core, i, s.core.slots[i].(snap := snap)))
  }

  function IdrFalse(s: State, i: nat): State
    requires Shape(s) && i < SLOTS
  {
    s.(core := SetSlot(s.core, i, s.core.slots[i].(idrReady := false)))
  }

  /** native_stop_slot: the worker is joined, then the slot's stream state goes. */
  function Stopping(s: State, i: nat): State
    requires Shape(s) && i < SLOTS
  {
    var slot := s.core.slots[i].(snap := DISARMED, codec := H264, viaBitmap := false, idrReady := false,
                                 failed := false);
    SetCtl(s.(core := SetSlot(s.core, i, slot)), i,
           s.ctl[i].(rdp := false, pending := false, suppressed := false, online := false))
  }

  /** A new connection of slot i: its epoch, its terminal mark and its path counter start over. */
  function Launched(s: State, i: nat, o: Choice): State
    requires Shape(s) && i < SLOTS
  {
    var slot := s.core.slots[i];
    var next := slot.(epoch := slot.epoch + 1, pathSwitches := 0, terminal := false,
                      width := o.width, height := o.height);
    var core := SetSlot(s.core, i, next);
    s.(core := if core.active == i then core.(keyframePending := false) else core, arrivals := s.arrivals[i := []])
  }

  /** The part of native_slot_connect that follows the stop and the optional arming. */
  function Launching(s: State, i: nat, after: After, o: Choice): State
    requires Shape(s) && i < SLOTS
  {
    var t := Launched(s, i, o);
    if !o.connects then Done(if after == JustConnect(false) then t else t.(core := Report(t.core, i, false)))
    else
      var u := SetCtl(t, i, t.ctl[i].(rdp := true));
      match after
      case JustConnect(_) => Done(u)
      case ThenSettle => u.(cur := Settle(i))
      case ThenPrepared => u.(cur := SettlePrepared(i))
  }

  function Suppressing(s: State, i: nat): State
    requires Shape(s) && i < SLOTS
  {
    SetCtl(s, i, s.ctl[i].(suppressed := true, pending := false))
  }

  /** A prepared slot that lost its cache answers a waiting press with an immediate switch. */
  function AnswerPress(s: State, i: nat): State {
    if s.target == Some(i) then s.(target := None, cur := Handoff(i)) else Done(s)
  }

  /** The locked section of native_complete_session_switch. */
  function HandingOff(s: State, i: nat): State
    requires Shape(s) && i < SLOTS
  {
    if !s.ctl[i].rdp || s.core.slots[i].failed || s.core.active == i then Done(s)
    else
      var had := s.ctl[i].pending;
      var t := if had then IdrFalse(SetSnap(s, i, DISARMED), i) else s;
      var u := SetCtl(t, i, t.ctl[i].(pending := false));
      u.(core := u.core.(active := i, refreshNeeded := false, canvas := None), target := None,
         cur := Background(s.core.active), rest := [Resume(i, had)] + s.rest)
  }

  function Backgrounding(s: State, i: nat): State
    requires Shape(s) && i < SLOTS
  {
    var c := s.ctl[i];
    if !c.rdp || c.suppressed then Done(s)
    else if (c.ineffective || s.force) && c.online then s.(cur := Connect(i, true, ThenSettle))
    else Done(SetCtl(s, i, c.(suppressed := true)))
  }

  function Settling(s: State, i: nat): State
    requires Shape(s) && i < SLOTS
  {
    if s.core.slots[i].snap.armed then Done(SetCtl(s, i, s.ctl[i].(pending := true)))
    else Done(SetCtl(s, i, s.ctl[i].(suppressed := true)))
  }

  /** The end of native_prepare_pending_switch. */
  function Prepared(s: State, i: nat, armed: bool): State
    requires Shape(s) && i < SLOTS
  {
    if !armed then s.(target := None, cur := Handoff(i))
    else Done(SetCtl(s, i, s.ctl[i].(pending := true, suppressed := false)))
  }

  function Preparing(s: State, i: nat): State
    requires Shape(s) && i < SLOTS
  {
    var c := s.ctl[i];
    if c.pending then Done(s)
    else if c.ineffective || s.force then SetCtl(s, i, c.(retryUsed := true)).(cur := Connect(i, true, ThenPrepared))
    else IdrFalse(s, i).(cur := ArmInPlace(i))
  }

  function Resuming(s: State, i: nat, hadPending: bool): State
    requires Shape(s) && i < SLOTS
  {
    if hadPending || !s.ctl[i].suppressed then Done(s)
    else SetCtl(s, i, s.ctl[i].(suppressed := false)).(cur := ReplayCache(i))
  }

  function Replaying(s: State, i: nat, o: Choice): State
    requires Shape(s) && i < SLOTS
  {
    var (core, ok) := Replay(s.core, i, o.now, o.envs);
    var t := s.(core := core);
    if !ok && !core.slots[i].failed && s.ctl[i].ineffective then t.(cur := Connect(i, false, JustConnect(true)))
    else Done(t)
  }

  function TickVoiding(s: State, i: nat, o: Choice): State
    requires Shape(s) && i < SLOTS
  {
    var c := s.ctl[i];
    if !s.core.slots[i].snap.armed then AnswerPress(Suppressing(s, i), i)
    else if !o.timedOut then Done(s)
    else if s.target == Some(i) && !c.retryUsed && !s.core.slots[i].viaBitmap
    then SetCtl(s, i, c.(ineffective := true, pending := false)).(cur := Prepare(i))
    else s.(cur := TickExpire(i))
  }

  function HubActivating(s: State, i: nat): State
    requires Shape(s) && i < SLOTS
  {
    var old_ := s.core.active;
    var t := s.(target := None, core := s.core.(active := i, refreshNeeded := false, canvas := None));
    if old_ != i then t.(cur := Background(old_), rest := [Connect(i, false, JustConnect(false))] + t.rest)
    else t.(cur := Connect(i, false, JustConnect(false)))
  }

  predicate ActInRange(a: Act) {
    a.Idle? || a.i < SLOTS
  }

  function Exec(s: State, o: Choice): State
    requires Shape(s) && ActInRange(s.cur)
  {
    match s.cur
    case Idle => s
    case Handoff(i) => HandingOff(s, i)
    case Background(i) => Backgrounding(s, i)
    case Connect(i, arm, after) => Stopping(s, i).(cur := if arm then ArmCache(i, after) else Launch(i, after))
    case ArmCache(i, after) =>
      SetSnap(IdrFalse(s, i), i, if o.memory then ARMED_EMPTY else DISARMED).(cur := Launch(i, after))
    case Launch(i, after) => Launching(s, i, after, o)
    case Settle(i) => Settling(s, i)
    case SettlePrepared(i) => Prepared(s, i, s.core.slots[i].snap.armed)
    case Resume(i, had) => Resuming(s, i, had)
    case ReplayCache(i) => Replaying(s, i, o)
    case Prepare(i) => Preparing(s, i)
    case ArmInPlace(i) => Prepared(SetSnap(s, i, if o.memory then ARMED_EMPTY else DISARMED), i, o.memory)
    case TickVoid(i) => TickVoiding(s, i, o)
    case TickExpire(i) => AnswerPress(Suppressing(SetSnap(s, i, DISARMED), i), i)
    case HubActivate(i) => HubActivating(s, i)
    case StopSlot(i) => Done(Stopping(s, i))
  }

  // --------------------------------------------------- starting an operation

  predicate Quiet(s: State, i: nat, now: nat)
    requires Shape(s) && i < SLOTS
  {
    Wrap32(Wrap32(now) - s.core.slots[i].lastAuMs) >= QUIET_MS
  }

  /** native_slot_is_live_stream_target. */
  predicate Live(s: State, i: nat)
    requires Shape(s) && i < SLOTS
  {
    s.ctl[i].rdp && !s.core.slots[i].failed && (s.ctl[i].online || s.ctl[i].pending)
  }

  function Ticking(s: State, i: nat): State
    requires Shape(s) && i < SLOTS
  {
    var c := s.ctl[i];
    if !c.pending || i == s.core.active || !c.rdp || !c.online then s
    else if s.core.slots[i].idrReady then Suppressing(s, i)
    else s.(cur := TickVoid(i))
  }

  function TickingDeferred(s: State, o: Choice): State
    requires Shape(s)
  {
    if s.target.None? || s.target.value >= SLOTS then s
    else
      var i := s.target.value;
      var c := s.ctl[i];
      if !c.rdp || s.core.slots[i].failed then s.(target := None)
      else if (!c.pending && c.suppressed && s.core.slots[i].idrReady && Quiet(s, i, o.now)) || o.timedOut
      then s.(target := None, cur := Handoff(i))
      else s
  }

  /** A live target either takes the screen now or is prepared behind the current stream. */
  function RequestLive(s: State, i: nat, o: Choice): State
    requires Shape(s) && i < SLOTS
  {
    var c, slot := s.ctl[i], s.core.slots[i];
    if (i == s.core.active && o.flag) || s.target == Some(i) then s
    else if slot.viaBitmap || (!c.pending && (!c.suppressed || (slot.idrReady && Quiet(s, i, o.now))))
    then s.(target := None, cur := Handoff(i))
    else
      var t := SetCtl(s, i, c.(retryUsed := false)).(target := Some(i));
      if c.suppressed && slot.idrReady then t else t.(cur := Prepare(i))
  }

  function Requesting(s: State, i: nat, o: Choice): State
    requires Shape(s) && i < SLOTS
  {
    if i == s.core.active && s.target.Some? then s.(target := None)
    else if Live(s, i) then RequestLive(s, i, o)
    else if s.ctl[i].rdp then s
    else if s.core.active == i then s.(target := None)
    else s.(target := None, cur := Background(s.core.active), core := s.core.(active := i, canvas := None))
  }

  function Supervising(s: State, i: nat, survivor: nat, o: Choice): State
    requires Shape(s) && i < SLOTS
  {
    if !s.core.slots[i].failed then s
    else if && i == s.core.active && o.flag && survivor < SLOTS && survivor != i
            && Live(s, survivor) && s.ctl[survivor].online
    then s.(cur := Handoff(survivor), rest := [StopSlot(i)])
    else s.(cur := StopSlot(i))
  }

  predicate OpInRange(op: Op) {
    match op
    case Tick(i) => i < SLOTS
    case Request(i) => i < SLOTS
    case Supervise(i, _) => i < SLOTS
    case HubConnect(i) => i < SLOTS
    case Reconfigure(i) => i < SLOTS
    case StopSession(i) => i < SLOTS
    case ChangeEndpoint(i) => i < SLOTS
    case _ => true
  }

  /** A slot with another endpoint has not yet shown that asking for a key frame is in vain there. */
  function NewEndpoint(s: State, i: nat): State
    requires Shape(s) && i < SLOTS
  {
    SetCtl(s, i, s.ctl[i].(ineffective := false))
  }

  /** A connect from the HUB stops what runs in the slot and may give it another endpoint. */
  function Replaced(s: State, i: nat, changed: bool): State
    requires Shape(s) && i < SLOTS
  {
    var t := Stopping(s, i);
    if changed then NewEndpoint(t, i) else t
  }

  function Start(s: State, op: Op, o: Choice): State
    requires Shape(s) && OpInRange(op)
  {
    match op
    case Tick(i) => Ticking(s, i)
    case Deferred => TickingDeferred(s, o)
    case Request(i) => Requesting(s, i, o)
    case ShowHub => s.(target := None)
    case Supervise(i, survivor) => Supervising(s, i, survivor, o)
    case HubConnect(i) =>
      if s.ctl[i].rdp && !s.ctl[i].online then s else Replaced(s, i, o.flag).(cur := HubActivate(i))
    case Reconfigure(i) =>
      if !s.ctl[i].rdp then s
      else if i != s.core.active then s.(cur := Connect(i, true, ThenSettle))
      else s.(cur := Connect(i, false, JustConnect(true)))
    case StopSession(i) => s.(cur := StopSlot(i))
    case ChangeEndpoint(i) => if s.ctl[i].rdp then s else NewEndpoint(s, i)
    case Watchdog =>
      var a := s.core.active;
      if !s.ctl[a].rdp || !s.ctl[a].online then s
      else SetCtl(s, a, s.ctl[a].(ineffective := true)).(cur := Connect(a, false, JustConnect(true)))
    case StopMedia => s.(core := s.core.(video := None, canvas := None))
  }

  // ------------------------------------------------------------------- runs

  predicate Enabled(s: State, step: Step) {
    && Shape(s)
    && match step
       case Begin(op, _) => s.cur.Idle? && s.rest == [] && OpInRange(op)
       case Sdl(_) => !s.cur.Idle? && s.cur.i < SLOTS
       case Arrive(i, _, _, _, _) => i < SLOTS && s.ctl[i].rdp
       case BitmapArrives(i, _) => i < SLOTS && s.ctl[i].rdp
       case FrameShown(i) => i < SLOTS && s.ctl[i].rdp
       case GoesOnline(i, _) => i < SLOTS && s.ctl[i].rdp
       case WorkerFails(i, _) => i < SLOTS && s.ctl[i].rdp
       case Resize(i, _, _) => i < SLOTS && s.ctl[i].rdp
  }

  /** A step that is not enabled leaves the state alone, so any list of steps is a run. */
  function Apply(s: State, step: Step): State {
    if !Enabled(s, step) then s
    else match step
      case Begin(op, o) => Start(s, op, o)
      case Sdl(o) => Exec(s, o)
      case Arrive(i, codec, memory, au, env) =>
        s.(core := IngestLive(s.core, i, codec, memory, au, env), arrivals := s.arrivals[i := s.arrivals[i] + [au]])
      case BitmapArrives(i, b) => s.(core := Bitmap(s.core, i, b).0)
      case FrameShown(i) =>
        s.(core := SetSlot(s.core, i, s.core.slots[i].(okFrames := s.core.slots[i].okFrames + 1)))
      case GoesOnline(i, online) => SetCtl(s, i, s.ctl[i].(online := online))
      case WorkerFails(i, nativeFailure) =>
        SetCtl(s, i, s.ctl[i].(online := false)).(core := Report(s.core, i, nativeFailure))
      case Resize(i, w, h) => s.(core := SetSlot(s.core, i, s.core.slots[i].(width := w, height := h)))
  }

  function Run(s: State, steps: seq<Step>): State {
    if steps == [] then s else Apply(Run(s, steps[..|steps| - 1]), steps[|steps| - 1])
  }

  const OFFLINE := Ctl(false, false, false, false, false, false)
  const NEW_SLOT := Slot(0, H264, DISARMED, false, 0, false, false, false, 0, 0, 0, 0)

  /** Before the first connect. */
  ghost predicate Init(s: State) {
    && s.core.slots == seq(SLOTS, _ => NEW_SLOT) && s.core.active < SLOTS && s.core.running
    && s.core.video.None? && s.core.canvas.None? && s.core.feeds == [] && s.core.decoders == 0
    && s.ctl == seq(SLOTS, _ => OFFLINE) && s.arrivals == seq(SLOTS, _ => [])
    && s.target.None? && s.cur.Idle? && s.rest == []
  }
}
