// What every run of the session-switch protocol keeps about the four slots.
module SwitchInvariant {
  import opened Bytes
  import opened AuSnapshot
  import opened VideoScan
  import opened VideoCore
  import opened SwitchMachine

  /** The slot rule: pending and suppressed exclude each other, an armed cache of a live session is
    * being filled or kept, and the slot on screen is none of the three. */
  predicate SlotOk(s: State, i: nat)
    requires Shape(s) && i < SLOTS
  {
    var c, armed := s.ctl[i], s.core.slots[i].snap.armed;
    && !(c.pending && c.suppressed)
    && (!c.rdp ==> !c.pending && !c.suppressed)
    && (c.rdp && armed ==> c.pending || c.suppressed)
    && (c.rdp && i == s.core.active ==> !c.pending && !c.suppressed && !armed)
  }

  // ------------------------------------------------- between two operations

  /** Acts that have a slot half-way through a change. */
  predicate InHand(a: Act, i: nat) {
    match a
    case Connect(j, _, _) => i == j
    case ArmCache(j, _) => i == j
    case Launch(j, _) => i == j
    case Settle(j) => i == j
    case SettlePrepared(j) => i == j
    case Resume(j, _) => i == j
    case ReplayCache(j) => i == j
    case Prepare(j) => i == j
    case _ => false
  }

  predicate Exempt(s: State, i: nat) {
    InHand(s.cur, i) || (s.rest != [] && s.rest[0].Resume? && s.rest[0].i == i)
  }

  predicate Bare(s: State, i: nat)
    requires Shape(s) && i < SLOTS
  {
    !s.ctl[i].pending && !s.ctl[i].suppressed
  }

  /** What an act finds when its turn comes. */
  predicate Need(s: State, a: Act)
    requires Shape(s)
  {
    ActInRange(a) &&
    match a
    case Idle => true
    case Handoff(i) => true
    case Background(i) =>
      i != s.core.active && (s.ctl[i].rdp ==> Bare(s, i) && !s.core.slots[i].snap.armed)
    case Connect(i, arm, after) => arm == !after.JustConnect? && (arm ==> i != s.core.active)
    case ArmCache(i, after) => !after.JustConnect? && i != s.core.active && !s.ctl[i].rdp && Bare(s, i)
    case Launch(i, after) =>
      && !s.ctl[i].rdp && Bare(s, i) && s.core.slots[i].snap.aus == [] && !s.core.slots[i].snap.seeded
      && (if after.JustConnect? then !s.core.slots[i].snap.armed else i != s.core.active)
    case Settle(i) => i != s.core.active && s.ctl[i].rdp && Bare(s, i)
    case SettlePrepared(i) => i != s.core.active && s.ctl[i].rdp && Bare(s, i)
    case Resume(i, had) =>
      && i == s.core.active && s.ctl[i].rdp && !s.ctl[i].pending
      && (had ==> !s.core.slots[i].snap.armed && !s.ctl[i].suppressed)
      && (s.core.slots[i].snap.armed ==> s.ctl[i].suppressed)
    case ReplayCache(i) => i == s.core.active && s.ctl[i].rdp && Bare(s, i)
    case Prepare(i) =>
      && i != s.core.active && s.ctl[i].rdp && !(s.ctl[i].pending && s.ctl[i].suppressed)
      && (s.core.slots[i].snap.armed ==> s.ctl[i].pending || s.ctl[i].suppressed || s.ctl[i].ineffective)
    case ArmInPlace(i) => i != s.core.active && s.ctl[i].rdp
    case TickVoid(i) => i != s.core.active && s.ctl[i].rdp && s.ctl[i].pending
    case TickExpire(i) => i != s.core.active && s.ctl[i].rdp && s.ctl[i].pending
    case HubActivate(i) => !s.ctl[i].rdp
    case StopSlot(i) => true
  }

  /** The acts of native_background_slot, the only ones that run with more than a stop left to do. */
  predicate Demoting(a: Act) {
    match a
    case Background(_) => true
    case Connect(_, _, after) => after.ThenSettle?
    case ArmCache(_, after) => after.ThenSettle?
    case Launch(_, after) => after.ThenSettle?
    case Settle(_) => true
    case _ => false
  }

  predicate ShortRest(rest: seq<Act>) {
    |rest| == 0 || (|rest| == 1 && rest[0].StopSlot? && rest[0].i < SLOTS)
  }

  predicate Stacked(s: State) {
    || (ShortRest(s.rest) && (s.cur.Idle? || s.cur.HubActivate? ==> s.rest == []))
    || (Demoting(s.cur) && |s.rest| == 1 && s.rest[0].Connect? && s.rest[0].i < SLOTS
        && s.rest[0].after.JustConnect? && !s.rest[0].arm)
    || (Demoting(s.cur) && |s.rest| >= 1 && s.rest[0].Resume? && ShortRest(s.rest[1..]))
  }

  ghost predicate Inv(s: State) {
    && Shape(s)
    && Stacked(s)
    && Need(s, s.cur)
    && (s.rest != [] && s.rest[0].Resume? ==> Need(s, s.rest[0]))
    && forall i :: 0 <= i < SLOTS && !Exempt(s, i) ==> SlotOk(s, i)
  }

  lemma InitInv(s: State)
    requires Init(s)
    ensures Inv(s)
  {
  }

  // ----------------------------------------------------------- SDL steps

  /** Slot i may have changed, nothing else the rule speaks of has. */
  predicate Apart(s: State, t: State, i: nat)
    requires Shape(s)
  {
    && Shape(t) && i < SLOTS && t.core.active == s.core.active
    && t.ctl == s.ctl[i := t.ctl[i]] && t.core.slots == s.core.slots[i := t.core.slots[i]]
  }

  /** Popping the stack after slot i has been put in order. */
  lemma DoneInv(s: State, t: State, i: nat)
    requires Inv(s) && Apart(s, t, i) && t.rest == s.rest && !s.cur.Idle?
    requires s.cur.i == i && SlotOk(t, i)
    requires s.rest != [] && s.rest[0].Resume? ==> s.rest[0].i != i
    ensures Inv(Done(t))
  {
    var d := Done(t);
    forall k | 0 <= k < SLOTS && !Exempt(d, k) ensures SlotOk(d, k) {
      if k != i { assert !Exempt(s, k); assert SlotOk(s, k); }
    }
  }

  /** Moving on to another act on the same slot. */
  lemma GoInv(s: State, t: State, i: nat)
    requires Inv(s) && Apart(s, t, i) && t.rest == s.rest && !s.cur.Idle? && !t.cur.Idle?
    requires s.cur.i == i && t.cur.i == i && Need(t, t.cur) && (InHand(t.cur, i) || SlotOk(t, i))
    requires s.rest != [] && s.rest[0].Resume? ==> s.rest[0].i != i
    requires Demoting(s.cur) == Demoting(t.cur) && !t.cur.HubActivate?
    ensures Inv(t)
  {
    forall k | 0 <= k < SLOTS && !Exempt(t, k) ensures SlotOk(t, k) {
      if k != i { assert !Exempt(s, k); assert SlotOk(s, k); }
    }
  }

  lemma ExecInv(s: State, o: Choice)
    requires Inv(s) && !s.cur.Idle?
    ensures Inv(Exec(s, o))
  {
    match s.cur {
      case Handoff(i) => HandoffInv(s, i);
      case Background(i) => BackgroundInv(s, i);
      case Connect(i, arm, after) => ConnectInv(s, i, o);
      case ArmCache(i, after) => ArmCacheInv(s, i, o);
      case Launch(i, after) => LaunchInv(s, i, o);
      case Settle(i) => SettleInv(s, i);
      case SettlePrepared(i) => SettlePreparedInv(s, i);
      case Resume(i, had) => ResumeInv(s, i);
      case ReplayCache(i) => ReplayInv(s, i, o);
      case Prepare(i) => PrepareInv(s, i);
      case ArmInPlace(i) => ArmInPlaceInv(s, i, o);
      case TickVoid(i) => TickVoidInv(s, i, o);
      case TickExpire(i) => TickExpireInv(s, i);
      case HubActivate(i) => HubActivateInv(s, i);
      case StopSlot(i) => StopSlotInv(s, i);
    }
  }

  lemma HandoffInv(s: State, i: nat)
    requires Inv(s) && s.cur == Handoff(i)
    ensures Inv(HandingOff(s, i))
  {
    assert SlotOk(s, i) && SlotOk(s, s.core.active);
    var t := HandingOff(s, i);
    if !s.ctl[i].rdp || s.core.slots[i].failed || s.core.active == i {
      DoneInv(s, s, i);
    } else {
      HandoffSlots(s, i);
      assert t.rest[1..] == s.rest;
      hide SlotOk;
    }
  }

  lemma HandoffSlots(s: State, i: nat)
    requires Inv(s) && s.cur == Handoff(i) && s.ctl[i].rdp && !s.core.slots[i].failed && s.core.active != i
    ensures var t := HandingOff(s, i); forall k :: 0 <= k < SLOTS && !Exempt(t, k) ==> SlotOk(t, k)
  {
    var t := HandingOff(s, i);
    forall k | 0 <= k < SLOTS && !Exempt(t, k) ensures SlotOk(t, k) {
      assert SlotOk(s, k);
    }
  }

  lemma BackgroundInv(s: State, i: nat)
    requires Inv(s) && s.cur == Background(i)
    ensures Inv(Backgrounding(s, i))
  {
    assert SlotOk(s, i) by { assert !Exempt(s, i); }
    var c := s.ctl[i];
    if !c.rdp || c.suppressed {
      DoneInv(s, s, i);
    } else if (c.ineffective || s.force) && c.online {
      GoInv(s, Backgrounding(s, i), i);
    } else {
      DoneInv(s, SetCtl(s, i, c.(suppressed := true)), i);
    }
  }

  lemma ConnectInv(s: State, i: nat, o: Choice)
    requires Inv(s) && s.cur.Connect? && s.cur.i == i
    ensures Inv(Exec(s, o))
  {
    GoInv(s, Exec(s, o), i);
  }

  lemma ArmCacheInv(s: State, i: nat, o: Choice)
    requires Inv(s) && s.cur.ArmCache? && s.cur.i == i
    ensures Inv(Exec(s, o))
  {
    GoInv(s, Exec(s, o), i);
  }

  lemma LaunchInv(s: State, i: nat, o: Choice)
    requires Inv(s) && s.cur.Launch? && s.cur.i == i
    ensures Inv(Exec(s, o))
  {
    hide Report;
    var after := s.cur.after;
    var t := Launched(s, i, o);
    if !o.connects {
      DoneInv(s, if after == JustConnect(false) then t else t.(core := Report(t.core, i, false)), i);
    } else {
      var u := SetCtl(t, i, t.ctl[i].(rdp := true));
      match after {
        case JustConnect(_) => DoneInv(s, u, i);
        case ThenSettle => GoInv(s, u.(cur := Settle(i)), i);
        case ThenPrepared => GoInv(s, u.(cur := SettlePrepared(i)), i);
      }
    }
  }

  lemma SettleInv(s: State, i: nat)
    requires Inv(s) && s.cur == Settle(i)
    ensures Inv(Settling(s, i))
  {
    if s.core.slots[i].snap.armed {
      DoneInv(s, SetCtl(s, i, s.ctl[i].(pending := true)), i);
    } else {
      DoneInv(s, SetCtl(s, i, s.ctl[i].(suppressed := true)), i);
    }
  }

  /** Giving up on preparing a slot hands it the screen at once. */
  lemma ToHandoffInv(s: State, t: State, i: nat)
    requires Inv(s) && Apart(s, t, i) && t.rest == s.rest && !s.cur.Idle? && s.cur.i == i && !Demoting(s.cur)
    requires SlotOk(t, i)
    ensures Inv(t.(target := None, cur := Handoff(i)))
  {
    var d := t.(target := None, cur := Handoff(i));
    forall k | 0 <= k < SLOTS && !Exempt(d, k) ensures SlotOk(d, k) {
      if k != i { assert !Exempt(s, k); assert SlotOk(s, k); }
    }
  }

  lemma SettlePreparedInv(s: State, i: nat)
    requires Inv(s) && s.cur == SettlePrepared(i)
    ensures Inv(Prepared(s, i, s.core.slots[i].snap.armed))
  {
    if s.core.slots[i].snap.armed {
      DoneInv(s, SetCtl(s, i, s.ctl[i].(pending := true, suppressed := false)), i);
    } else {
      ToHandoffInv(s, s, i);
    }
  }

  lemma ResumeInv(s: State, i: nat)
    requires Inv(s) && s.cur.Resume? && s.cur.i == i
    ensures Inv(Resuming(s, i, s.cur.hadPending))
  {
    if s.cur.hadPending || !s.ctl[i].suppressed {
      DoneInv(s, s, i);
    } else {
      GoInv(s, Resuming(s, i, s.cur.hadPending), i);
    }
  }

  lemma ReplayInv(s: State, i: nat, o: Choice)
    requires Inv(s) && s.cur == ReplayCache(i)
    ensures Inv(Replaying(s, i, o))
  {
    hide Replay;
    var (core, ok) := Replay(s.core, i, o.now, o.envs);
    var t := s.(core := core);
    if !ok && !core.slots[i].failed && s.ctl[i].ineffective {
      GoInv(s, t.(cur := Connect(i, false, JustConnect(true))), i);
    } else {
      DoneInv(s, t, i);
    }
  }

  lemma PrepareInv(s: State, i: nat)
    requires Inv(s) && s.cur == Prepare(i)
    ensures Inv(Preparing(s, i))
  {
    var c := s.ctl[i];
    if c.pending {
      DoneInv(s, s, i);
    } else {
      GoInv(s, Preparing(s, i), i);
    }
  }

  lemma ArmInPlaceInv(s: State, i: nat, o: Choice)
    requires Inv(s) && s.cur == ArmInPlace(i)
    ensures Inv(Exec(s, o))
  {
    assert SlotOk(s, i) by { assert !Exempt(s, i); }
    var t := SetSnap(s, i, if o.memory then ARMED_EMPTY else DISARMED);
    if o.memory {
      DoneInv(s, SetCtl(t, i, t.ctl[i].(pending := true, suppressed := false)), i);
    } else {
      ToHandoffInv(s, t, i);
    }
  }

  lemma TickVoidInv(s: State, i: nat, o: Choice)
    requires Inv(s) && s.cur == TickVoid(i)
    ensures Inv(TickVoiding(s, i, o))
  {
    assert SlotOk(s, i) by { assert !Exempt(s, i); }
    var c := s.ctl[i];
    if !s.core.slots[i].snap.armed {
      AnswerInv(s, Suppressing(s, i), i);
    } else if !o.timedOut {
      DoneInv(s, s, i);
    } else {
      GoInv(s, TickVoiding(s, i, o), i);
    }
  }

  lemma AnswerInv(s: State, t: State, i: nat)
    requires Inv(s) && Apart(s, t, i) && t.rest == s.rest && t.target == s.target
      && !s.cur.Idle? && s.cur.i == i && !Demoting(s.cur)
    requires SlotOk(t, i)
    ensures Inv(AnswerPress(t, i))
  {
    if t.target == Some(i) {
      ToHandoffInv(s, t, i);
    } else {
      DoneInv(s, t, i);
    }
  }

  lemma TickExpireInv(s: State, i: nat)
    requires Inv(s) && s.cur == TickExpire(i)
    ensures Inv(AnswerPress(Suppressing(SetSnap(s, i, DISARMED), i), i))
  {
    AnswerInv(s, Suppressing(SetSnap(s, i, DISARMED), i), i);
  }

  lemma HubActivateInv(s: State, i: nat)
    requires Inv(s) && s.cur == HubActivate(i)
    ensures Inv(HubActivating(s, i))
  {
    var a := s.core.active;
    assert SlotOk(s, i) && SlotOk(s, a) by { assert !Exempt(s, i) && !Exempt(s, a); }
    var t := HubActivating(s, i);
    forall k | 0 <= k < SLOTS && !Exempt(t, k) ensures SlotOk(t, k) {
      assert SlotOk(s, k);
    }
  }

  lemma StopSlotInv(s: State, i: nat)
    requires Inv(s) && s.cur == StopSlot(i)
    ensures Inv(Done(Stopping(s, i)))
  {
    DoneInv(s, Stopping(s, i), i);
  }

  // --------------------------------------------------- starting an operation

  /** An operation starts on slots that all keep the rule, and may have touched one of them. */
  lemma BeginInv(s: State, t: State, i: nat)
    requires Inv(s) && s.cur.Idle? && Apart(s, t, i) && SlotOk(t, i)
    requires ShortRest(t.rest) && (t.cur.Idle? || t.cur.HubActivate? ==> t.rest == []) && Need(t, t.cur)
    ensures Inv(t)
  {
    forall k | 0 <= k < SLOTS && !Exempt(t, k) ensures SlotOk(t, k) {
      if k != i { assert !Exempt(s, k); assert SlotOk(s, k); }
    }
  }

  lemma StartInv(s: State, op: Op, o: Choice)
    requires Inv(s) && s.cur.Idle? && s.rest == [] && OpInRange(op)
    ensures Inv(Start(s, op, o))
  {
    assert Shape(s);
    hide Inv;
    match op {
      case Tick(i) => TickInv(s, i);
      case Deferred => DeferredInv(s, o);
      case Request(i) => RequestInv(s, i, o);
      case ShowHub => SameSlotsInv(s, s.(target := None));
      case Supervise(i, survivor) => SuperviseInv(s, i, survivor, o);
      case HubConnect(i) => HubConnectInv(s, i, o.flag);
      case Reconfigure(i) => ReconfigureInv(s, i);
      case StopSession(i) => StopSessionInv(s, i);
      case ChangeEndpoint(i) => EndpointInv(s, i);
      case Watchdog => WatchdogInv(s, o);
      case StopMedia => SameSlotsInv(s, s.(core := s.core.(video := None, canvas := None)));
    }
  }

  lemma SameSlotsInv(s: State, t: State)
    requires Inv(s) && s.cur.Idle? && t.cur == s.cur && t.rest == s.rest && Apart(s, t, 0)
    requires t.ctl[0] == s.ctl[0] && t.core.slots[0] == s.core.slots[0]
    ensures Inv(t)
  {
    SlotFine(s, 0);
    BeginInv(s, t, 0);
  }

  lemma TickInv(s: State, i: nat)
    requires Inv(s) && s.cur.Idle? && s.rest == [] && i < SLOTS
    ensures Inv(Ticking(s, i))
  {
    SlotFine(s, i);
    BeginInv(s, Ticking(s, i), i);
  }

  lemma SuperviseInv(s: State, i: nat, survivor: nat, o: Choice)
    requires Inv(s) && s.cur.Idle? && s.rest == [] && i < SLOTS
    ensures Inv(Supervising(s, i, survivor, o))
  {
    SlotFine(s, i);
    BeginInv(s, Supervising(s, i, survivor, o), i);
  }

  lemma HubConnectInv(s: State, i: nat, changed: bool)
    requires Inv(s) && s.cur.Idle? && s.rest == [] && i < SLOTS
    ensures Inv(if s.ctl[i].rdp && !s.ctl[i].online then s else Replaced(s, i, changed).(cur := HubActivate(i)))
  {
    SlotFine(s, i);
    BeginInv(s, Replaced(s, i, changed).(cur := HubActivate(i)), i);
  }

  lemma EndpointInv(s: State, i: nat)
    requires Inv(s) && s.cur.Idle? && s.rest == [] && i < SLOTS
    ensures Inv(if s.ctl[i].rdp then s else NewEndpoint(s, i))
  {
    SlotFine(s, i);
    BeginInv(s, NewEndpoint(s, i), i);
  }

  lemma ReconfigureInv(s: State, i: nat)
    requires Inv(s) && s.cur.Idle? && s.rest == [] && i < SLOTS
    ensures Inv(s.(cur := Connect(i, i != s.core.active, if i != s.core.active then ThenSettle else JustConnect(true))))
  {
    SlotFine(s, i);
    var after := if i != s.core.active then ThenSettle else JustConnect(true);
    BeginInv(s, s.(cur := Connect(i, i != s.core.active, after)), i);
  }

  lemma StopSessionInv(s: State, i: nat)
    requires Inv(s) && s.cur.Idle? && s.rest == [] && i < SLOTS
    ensures Inv(s.(cur := StopSlot(i)))
  {
    SlotFine(s, i);
    BeginInv(s, s.(cur := StopSlot(i)), i);
  }

  lemma WatchdogInv(s: State, o: Choice)
    requires Inv(s) && s.cur.Idle? && s.rest == []
    ensures Inv(Start(s, Watchdog, o))
  {
    SlotFine(s, s.core.active);
    BeginInv(s, Start(s, Watchdog, o), s.core.active);
  }

  lemma SlotFine(s: State, i: nat)
    requires Inv(s) && s.cur.Idle? && i < SLOTS
    ensures SlotOk(s, i)
  {
    assert !Exempt(s, i);
  }

  lemma DeferredInv(s: State, o: Choice)
    requires Inv(s) && s.cur.Idle? && s.rest == []
    ensures Inv(TickingDeferred(s, o))
  {
    if s.target.Some? && s.target.value < SLOTS {
      var i := s.target.value;
      SlotFine(s, i);
      BeginInv(s, TickingDeferred(s, o), i);
    }
  }

  lemma RequestInv(s: State, i: nat, o: Choice)
    requires Inv(s) && s.cur.Idle? && s.rest == [] && i < SLOTS
    ensures Inv(Requesting(s, i, o))
  {
    SlotFine(s, i);
    SlotFine(s, s.core.active);
    var t := Requesting(s, i, o);
    if !Live(s, i) && !s.ctl[i].rdp && s.core.active != i && !(i == s.core.active && s.target.Some?) {
      forall k | 0 <= k < SLOTS && !Exempt(t, k) ensures SlotOk(t, k) {
        SlotFine(s, k);
      }
    } else {
      BeginInv(s, t, i);
    }
  }

  // ---------------------------------------------------------- worker steps

  /** A worker may change its own connected slot and the shared decoder, and can only void a cache. */
  lemma WorkerInv(s: State, core: Core, i: nat)
    requires Inv(s) && i < SLOTS && s.ctl[i].rdp
    requires |core.slots| == SLOTS && core.active == s.core.active && core.slots == s.core.slots[i := core.slots[i]]
    requires core.slots[i].snap.armed ==> s.core.slots[i].snap.armed
    ensures Inv(s.(core := core))
  {
    var t := s.(core := core);
    assert Need(t, t.cur);
    forall k | 0 <= k < SLOTS && !Exempt(t, k) ensures SlotOk(t, k) {
      assert !Exempt(s, k) && SlotOk(s, k);
    }
  }

  lemma OnlineInv(s: State, i: nat, online: bool)
    requires Inv(s) && i < SLOTS
    ensures Inv(SetCtl(s, i, s.ctl[i].(online := online)))
  {
    var t := SetCtl(s, i, s.ctl[i].(online := online));
    forall k | 0 <= k < SLOTS && !Exempt(t, k) ensures SlotOk(t, k) {
      assert !Exempt(s, k) && SlotOk(s, k);
    }
  }

  lemma TraceInv(s: State, arrivals: seq<seq<Au>>)
    requires Inv(s) && |arrivals| == SLOTS
    ensures Inv(s.(arrivals := arrivals))
  {
    var t := s.(arrivals := arrivals);
    forall k | 0 <= k < SLOTS && !Exempt(t, k) ensures SlotOk(t, k) {
      assert !Exempt(s, k) && SlotOk(s, k);
    }
  }

  lemma ApplyInv(s: State, step: Step)
    requires Inv(s)
    ensures Inv(Apply(s, step))
  {
    hide Exec, Start, Ingest, Report, Bitmap;
    if Enabled(s, step) {
      match step {
        case Begin(op, o) => StartInv(s, op, o);
        case Sdl(o) => ExecInv(s, o);
        case Arrive(i, codec, memory, au, env) =>
          WorkerInv(s, IngestLive(s.core, i, codec, memory, au, env), i);
          TraceInv(s.(core := IngestLive(s.core, i, codec, memory, au, env)), s.arrivals[i := s.arrivals[i] + [au]]);
        case BitmapArrives(i, b) => WorkerInv(s, Bitmap(s.core, i, b).0, i);
        case FrameShown(i) => WorkerInv(s, Apply(s, step).core, i);
        case GoesOnline(i, online) => OnlineInv(s, i, online);
        case WorkerFails(i, nativeFailure) =>
          OnlineInv(s, i, false);
          WorkerInv(SetCtl(s, i, s.ctl[i].(online := false)), Report(s.core, i, nativeFailure), i);
        case Resize(i, w, h) => WorkerInv(s, Apply(s, step).core, i);
      }
    }
  }

  lemma {:induction false} RunInv(s: State, steps: seq<Step>)
    requires Inv(s)
    ensures Inv(Run(s, steps))
    decreases |steps|
  {
    hide Inv, Apply;
    if steps != [] {
      RunInv(s, steps[..|steps| - 1]);
      ApplyInv(Run(s, steps[..|steps| - 1]), steps[|steps| - 1]);
    }
  }

  /** Every interleaving, whenever the SDL thread is between two operations: no slot is both pending and
    * suppressed, an armed cache of a connected session is pending or suppressed, and the session on
    * screen is neither, with its cache disarmed. */
  lemma SlotRule(s: State, steps: seq<Step>)
    requires Init(s)
    ensures Shape(Run(s, steps))
    ensures Run(s, steps).cur.Idle? ==> forall i :: 0 <= i < SLOTS ==> SlotOk(Run(s, steps), i)
  {
    hide Run;
    InitInv(s);
    RunInv(s, steps);
    var t := Run(s, steps);
    if t.cur.Idle? {
      forall i | 0 <= i < SLOTS ensures SlotOk(t, i) { SlotFine(t, i); }
    }
  }

  /** With the SDL thread between two operations, no AU of the session on screen goes into its own cache. */
  lemma LiveNeverCached(s: State, steps: seq<Step>, codec: Codec, memory: bool, au: Au, env: Env)
    requires Init(s) && Run(s, steps).cur.Idle?
    requires Shape(Run(s, steps)) && Run(s, steps).ctl[Run(s, steps).core.active].rdp
    ensures var t := Run(s, steps); var a := t.core.active;
            IngestLive(t.core, a, codec, memory, au, env).slots[a].snap == t.core.slots[a].snap
  {
    hide Run, Ingest, IngestLive;
    SlotRule(s, steps);
    var t := Run(s, steps);
    assert SlotOk(t, t.core.active);
    DisarmedStays(t.core, t.core.active, codec, memory, au, env);
  }

  lemma DisarmedStays(c: Core, i: nat, codec: Codec, memory: bool, au: Au, env: Env)
    requires i < |c.slots| && !c.slots[i].snap.armed
    ensures IngestLive(c, i, codec, memory, au, env).slots[i].snap == c.slots[i].snap
  {
    hide Ingest;
  }
}
