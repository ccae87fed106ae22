// What a slot's cache holds in terms of the AUs its connection has delivered.
module SwitchCache {
  import opened Bytes
  import opened AuSnapshot
  import opened VideoScan
  import opened VideoCore
  import opened VideoTenure
  import opened SwitchMachine
  import opened SwitchInvariant

  /** A seeded cache is the newest stretch of the connection's arrivals: a seed, then valid AUs that
    * seed nothing, with none missing. A disarmed or unseeded cache is empty. */
  predicate CacheMeans(codec: Codec, snap: Snap, arrived: seq<Au>) {
    && (!snap.armed ==> snap == DISARMED)
    && (if !snap.seeded then snap.aus == []
        else
          && 0 < |snap.aus| <= |arrived|
          && snap.aus == arrived[|arrived| - |snap.aus|..]
          && ScanVerdict(codec, snap.aus[0].data) == Seed
          && forall j :: 0 < j < |snap.aus| ==> ScanVerdict(codec, snap.aus[j].data) == Plain)
  }

  lemma CacheAppend(codec: Codec, snap: Snap, arrived: seq<Au>, au: Au)
    requires CacheMeans(codec, snap, arrived)
    ensures var v := ScanVerdict(codec, au.data);
            CacheMeans(codec, Append(snap, au, v != Malformed, v == Seed).0, arrived + [au])
  {
    hide ScanVerdict, Used;
    var v := ScanVerdict(codec, au.data);
    var s := Append(snap, au, v != Malformed, v == Seed).0;
    if s.seeded {
      var all := arrived + [au];
      if v == Seed {
        assert s.aus == [au];
      } else {
        assert s.aus == snap.aus + [au];
        assert all[|all| - |s.aus|..] == arrived[|arrived| - |snap.aus|..] + [au];
      }
    }
  }

  lemma IngestCache(c: Core, i: nat, au: Au, env: Env, arrived: seq<Au>)
    requires i < |c.slots| && CacheMeans(c.slots[i].codec, c.slots[i].snap, arrived)
    ensures var d := Ingest(c, i, au, env);
            CacheMeans(d.slots[i].codec, d.slots[i].snap, arrived + [au])
  {
    CacheAppend(c.slots[i].codec, c.slots[i].snap, arrived, au);
    hide ScanVerdict, Shown, Append;
  }

  predicate SlotTrue(s: State, i: nat)
    requires Shape(s) && i < SLOTS
  {
    && CacheMeans(s.core.slots[i].codec, s.core.slots[i].snap, s.arrivals[i])
    && (s.ctl[i].rdp ==> Settled(s.core, i))
  }

  ghost predicate Facts(s: State) {
    Shape(s) && forall i :: 0 <= i < SLOTS ==> SlotTrue(s, i)
  }

  /** A step that touches one slot, never restarts the program, and leaves that slot's facts true. */
  lemma OneSlot(s: State, t: State, i: nat)
    requires Facts(s) && Shape(t) && i < SLOTS && SlotTrue(t, i)
    requires t.ctl == s.ctl[i := t.ctl[i]] && t.arrivals == s.arrivals[i := t.arrivals[i]]
    requires t.core.slots == s.core.slots[i := t.core.slots[i]] && (t.core.running ==> s.core.running)
    ensures Facts(t)
  {
    hide CacheMeans;
    forall k | 0 <= k < SLOTS ensures SlotTrue(t, k) {
      if k != i { assert SlotTrue(s, k); }
    }
  }

  /** Two slots may have their own bookkeeping changed while no stream state moves. */
  lemma SameStreams(s: State, t: State)
    requires Facts(s) && Shape(t) && t.arrivals == s.arrivals && (t.core.running ==> s.core.running)
    requires forall k :: 0 <= k < SLOTS ==> StreamSame(s, t, k)
    ensures Facts(t)
  {
    hide CacheMeans;
    forall k | 0 <= k < SLOTS ensures SlotTrue(t, k) {
      assert SlotTrue(s, k) && StreamSame(s, t, k);
    }
  }

  predicate StreamSame(s: State, t: State, k: nat)
    requires Shape(s) && Shape(t) && k < SLOTS
  {
    && t.core.slots[k].snap == s.core.slots[k].snap && t.core.slots[k].codec == s.core.slots[k].codec
    && t.core.slots[k].terminal == s.core.slots[k].terminal && t.core.slots[k].failed == s.core.slots[k].failed
    && (t.ctl[k].rdp ==> s.ctl[k].rdp)
  }

  lemma StopTrue(s: State, i: nat)
    requires Facts(s) && i < SLOTS
    ensures Facts(Stopping(s, i))
  {
    OneSlot(s, Stopping(s, i), i);
  }

  lemma SnapTrue(s: State, i: nat, snap: Snap)
    requires Facts(s) && i < SLOTS && (snap == DISARMED || snap == ARMED_EMPTY)
    ensures Facts(SetSnap(s, i, snap))
  {
    assert SlotTrue(s, i);
    OneSlot(s, SetSnap(s, i, snap), i);
  }

  lemma StartTrue(s: State, op: Op, o: Choice)
    requires Facts(s) && OpInRange(op)
    ensures Facts(Start(s, op, o))
  {
    assert Shape(s);
    hide CacheMeans, Facts;
    if op.HubConnect? {
      StopTrue(s, op.i);
      HubStartTrue(s, op.i, o.flag);
    } else {
      StartKeeps(s, op, o);
      hide Start;
      SameStreams(s, Start(s, op, o));
    }
  }

  lemma HubStartTrue(s: State, i: nat, changed: bool)
    requires Facts(s) && i < SLOTS && Facts(Stopping(s, i))
    ensures Facts(if s.ctl[i].rdp && !s.ctl[i].online then s else Replaced(s, i, changed).(cur := HubActivate(i)))
  {
    assert Shape(Stopping(s, i));
    hide Stopping, Facts;
    CtlTrue(Stopping(s, i), Replaced(s, i, changed).(cur := HubActivate(i)));
  }

  /** Starting an operation touches no stream, except that a connect from the hub first stops its slot. */
  lemma StartKeeps(s: State, op: Op, o: Choice)
    requires Shape(s) && OpInRange(op) && !op.HubConnect?
    ensures var t := Start(s, op, o);
            && Shape(t) && t.core.slots == s.core.slots && t.arrivals == s.arrivals && t.core.running == s.core.running
            && forall k :: 0 <= k < SLOTS ==> t.ctl[k].rdp == s.ctl[k].rdp
  {
    hide Ticking, TickingDeferred, Requesting, Supervising;
    match op {
      case Tick(i) => TickKeeps(s, i);
      case Deferred => DeferredKeeps(s, o);
      case Request(i) => RequestKeeps(s, i, o);
      case Supervise(i, survivor) => SuperviseKeeps(s, i, survivor, o);
      case _ =>
    }
  }

  lemma TickKeeps(s: State, i: nat)
    requires Shape(s) && i < SLOTS
    ensures var t := Ticking(s, i);
            t.core == s.core && t.arrivals == s.arrivals
            && |t.ctl| == SLOTS && forall k :: 0 <= k < SLOTS ==> t.ctl[k].rdp == s.ctl[k].rdp
  {
  }

  lemma DeferredKeeps(s: State, o: Choice)
    requires Shape(s)
    ensures var t := TickingDeferred(s, o); t.core == s.core && t.arrivals == s.arrivals && t.ctl == s.ctl
  {
  }

  lemma RequestKeeps(s: State, i: nat, o: Choice)
    requires Shape(s) && i < SLOTS
    ensures var t := Requesting(s, i, o);
            && Shape(t) && t.core.slots == s.core.slots && t.arrivals == s.arrivals && t.core.running == s.core.running
            && forall k :: 0 <= k < SLOTS ==> t.ctl[k].rdp == s.ctl[k].rdp
  {
    hide Live;
  }

  lemma SuperviseKeeps(s: State, i: nat, survivor: nat, o: Choice)
    requires Shape(s) && i < SLOTS
    ensures var t := Supervising(s, i, survivor, o); t.core == s.core && t.arrivals == s.arrivals && t.ctl == s.ctl
  {
  }

  lemma LaunchTrue(s: State, i: nat, after: After, o: Choice)
    requires Facts(s) && i < SLOTS && s.core.slots[i].snap.aus == [] && !s.core.slots[i].snap.seeded && !s.ctl[i].rdp
    ensures Facts(Launching(s, i, after, o))
  {
    hide Report, Framed;
    LaunchedTrue(s, i, o);
    var t := Launched(s, i, o);
    if o.connects {
      SameStreamsUp(t, SetCtl(t, i, t.ctl[i].(rdp := true)), i);
      CursorOnly(SetCtl(t, i, t.ctl[i].(rdp := true)), Launching(s, i, after, o));
    } else {
      ReportTrue(t, i);
      CursorOnly(if after == JustConnect(false) then t else t.(core := Report(t.core, i, false)),
                 Launching(s, i, after, o));
    }
  }

  lemma LaunchedTrue(s: State, i: nat, o: Choice)
    requires Facts(s) && i < SLOTS && s.core.slots[i].snap.aus == [] && !s.core.slots[i].snap.seeded && !s.ctl[i].rdp
    ensures Facts(Launched(s, i, o))
  {
    NewConnectionTrue(s, Launched(s, i, o), i);
  }

  lemma NewConnectionTrue(s: State, t: State, i: nat)
    requires Facts(s) && Shape(t) && i < SLOTS && t.arrivals == s.arrivals[i := []] && t.ctl == s.ctl
    requires t.core.slots == s.core.slots[i := t.core.slots[i]] && t.core.running == s.core.running
    requires t.core.slots[i].snap == s.core.slots[i].snap && !t.core.slots[i].terminal
    requires s.core.slots[i].snap.aus == [] && !s.core.slots[i].snap.seeded
    ensures Facts(t)
  {
    assert SlotTrue(s, i);
    hide ScanVerdict;
    OneSlot(s, t, i);
  }

  lemma ReportTrue(s: State, i: nat)
    requires Facts(s) && i < SLOTS && !s.ctl[i].rdp
    ensures Facts(s.(core := Report(s.core, i, false)))
  {
    assert SlotTrue(s, i);
    ReportStops(s.core, i, false);
    hide Report;
    OneSlot(s, s.(core := Report(s.core, i, false)), i);
  }

  /** A fresh connection has nothing terminal yet. */
  lemma SameStreamsUp(s: State, t: State, i: nat)
    requires Facts(s) && i < SLOTS && !s.core.slots[i].terminal
    requires t.core == s.core && t.arrivals == s.arrivals && t.ctl == s.ctl[i := s.ctl[i].(rdp := true)]
    ensures Facts(t)
  {
    assert SlotTrue(s, i);
    hide CacheMeans;
    OneSlot(s, t, i);
  }

  lemma ReplayTrue(s: State, i: nat, o: Choice)
    requires Facts(s) && i < SLOTS && s.ctl[i].rdp
    ensures Facts(Replaying(s, i, o))
  {
    assert SlotTrue(s, i);
    hide CacheMeans, Ingest, ScanVerdict;
    var d := SetSlot(s.core, i, s.core.slots[i].(snap := DISARMED, idrReady := false));
    ReplayOnward(d, i, s.core.slots[i].snap.aus, o.envs);
    hide ReplayAll;
    var (core, ok) := Replay(s.core, i, o.now, o.envs);
    EmptyMeans(core.slots[i].codec, s.arrivals[i]);
    OneSlot(s, s.(core := core), i);
    SameStreams(s.(core := core), Replaying(s, i, o));
  }

  lemma EmptyMeans(codec: Codec, arrived: seq<Au>)
    ensures CacheMeans(codec, DISARMED, arrived) && CacheMeans(codec, ARMED_EMPTY, arrived)
  {
  }

  lemma {:induction false} ReplayOnward(c: Core, i: nat, aus: seq<Au>, envs: seq<Env>)
    requires i < |c.slots| && Settled(c, i)
    ensures Onward(c, ReplayAll(c, i, aus, envs), i)
    decreases |aus|
  {
    hide Ingest, Report, MayEnter, Reached;
    if aus != [] {
      var n := |aus| - 1;
      ReplayOnward(c, i, aus[..n], envs);
      var d := ReplayAll(c, i, aus[..n], envs);
      IngestReaches(d, i, aus[n], EnvAt(envs, n));
      ReportStops(Ingest(d, i, aus[n], EnvAt(envs, n)), i, false);
    }
  }

  lemma ExecTrue(s: State, o: Choice)
    requires Facts(s) && ActInRange(s.cur) && Need(s, s.cur)
    ensures Facts(Exec(s, o))
  {
    assert Shape(s);
    assert Shape(s);
    if s.cur.Launch? || s.cur.ReplayCache? {
      hide Exec, Facts, Replaying, Launching;
      NeedTrue(s, o);
    } else {
      hide Need;
      OtherTrue(s, o);
    }
  }

  lemma NeedTrue(s: State, o: Choice)
    requires Facts(s) && (s.cur.Launch? || s.cur.ReplayCache?) && ActInRange(s.cur) && Need(s, s.cur)
    ensures Facts(Exec(s, o))
  {
    hide Facts, Replaying, Launching;
    if s.cur.Launch? { LaunchTrue(s, s.cur.i, s.cur.after, o); } else { ReplayTrue(s, s.cur.i, o); }
  }

  lemma OtherTrue(s: State, o: Choice)
    requires Facts(s) && Shape(s) && ActInRange(s.cur) && !s.cur.Launch? && !s.cur.ReplayCache?
    ensures Facts(Exec(s, o))
  {
    hide Facts, Done, Stopping, HandingOff, Backgrounding, Settling, Prepared, Resuming, Preparing, TickVoiding,
         HubActivating, AnswerPress, Suppressing, SetSnap, IdrFalse, Framed, Replaying, Launching;
    match s.cur {
      case Connect(i, _, _) => StopTrue(s, i); CursorOnly(Stopping(s, i), Exec(s, o));
      case StopSlot(i) => StopTrue(s, i); DoneTrue(Stopping(s, i));
      case ArmCache(i, _) => ArmTrue(s, i, o);
      case ArmInPlace(i) => ArmTrue(s, i, o);
      case Handoff(i) => SnapTrue(s, i, DISARMED); HandoffTrue(s, i);
      case TickExpire(i) => ExpireTrue(s, i);
      case TickVoid(i) => VoidTrue(s, i, o);
      case Background(i) => BackTrue(s, i);
      case Settle(i) => SettleTrue(s, i);
      case SettlePrepared(i) => PreparedTrue(s, i, s.core.slots[i].snap.armed);
      case Resume(i, had) => ResumeTrue(s, i, had);
      case Prepare(i) => PrepareTrue(s, i);
      case HubActivate(i) => HubTrue(s, i);
      case Idle =>
    }
  }

  lemma DoneTrue(s: State)
    requires Facts(s)
    ensures Facts(Done(s))
  {
    SameStreams(s, Done(s));
  }

  lemma CursorOnly(s: State, t: State)
    requires Facts(s) && t.core == s.core && t.ctl == s.ctl && t.arrivals == s.arrivals
    ensures Facts(t)
  {
    SameStreams(s, t);
  }

  /** Only the SDL thread's own bookkeeping moved. */
  lemma CtlTrue(s: State, t: State)
    requires Facts(s) && t.core == s.core && t.arrivals == s.arrivals && |t.ctl| == SLOTS
    requires forall k :: 0 <= k < SLOTS ==> (t.ctl[k].rdp ==> s.ctl[k].rdp)
    ensures Facts(t)
  {
    SameStreams(s, t);
  }

  lemma BackTrue(s: State, i: nat)
    requires Facts(s) && i < SLOTS
    ensures Facts(Backgrounding(s, i))
  {
    CtlTrue(s, Backgrounding(s, i));
  }

  lemma SettleTrue(s: State, i: nat)
    requires Facts(s) && i < SLOTS
    ensures Facts(Settling(s, i))
  {
    CtlTrue(s, Settling(s, i));
  }

  lemma PreparedTrue(s: State, i: nat, armed: bool)
    requires Facts(s) && i < SLOTS
    ensures Facts(Prepared(s, i, armed))
  {
    CtlTrue(s, Prepared(s, i, armed));
  }

  lemma ResumeTrue(s: State, i: nat, had: bool)
    requires Facts(s) && i < SLOTS
    ensures Facts(Resuming(s, i, had))
  {
    CtlTrue(s, Resuming(s, i, had));
  }

  lemma ExpireTrue(s: State, i: nat)
    requires Facts(s) && i < SLOTS
    ensures Facts(AnswerPress(Suppressing(SetSnap(s, i, DISARMED), i), i))
  {
    SnapTrue(s, i, DISARMED);
    SameStreams(SetSnap(s, i, DISARMED), AnswerPress(Suppressing(SetSnap(s, i, DISARMED), i), i));
  }

  lemma VoidTrue(s: State, i: nat, o: Choice)
    requires Facts(s) && i < SLOTS
    ensures Facts(TickVoiding(s, i, o))
  {
    SameStreams(s, TickVoiding(s, i, o));
  }

  lemma PrepareTrue(s: State, i: nat)
    requires Facts(s) && i < SLOTS
    ensures Facts(Preparing(s, i))
  {
    hide CacheMeans;
    SameStreams(s, Preparing(s, i));
  }

  lemma HubTrue(s: State, i: nat)
    requires Facts(s) && i < SLOTS
    ensures Facts(HubActivating(s, i))
  {
    SameStreams(s, HubActivating(s, i));
  }

  lemma ArmTrue(s: State, i: nat, o: Choice)
    requires Facts(s) && i < SLOTS && (s.cur.ArmCache? || s.cur.ArmInPlace?) && s.cur.i == i
    ensures Facts(Exec(s, o))
  {
    hide CacheMeans;
    var snap := if o.memory then ARMED_EMPTY else DISARMED;
    SnapTrue(s, i, snap);
    SameStreams(SetSnap(s, i, snap), Exec(s, o));
  }

  lemma HandoffTrue(s: State, i: nat)
    requires Facts(s) && i < SLOTS && Facts(SetSnap(s, i, DISARMED))
    ensures Facts(HandingOff(s, i))
  {
    hide CacheMeans;
    if s.ctl[i].pending {
      SameStreams(if HandingOff(s, i).core.active == s.core.active then s else SetSnap(s, i, DISARMED),
                  HandingOff(s, i));
    } else {
      SameStreams(s, HandingOff(s, i));
    }
  }

  lemma BitmapOnward(c: Core, i: nat, b: BitmapEnv)
    requires i < |c.slots|
    ensures Onward(c, Bitmap(c, i, b).0, i)
  {
    hide BitmapShown;
    BitmapShownOnward(SetSlot(c, i, c.slots[i].(viaBitmap := true)), i, b);
  }

  lemma BitmapShownOnward(c: Core, i: nat, b: BitmapEnv)
    requires i < |c.slots|
    ensures Onward(c, BitmapShown(c, i, b).0, i)
  {
    hide Report, CloseDecoder, Framed;
    ReportStops(c, i, true);
    CloseOnward(DropForeignCanvas(c, i), i);
  }

  lemma CloseOnward(c: Core, i: nat)
    requires i < |c.slots|
    ensures Onward(c, CloseDecoder(c, i).0, i)
  {
    PathStops(c.(video := None, keyframePending := false), i);
    hide PathSwitched;
  }

  lemma ArriveTrue(s: State, i: nat, codec: Codec, memory: bool, au: Au, env: Env)
    requires Facts(s) && i < SLOTS && s.ctl[i].rdp
    ensures Facts(s.(core := IngestLive(s.core, i, codec, memory, au, env),
                     arrivals := s.arrivals[i := s.arrivals[i] + [au]]))
  {
    assert SlotTrue(s, i);
    var d := Recode(s.core, i, codec, memory);
    RecodeMeans(s.core, i, codec, memory, s.arrivals[i]);
    hide CacheMeans, Ingest, MayEnter, Reached, Recode;
    IngestCache(d, i, au, env, s.arrivals[i]);
    IngestReaches(d, i, au, env);
    OneSlot(s, s.(core := IngestLive(s.core, i, codec, memory, au, env),
                  arrivals := s.arrivals[i := s.arrivals[i] + [au]]), i);
  }

  lemma RecodeMeans(c: Core, i: nat, codec: Codec, memory: bool, arrived: seq<Au>)
    requires i < |c.slots| && CacheMeans(c.slots[i].codec, c.slots[i].snap, arrived) && Settled(c, i)
    ensures var d := Recode(c, i, codec, memory);
            && CacheMeans(d.slots[i].codec, d.slots[i].snap, arrived) && Settled(d, i) && d.running == c.running
            && d.active == c.active && |d.slots| == |c.slots|
            && d.slots == c.slots[i := d.slots[i]] && d.feeds == c.feeds
  {
  }

  lemma ApplyTrue(s: State, step: Step)
    requires Facts(s) && Inv(s)
    ensures Facts(Apply(s, step))
  {
    hide CacheMeans, Exec, Start, Ingest, Report, Bitmap, IngestLive;
    if Enabled(s, step) {
      match step {
        case Begin(op, o) => StartTrue(s, op, o);
        case Sdl(o) => ExecTrue(s, o);
        case Arrive(i, codec, memory, au, env) => ArriveTrue(s, i, codec, memory, au, env);
        case BitmapArrives(i, b) =>
          BitmapOnward(s.core, i, b);
          assert SlotTrue(s, i);
          OneSlot(s, Apply(s, step), i);
        case WorkerFails(i, native) =>
          ReportStops(s.core, i, native);
          assert SlotTrue(s, i);
          OneSlot(s, Apply(s, step), i);
        case FrameShown(i) => SameStreams(s, Apply(s, step));
        case GoesOnline(i, _) => SameStreams(s, Apply(s, step));
        case Resize(i, _, _) => SameStreams(s, Apply(s, step));
      }
    }
  }

  lemma InitTrue(s: State)
    requires Init(s)
    ensures Facts(s)
  {
  }

  /** In every run the cache of every slot is what its name says. */
  lemma {:induction false} RunTrue(s: State, steps: seq<Step>)
    requires Init(s)
    ensures Inv(Run(s, steps)) && Facts(Run(s, steps))
    decreases |steps|
  {
    hide Inv, Apply;
    if steps == [] {
      InitInv(s);
      InitTrue(s);
    } else {
      var before := steps[..|steps| - 1];
      RunTrue(s, before);
      ApplyInv(Run(s, before), steps[|steps| - 1]);
      ApplyTrue(Run(s, before), steps[|steps| - 1]);
    }
  }
}
