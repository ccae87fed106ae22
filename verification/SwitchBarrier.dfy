// The handoff barrier: from the moment a backgrounded session takes the screen, its
// decoder input is its own stream from the newest cached seed on, without a gap.
module SwitchBarrier {
  import opened Bytes
  import opened AuSnapshot
  import opened VideoScan
  import opened VideoCore
  import opened VideoTenure
  import opened DecoderOwnership
  import opened SwitchMachine
  import opened SwitchInvariant
  import opened SwitchCache

  /** Slot i is on screen under one connection and one codec, and nothing has stopped it. */
  predicate OnScreen(s: State, i: nat, epoch: nat, codec: Codec) {
    && Shape(s) && i < SLOTS && s.core.active == i
    && s.core.slots[i].epoch == epoch && s.core.slots[i].codec == codec && !Stopped(s.core, i)
  }

  /** The feeds from position from on are slot i's arrivals from position k on; the arrivals extend base. */
  predicate Chain(s: State, i: nat, epoch: nat, codec: Codec, base: seq<Au>, k: nat, from: nat) {
    && OnScreen(s, i, epoch, codec) && !s.core.slots[i].snap.armed
    && !ForeignDecoder(s.core, i)
    && k <= |base| && base <= s.arrivals[i]
    && Delivered(s.core.feeds, from, i, epoch, codec, s.arrivals[i][k..])
  }

  /** A step that feeds nothing and leaves slot i's stream alone. */
  predicate Passive(s: State, t: State, i: nat) {
    && Shape(s) && Shape(t) && i < SLOTS && Untouched(s.core, t.core)
    && t.arrivals[i] == s.arrivals[i] && (t.core.slots[i].snap.armed ==> s.core.slots[i].snap.armed)
  }

  lemma PassiveChain(s: State, t: State, i: nat, epoch: nat, codec: Codec, base: seq<Au>, k: nat, from: nat)
    requires Chain(s, i, epoch, codec, base, k, from) && Passive(s, t, i) && OnScreen(t, i, epoch, codec)
    ensures Chain(t, i, epoch, codec, base, k, from)
  {
    hide Delivered;
  }

  lemma HubPassive(s: State, j: nat, o: Choice, i: nat)
    requires Shape(s) && i < SLOTS && j < SLOTS
    ensures StreamKept(s, Start(s, HubConnect(j), o), i)
  {
  }

  lemma StartPassive(s: State, op: Op, o: Choice, i: nat)
    requires Shape(s) && OpInRange(op) && i < SLOTS
    ensures Passive(s, Start(s, op, o), i)
  {
    StartUntouched(s, op, o);
    if op.HubConnect? {
      HubPassive(s, op.i, o, i);
      hide Untouched, Start;
    } else {
      StartKeeps(s, op, o);
      hide Untouched, Start;
    }
  }

  /** Slot i keeps its arrivals, and its cache is not armed anew. */
  predicate StreamKept(s: State, t: State, i: nat) {
    && Shape(s) && Shape(t) && i < SLOTS
    && t.arrivals[i] == s.arrivals[i] && (t.core.slots[i].snap.armed ==> s.core.slots[i].snap.armed)
  }

  lemma LaunchedKeeps(s: State, j: nat, o: Choice, i: nat)
    requires Shape(s) && i < SLOTS && j < SLOTS
    ensures Shape(Launched(s, j, o))
    ensures i != j ==> StreamKept(s, Launched(s, j, o), i)
    ensures Launched(s, j, o).core.slots[i].epoch == s.core.slots[i].epoch + if i == j then 1 else 0
  {
  }

  lemma LaunchKeeps(s: State, j: nat, after: After, o: Choice, i: nat)
    requires Shape(s) && i < SLOTS && j < SLOTS
    requires Shape(Launching(s, j, after, o)) && Launching(s, j, after, o).core.slots[i].epoch == s.core.slots[i].epoch
    ensures StreamKept(s, Launching(s, j, after, o), i)
  {
    hide Report, Launched;
    LaunchedKeeps(s, j, o, i);
  }

  lemma HandoffKeeps(s: State, j: nat, i: nat)
    requires Shape(s) && i < SLOTS && j < SLOTS
    ensures StreamKept(s, HandingOff(s, j), i)
  {
  }

  lemma VoidingKeeps(s: State, j: nat, o: Choice, i: nat)
    requires Shape(s) && i < SLOTS && j < SLOTS
    ensures StreamKept(s, TickVoiding(s, j, o), i)
    ensures StreamKept(s, AnswerPress(Suppressing(SetSnap(s, j, DISARMED), j), j), i)
  {
  }

  lemma MoveKeeps(s: State, j: nat, flag: bool, i: nat)
    requires Shape(s) && i < SLOTS && j < SLOTS
    ensures StreamKept(s, Backgrounding(s, j), i) && StreamKept(s, Settling(s, j), i)
    ensures StreamKept(s, Prepared(s, j, flag), i) && StreamKept(s, Resuming(s, j, flag), i)
  {
  }

  lemma PrepareKeeps(s: State, j: nat, i: nat)
    requires Shape(s) && i < SLOTS && j < SLOTS
    ensures StreamKept(s, Preparing(s, j), i) && StreamKept(s, HubActivating(s, j), i)
  {
  }

  lemma ArmKeeps(s: State, o: Choice, i: nat)
    requires Shape(s) && ActInRange(s.cur) && (s.cur.ArmCache? || s.cur.ArmInPlace?) && s.cur.i != i && i < SLOTS
    ensures StreamKept(s, Exec(s, o), i)
  {
    hide Prepared;
    var j := s.cur.i;
    if s.cur.ArmInPlace? { MoveKeeps(SetSnap(s, j, if o.memory then ARMED_EMPTY else DISARMED), j, o.memory, i); }
  }

  lemma StopKeeps(s: State, j: nat, i: nat)
    requires Shape(s) && i < SLOTS && j < SLOTS
    ensures StreamKept(s, Stopping(s, j), i) && StreamKept(s, Done(Stopping(s, j)), i)
  {
  }

  /** An SDL step other than a replay leaves the stream of the slot on screen alone unless it reconnects it. */
  lemma ExecKeeps(s: State, o: Choice, i: nat)
    requires Shape(s) && ActInRange(s.cur) && Need(s, s.cur) && !s.cur.Idle? && !s.cur.ReplayCache?
    requires s.core.active == i && Shape(Exec(s, o)) && Exec(s, o).core.slots[i].epoch == s.core.slots[i].epoch
    ensures StreamKept(s, Exec(s, o), i)
  {
    if s.cur.ArmCache? || s.cur.ArmInPlace? {
      hide Exec;
      ArmKeeps(s, o, i);
    } else {
      hide Need;
      PlainKeeps(s, o, i);
    }
  }

  lemma PlainKeeps(s: State, o: Choice, i: nat)
    requires Shape(s) && ActInRange(s.cur) && i < SLOTS
    requires !s.cur.Idle? && !s.cur.ReplayCache? && !s.cur.ArmCache? && !s.cur.ArmInPlace?
    requires Shape(Exec(s, o)) && Exec(s, o).core.slots[i].epoch == s.core.slots[i].epoch
    ensures StreamKept(s, Exec(s, o), i)
  {
    hide HandingOff, Backgrounding, Settling, Prepared, Resuming, Preparing, TickVoiding, HubActivating,
         AnswerPress, Stopping, Launching, Framed, Done;
    match s.cur {
      case Handoff(j) => HandoffKeeps(s, j, i);
      case Launch(j, after) => LaunchKeeps(s, j, after, o, i);
      case Connect(j, _, _) => StopKeeps(s, j, i);
      case StopSlot(j) => StopKeeps(s, j, i);
      case TickVoid(j) => VoidingKeeps(s, j, o, i);
      case TickExpire(j) => VoidingKeeps(s, j, o, i);
      case Background(j) => MoveKeeps(s, j, true, i);
      case Settle(j) => MoveKeeps(s, j, true, i);
      case SettlePrepared(j) => MoveKeeps(s, j, s.core.slots[j].snap.armed, i);
      case Resume(j, had) => MoveKeeps(s, j, had, i);
      case Prepare(j) => PrepareKeeps(s, j, i);
      case HubActivate(j) => PrepareKeeps(s, j, i);
    }
  }

  lemma ExecPassive(s: State, o: Choice, i: nat)
    requires Inv(s) && !s.cur.Idle? && !s.cur.ReplayCache? && s.core.active == i && i < SLOTS
    requires Shape(Exec(s, o)) && Exec(s, o).core.slots[i].epoch == s.core.slots[i].epoch
    ensures Passive(s, Exec(s, o), i)
  {
    assert Need(s, s.cur);
    hide Exec, Untouched, Inv, Need;
    ExecKeeps(s, o, i);
    ExecUntouched(s, o);
  }

  /** A slot on screen whose cache is disarmed has nothing to replay. */
  lemma EmptyReplayPassive(s: State, o: Choice, i: nat)
    requires Inv(s) && s.cur == ReplayCache(i) && i < SLOTS && !Ready(s.core.slots[i].snap)
    ensures Shape(Replaying(s, i, o)) && Passive(s, Replaying(s, i, o), i)
  {
  }

  lemma ReplayPassive(s: State, o: Choice, i: nat)
    requires Inv(s) && Facts(s) && s.cur.ReplayCache? && s.core.active == i && i < SLOTS && !s.core.slots[i].snap.armed
    ensures Passive(s, Exec(s, o), i)
  {
    assert SlotTrue(s, i);
    hide CacheMeans, Facts, Replaying, Untouched;
    EmptyReplayPassive(s, o, i);
  }

  lemma SamePassive(s: State, t: State, i: nat)
    requires Shape(s) && Shape(t) && i < SLOTS && t.arrivals == s.arrivals
    requires t.core == s.core.(slots := t.core.slots) && t.core.slots[i].snap == s.core.slots[i].snap
    ensures Passive(s, t, i)
  {
  }

  lemma IngestElsewhere(c: Core, j: nat, codec: Codec, memory: bool, au: Au, env: Env)
    requires j < |c.slots| && c.active != j
    ensures var d := IngestLive(c, j, codec, memory, au, env);
            && Untouched(c, d) && |d.slots| == |c.slots| && d.active == c.active
            && d.slots == c.slots[j := d.slots[j]]
  {
    hide ScanVerdict, Append;
  }

  /** The next AU of the slot on screen extends the chain. */
  lemma ArriveChain(s: State, i: nat, codec: Codec, memory: bool, au: Au, env: Env,
                    epoch: nat, kept: Codec, base: seq<Au>, k: nat, from: nat)
    requires Facts(s) && Chain(s, i, epoch, kept, base, k, from) && s.ctl[i].rdp
    requires OnScreen(s.(core := IngestLive(s.core, i, codec, memory, au, env)), i, epoch, kept)
    ensures Chain(s.(core := IngestLive(s.core, i, codec, memory, au, env),
                     arrivals := s.arrivals[i := s.arrivals[i] + [au]]),
                  i, epoch, kept, base, k, from)
  {
    assert SlotTrue(s, i);
    assert codec == kept by { hide Ingest, Facts, Delivered; }
    hide Ingest, CacheMeans, ScanVerdict, Facts;
    IngestReaches(s.core, i, au, env);
    var d := Ingest(s.core, i, au, env);
    assert (s.arrivals[i] + [au])[k..] == s.arrivals[i][k..] + [au];
    DeliveredMore(s.core.feeds, from, i, epoch, kept, s.arrivals[i][k..], d.feeds[|s.core.feeds|]);
  }

  lemma BitmapPassive(s: State, j: nat, b: BitmapEnv, i: nat)
    requires Shape(s) && i < SLOTS && j < SLOTS
    ensures Shape(s.(core := Bitmap(s.core, j, b).0)) && Passive(s, s.(core := Bitmap(s.core, j, b).0), i)
  {
    BitmapUntouched(s.core, j, b);
    hide BitmapShown;
  }

  lemma ElsewherePassive(s: State, j: nat, codec: Codec, memory: bool, au: Au, env: Env, i: nat)
    requires Shape(s) && i < SLOTS && j < SLOTS && i != j && s.core.active == i
    ensures var t := s.(core := IngestLive(s.core, j, codec, memory, au, env),
                        arrivals := s.arrivals[j := s.arrivals[j] + [au]]);
            Shape(t) && Passive(s, t, i)
  {
    hide IngestLive;
    IngestElsewhere(s.core, j, codec, memory, au, env);
  }

  lemma FailPassive(s: State, j: nat, native: bool, i: nat)
    requires Shape(s) && i < SLOTS && j < SLOTS
    ensures var t := SetCtl(s, j, s.ctl[j].(online := false)).(core := Report(s.core, j, native));
            Shape(t) && Passive(s, t, i)
  {
    hide Report;
    ReportUntouched(s.core, j, native);
  }

  /** One step of any thread keeps the chain while the slot stays on screen on that connection. */
  lemma StepChain(s: State, step: Step, i: nat, epoch: nat, codec: Codec, base: seq<Au>, k: nat, from: nat)
    requires Inv(s) && Facts(s) && Chain(s, i, epoch, codec, base, k, from) && OnScreen(Apply(s, step), i, epoch, codec)
    ensures Chain(Apply(s, step), i, epoch, codec, base, k, from)
  {
    if Enabled(s, step) {
      if step.Arrive? && step.i == i {
        hide Inv, Facts, Delivered, Ingest;
        ArriveChain(s, i, step.codec, step.memory, step.au, step.env, epoch, codec, base, k, from);
      } else {
        hide Chain, Apply;
        StepPassive(s, step, i, epoch, codec);
        PassiveChain(s, Apply(s, step), i, epoch, codec, base, k, from);
      }
    }
  }

  lemma StepPassive(s: State, step: Step, i: nat, epoch: nat, codec: Codec)
    requires Inv(s) && Facts(s) && Enabled(s, step) && !(step.Arrive? && step.i == i)
    requires OnScreen(s, i, epoch, codec) && !s.core.slots[i].snap.armed && OnScreen(Apply(s, step), i, epoch, codec)
    ensures Passive(s, Apply(s, step), i)
  {
    hide Exec, Start, Bitmap, Report, IngestLive, Untouched, Replaying, CacheMeans;
    match step {
      case Begin(op, o) => StartPassive(s, op, o, i);
      case Sdl(o) =>
        if s.cur.ReplayCache? {
          ReplayPassive(s, o, i);
        } else {
          ExecPassive(s, o, i);
        }
      case BitmapArrives(j, b) => BitmapPassive(s, j, b, i);
      case Arrive(j, c, memory, au, env) => ElsewherePassive(s, j, c, memory, au, env, i);
      case WorkerFails(j, native) => FailPassive(s, j, native, i);
      case _ => SamePassive(s, Apply(s, step), i);
    }
  }

  // ---------------------------------------------------------- the whole run

  /** The SDL thread is about to replay a cache that is ready and whose stream has been quiet. */
  predicate ReplayDue(s: State, i: nat, o: Choice) {
    Shape(s) && i < SLOTS && s.cur == ReplayCache(i) && Ready(s.core.slots[i].snap) && Quiet(s, i, o.now)
  }

  /** Position k of slot i's arrivals is a decoder seed, and only plain AUs have come since. */
  predicate SeedAt(s: State, i: nat, k: nat) {
    && Shape(s) && i < SLOTS && k < |s.arrivals[i]|
    && ScanVerdict(s.core.slots[i].codec, s.arrivals[i][k].data) == Seed
    && forall j :: k < j < |s.arrivals[i]| ==> ScanVerdict(s.core.slots[i].codec, s.arrivals[i][j].data) == Plain
  }

  lemma NewestStretch(codec: Codec, snap: Snap, arrived: seq<Au>) returns (k: nat)
    requires CacheMeans(codec, snap, arrived) && snap.seeded
    ensures |snap.aus| <= |arrived| && k == |arrived| - |snap.aus| < |arrived|
    ensures ScanVerdict(codec, arrived[k].data) == Seed
    ensures forall j :: k < j < |arrived| ==> ScanVerdict(codec, arrived[j].data) == Plain
  {
    hide ScanVerdict;
    k := |arrived| - |snap.aus|;
    assert arrived[k] == snap.aus[0];
    forall j | k < j < |arrived| ensures ScanVerdict(codec, arrived[j].data) == Plain {
      assert arrived[j] == snap.aus[j - k];
    }
  }

  lemma CacheStart(s: State, i: nat) returns (k: nat)
    requires Facts(s) && i < SLOTS && Ready(s.core.slots[i].snap)
    ensures k == |s.arrivals[i]| - |s.core.slots[i].snap.aus| && SeedAt(s, i, k)
  {
    assert SlotTrue(s, i);
    hide ScanVerdict, Facts, CacheMeans;
    k := NewestStretch(s.core.slots[i].codec, s.core.slots[i].snap, s.arrivals[i]);
  }

  lemma ReplayHandsOver(c: Core, i: nat, now: nat, envs: seq<Env>)
    requires i < |c.slots| && Settled(c, i) && c.active == i && Ready(c.slots[i].snap)
    requires Wrap32(Wrap32(now) - c.slots[i].lastAuMs) >= QUIET_MS
    requires ScanVerdict(c.slots[i].codec, c.slots[i].snap.aus[0].data) == Seed
    ensures var e := Replay(c, i, now, envs).0;
            !Stopped(e, i) ==>
              && Holds(e, i) && !e.slots[i].snap.armed
              && Delivered(e.feeds, |c.feeds|, i, e.slots[i].epoch, e.slots[i].codec, c.slots[i].snap.aus)
  {
    var d := SetSlot(c, i, c.slots[i].(snap := DISARMED, idrReady := false));
    hide Ingest, ScanVerdict, Delivered, Holds;
    ReplayDelivers(d, i, c.slots[i].snap.aus, envs);
    hide ReplayAll;
  }

  lemma ReplayingCore(s: State, i: nat, o: Choice)
    requires Shape(s) && i < SLOTS
    ensures var t := Replaying(s, i, o);
            t.core == Replay(s.core, i, o.now, o.envs).0 && t.ctl == s.ctl && t.arrivals == s.arrivals
  {
    hide Replay, Framed;
  }

  /** A replay of a ready, quiet cache starts the chain at the newest cached seed. */
  lemma ReplayStarts(s: State, o: Choice, i: nat, epoch: nat, codec: Codec) returns (k: nat)
    requires Facts(s) && ReplayDue(s, i, o) && s.core.active == i && s.ctl[i].rdp
    requires OnScreen(Replaying(s, i, o), i, epoch, codec)
    ensures SeedAt(s, i, k) && Chain(Replaying(s, i, o), i, epoch, codec, s.arrivals[i], k, |s.core.feeds|)
  {
    k := CacheStart(s, i);
    ReadyMeans(s, i);
    hide Facts, ScanVerdict, Settled, Replaying, Chain, OnScreen, SeedAt, ReplayDue;
    ReplayChain(s, o, i, epoch, codec, k);
  }

  lemma ReplayChain(s: State, o: Choice, i: nat, epoch: nat, codec: Codec, k: nat)
    requires ReplayDue(s, i, o) && s.core.active == i && Settled(s.core, i)
    requires ScanVerdict(s.core.slots[i].codec, s.core.slots[i].snap.aus[0].data) == Seed
    requires OnScreen(Replaying(s, i, o), i, epoch, codec)
    requires k == |s.arrivals[i]| - |s.core.slots[i].snap.aus| && s.core.slots[i].snap.aus == s.arrivals[i][k..]
    ensures Chain(Replaying(s, i, o), i, epoch, codec, s.arrivals[i], k, |s.core.feeds|)
  {
    hide ScanVerdict, Settled, Replaying, Chain, OnScreen, Delivered, Holds, Quiet, Append;
    ReplayStep(s, o, i, epoch, codec);
    ChainMade(Replaying(s, i, o), i, epoch, codec, s.arrivals[i], s.core.slots[i].snap.aus, |s.core.feeds|);
  }

  lemma ReplayStep(s: State, o: Choice, i: nat, epoch: nat, codec: Codec)
    requires ReplayDue(s, i, o) && s.core.active == i && Settled(s.core, i)
    requires ScanVerdict(s.core.slots[i].codec, s.core.slots[i].snap.aus[0].data) == Seed
    requires OnScreen(Replaying(s, i, o), i, epoch, codec)
    ensures var t := Replaying(s, i, o);
            && t.arrivals == s.arrivals && Holds(t.core, i) && !t.core.slots[i].snap.armed
            && Delivered(t.core.feeds, |s.core.feeds|, i, epoch, codec, s.core.slots[i].snap.aus)
  {
    hide ScanVerdict, Settled, Replay, Replaying, Delivered, Holds, Framed, Append, Wrap32;
    assert Quiet(s, i, o.now);
    ReplayHandsOver(s.core, i, o.now, o.envs);
    ReplayingCore(s, i, o);
  }

  lemma ChainMade(t: State, i: nat, epoch: nat, codec: Codec, base: seq<Au>, aus: seq<Au>, from: nat)
    requires OnScreen(t, i, epoch, codec) && Holds(t.core, i) && !t.core.slots[i].snap.armed
    requires t.arrivals[i] == base && |aus| <= |base| && aus == base[|base| - |aus|..]
    requires Delivered(t.core.feeds, from, i, epoch, codec, aus)
    ensures Chain(t, i, epoch, codec, base, |base| - |aus|, from)
  {
    hide Delivered;
  }

  lemma ReadyMeans(s: State, i: nat)
    requires Facts(s) && i < SLOTS && s.ctl[i].rdp && Ready(s.core.slots[i].snap)
    ensures var arrived, snap := s.arrivals[i], s.core.slots[i].snap;
            && Settled(s.core, i) && |snap.aus| <= |arrived| && snap.aus == arrived[|arrived| - |snap.aus|..]
            && ScanVerdict(s.core.slots[i].codec, snap.aus[0].data) == Seed
  {
    assert SlotTrue(s, i);
    hide ScanVerdict;
  }

  /** Slot i stays on screen, on that connection and codec, from s to the end of the steps. */
  ghost predicate Stays(s: State, steps: seq<Step>, i: nat, epoch: nat, codec: Codec) {
    forall n :: 0 <= n <= |steps| ==> OnScreen(Run(s, steps[..n]), i, epoch, codec)
  }

  lemma StaysShorter(s: State, steps: seq<Step>, i: nat, epoch: nat, codec: Codec)
    requires steps != [] && Stays(s, steps, i, epoch, codec)
    ensures Stays(s, steps[..|steps| - 1], i, epoch, codec) && OnScreen(Run(s, steps), i, epoch, codec)
  {
    hide OnScreen, Run;
    var before := steps[..|steps| - 1];
    assert forall n :: 0 <= n <= |before| ==> before[..n] == steps[..n];
    assert steps[..|steps|] == steps;
  }

  lemma {:induction false} RunChain(s: State, steps: seq<Step>, i: nat, epoch: nat, codec: Codec,
          base: seq<Au>, k: nat, from: nat)
    requires Inv(s) && Facts(s) && Chain(s, i, epoch, codec, base, k, from) && Stays(s, steps, i, epoch, codec)
    ensures Inv(Run(s, steps)) && Facts(Run(s, steps)) && Chain(Run(s, steps), i, epoch, codec, base, k, from)
    decreases |steps|
  {
    hide Inv, Facts, Chain, Apply, OnScreen, Stays;
    if steps != [] {
      var before := steps[..|steps| - 1];
      StaysShorter(s, steps, i, epoch, codec);
      RunChain(s, before, i, epoch, codec, base, k, from);
      var t, last := Run(s, before), steps[|steps| - 1];
      StepChain(t, last, i, epoch, codec, base, k, from);
      ApplyInv(t, last);
      ApplyTrue(t, last);
    }
  }

  /** Slot i has the screen and is still filling its cache. */
  predicate Waiting(s: State, i: nat) {
    Shape(s) && i < SLOTS && s.core.active == i && s.core.slots[i].snap.armed
  }

  ghost predicate Waits(s: State, steps: seq<Step>, i: nat) {
    forall n :: 0 <= n <= |steps| ==> Waiting(Run(s, steps[..n]), i)
  }

  lemma WaitsShorter(s: State, steps: seq<Step>, i: nat)
    requires steps != [] && Waits(s, steps, i)
    ensures Waits(s, steps[..|steps| - 1], i) && Waiting(Run(s, steps), i) && Waiting(Run(s, steps[..|steps| - 1]), i)
  {
    hide Waiting, Run;
    var before := steps[..|steps| - 1];
    assert forall n :: 0 <= n <= |before| ==> before[..n] == steps[..n];
    assert steps[..|steps|] == steps;
  }

  lemma ArmedFeedsNothing(s: State, t: State, i: nat)
    requires Waiting(s, i) && Waiting(t, i) && OnScreenOnly(s, t)
    ensures t.core.feeds == s.core.feeds
  {
  }

  /** From taking the screen to the replay, no AU of any session reaches the decoder. */
  lemma {:induction false} WaitFeedsNothing(s: State, steps: seq<Step>, i: nat)
    requires Inv(s) && Facts(s) && DecoderOk(s.core) && Waits(s, steps, i)
    ensures Inv(Run(s, steps)) && Facts(Run(s, steps)) && DecoderOk(Run(s, steps).core)
    ensures Run(s, steps).core.feeds == s.core.feeds
    decreases |steps|
  {
    hide Inv, Facts, DecoderOk, Apply, Waiting, Waits, OnScreenOnly;
    if steps != [] {
      var before := steps[..|steps| - 1];
      WaitsShorter(s, steps, i);
      WaitFeedsNothing(s, before, i);
      var t, last := Run(s, before), steps[|steps| - 1];
      StepFits(t, last);
      ArmedFeedsNothing(t, Apply(t, last), i);
      ApplyInv(t, last);
      ApplyTrue(t, last);
    }
  }

  /** The part of the barrier from the replay on. */
  lemma BarrierFrom(b: State, o: Choice, later: seq<Step>, i: nat, epoch: nat, codec: Codec) returns (k: nat)
    requires Inv(b) && Facts(b) && ReplayDue(b, i, o) && Stays(Apply(b, Sdl(o)), later, i, epoch, codec)
    ensures SeedAt(b, i, k) && Chain(Run(Apply(b, Sdl(o)), later), i, epoch, codec, b.arrivals[i], k, |b.core.feeds|)
  {
    var c := Apply(b, Sdl(o));
    assert c == Replaying(b, i, o) && Need(b, b.cur);
    hide Facts, Inv, Exec, Apply, SeedAt, Chain, OnScreen, Replaying;
    assert later[..0] == [];
    assert OnScreen(c, i, epoch, codec);
    k := ReplayStarts(b, o, i, epoch, codec);
    ApplyInv(b, Sdl(o));
    ApplyTrue(b, Sdl(o));
    RunChain(c, later, i, epoch, codec, b.arrivals[i], k, |b.core.feeds|);
  }

  /** The handoff barrier, for every interleaving: lead is any run in which slot i gets the screen with its
    * cache armed, wait any run up to its replay, later any run during which it keeps the screen, its
    * connection and its codec and nothing stops it. What the decoder got since lead is exactly what the
    * connection delivered from the newest cached seed on, before, during and after the replay. */
  lemma HandoffBarrier(s: State, lead: seq<Step>, wait: seq<Step>, o: Choice,
          later: seq<Step>, i: nat, epoch: nat, codec: Codec)
    returns (k: nat)
    requires Init(s) && Waits(Run(s, lead), wait, i) && ReplayDue(Run(Run(s, lead), wait), i, o)
    requires Stays(Apply(Run(Run(s, lead), wait), Sdl(o)), later, i, epoch, codec)
    ensures var b := Run(Run(s, lead), wait);
            var end := Run(Apply(b, Sdl(o)), later);
            && SeedAt(b, i, k) && Shape(end) && b.arrivals[i] <= end.arrivals[i]
            && Delivered(end.core.feeds, |Run(s, lead).core.feeds|, i, epoch, codec, end.arrivals[i][k..])
  {
    RunTrue(s, lead);
    DecoderHandedOnSeeds(s, lead);
    hide Run, Facts, Inv, DecoderOk, Apply, Delivered, FeedsOk, Waits, Stays, ReplayDue, OnScreen;
    var a := Run(s, lead);
    WaitFeedsNothing(a, wait, i);
    k := BarrierFrom(Run(a, wait), o, later, i, epoch, codec);
  }
}
