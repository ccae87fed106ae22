// The client as the program keeps it: -1 for no pending value, 32-bit
// generations, a flag, token and start time per call. Each callback, run
// without interruption, is a run of the protocol's steps.
module LunaClient {
  import opened Bytes
  import opened LunaVolume

  /** What the bus and the clock answer to one call that is sent: whether it is taken, the time of issue and,
    * if it is refused, whether its token variable is cleared. */
  datatype Told = Told(accepted: bool, now: nat, clears: bool)

  /** Everything foreign code answers during one callback. */
  datatype Poll = Poll(cancelSet: bool, first: Told, second: Told, cancelGet: bool, get: Told)

  function Only(a: Told): Poll {
    Poll(false, a, a, false, a)
  }

  function StepOf(a: Told, cancelled: bool): Step {
    LoopStep(a.now, a.accepted, cancelled, a.clears)
  }

  function SetAnswer(after: After, p: Poll): Told {
    if after.ToAfterStall? then p.first else p.second
  }

  /** The answer the loop thread gets at each of its points. */
  function PointStep(loop: Loop, p: Poll): Step {
    match loop
    case Exchange(after) => StepOf(SetAnswer(after, p), false)
    case CallSet(_, _, after) => StepOf(SetAnswer(after, p), false)
    case _ => StepOf(p.get, p.cancelGet)
  }

  /** How many points a callback can still pass. */
  function Points(loop: Loop): nat {
    match loop
    case Idle => 0
    case Exchange(after) => if after.ToAfterStall? then 8 else if after.ToCheck? then 5 else 2
    case CallSet(_, _, after) => if after.ToAfterStall? then 7 else if after.ToCheck? then 4 else 1
    case AfterStall(_) => 6
    case Check(_) => 3
    case Capture(_) => 2
    case CallGet(_) => 1
    case Store(_, _, _, _) => 1
  }

  lemma PointPassed(s: State, p: Poll)
    requires !s.loop.Idle?
    ensures Points(Apply(s, PointStep(s.loop, p)).loop) < Points(s.loop)
  {
    hide Points, Exchanging, CallingSet, Chaining, Checking, Capturing, CallingGet, Storing;
    var step := PointStep(s.loop, p);
    match s.loop {
      case Exchange(after) => ExchangePasses(s, after);
      case CallSet(_, carries, after) => CallSetPasses(s, carries, after, step.now, step.accepted, step.clears);
      case AfterStall(now) => ChainPasses(s, now);
      case Check(now) => CheckPasses(s, now, step.cancelled);
      case Capture(now) => CapturePasses(s, now);
      case CallGet(now) => CallGetPasses(s, now, step.accepted, step.clears);
      case Store(_, _, _, _) => StorePasses(s);
    }
  }

  lemma ExchangePasses(s: State, after: After)
    ensures Points(Exchanging(s, after).loop) < Points(Exchange(after))
  {
  }

  lemma CallSetPasses(s: State, carries: nat, after: After, now: nat, accepted: bool, clears: bool)
    requires s.loop.CallSet? && s.loop.after == after
    ensures Points(CallingSet(s, carries, after, now, accepted, clears).loop) < Points(s.loop)
  {
  }

  lemma ChainPasses(s: State, now: nat)
    ensures Points(Chaining(s, now).loop) < Points(AfterStall(now))
  {
  }

  lemma CheckPasses(s: State, now: nat, cancelled: bool)
    ensures Points(Checking(s, now, cancelled).loop) < Points(Check(now))
  {
    hide GiveUp, Stalled;
  }

  lemma CapturePasses(s: State, now: nat)
    ensures Points(Capturing(s, now).loop) < Points(Capture(now))
  {
  }

  lemma CallGetPasses(s: State, now: nat, accepted: bool, clears: bool)
    ensures Points(CallingGet(s, now, accepted, clears).loop) < Points(CallGet(now))
  {
  }

  lemma StorePasses(s: State)
    requires s.loop.Store?
    ensures Points(Storing(s, s.loop.reading, s.loop.token, s.loop.inFlight, s.loop.exposed).loop) < Points(s.loop)
  {
    hide IssuedAt;
  }

  /** The steps of the loop thread until its callback returns. */
  function Rest(s: State, p: Poll): seq<Step>
    decreases Points(s.loop)
  {
    if s.loop.Idle? then []
    else
      PointPassed(s, p);
      var step := PointStep(s.loop, p);
      [step] + Rest(Apply(s, step), p)
  }

  function Callback(s: State, first: Step, p: Poll): seq<Step> {
    [first] + Rest(Apply(s, first), p)
  }

  lemma {:induction false} RunJoin(s: State, a: seq<Step>, b: seq<Step>)
    ensures Run(s, a + b) == Run(Run(s, a), b)
    decreases |b|
  {
    if b == [] {
      assert a + b == a;
    } else {
      var n := |b| - 1;
      assert (a + b)[..|a + b| - 1] == a + b[..n];
      RunJoin(s, a, b[..n]);
    }
  }

  lemma RunFirst(s: State, step: Step, rest: seq<Step>)
    ensures Run(s, [step] + rest) == Run(Apply(s, step), rest)
  {
    RunJoin(s, [step], rest);
    assert [step][..0] == [];
  }

  lemma Grouped(a: seq<Step>, b: seq<Step>, c: seq<Step>)
    ensures (a + b) + c == a + (b + c) && a + [] == a
  {
  }

  lemma RunOne(s: State, step: Step)
    ensures Run(s, [step]) == Apply(s, step)
  {
    assert [step][..0] == [];
  }

  lemma RestFirst(s: State, p: Poll)
    requires !s.loop.Idle?
    ensures Rest(s, p) == [PointStep(s.loop, p)] + Rest(Apply(s, PointStep(s.loop, p)), p)
  {
  }

  function Pending(desired: Option<nat>): int {
    if desired.Some? then desired.value else -1
  }

  /** The 32-bit generations are equal although the unbounded ones are not. */
  predicate Lapped(s: State) {
    s.refreshGen != s.edits && Wrap32(s.refreshGen) == Wrap32(s.edits)
  }

  /** The 32-bit comparison goes wrong exactly if edits have come in a positive multiple of 2^32. */
  lemma LappedExactly(s: State)
    requires s.refreshGen <= s.edits
    ensures Lapped(s) <==> s.edits > s.refreshGen && (s.edits - s.refreshGen) % U32_SPAN == 0
  {
    var q := s.edits / U32_SPAN - s.refreshGen / U32_SPAN;
    assert s.edits - s.refreshGen == q * U32_SPAN + (Wrap32(s.edits) - Wrap32(s.refreshGen));
  }

  class Client {
    var volumePct: int
    var muted: bool
    var available: bool
    var replySeq: int
    var desiredPct: int
    var invokeQueued: bool
    var loopReady: bool
    const registered: bool
    var setInFlight: bool
    var refreshInFlight: bool
    var setIssuedUs: nat
    var refreshIssuedUs: nat
    var setToken: nat
    var getToken: nat
    var editGeneration: int
    var refreshGeneration: int
    /** The bus's serial number and the loop's queue of dispatches: foreign state. */
    var serial: nat
    var attached: nat
    ghost var model: State
    ghost var trace: seq<Step>

    ghost predicate CacheTracks()
      reads this
    {
      && volumePct == model.cache.volume && muted == model.cache.muted && available == model.cache.available
      && replySeq == Wrap32(model.cache.replies)
    }

    ghost predicate SetTracks()
      reads this
    {
      setInFlight == model.put.inFlight && setToken == model.put.token && setIssuedUs == model.put.at
    }

    ghost predicate GetTracks()
      reads this
    {
      && refreshInFlight == model.get.inFlight && getToken == model.get.token && refreshIssuedUs == model.get.at
      && serial == model.nextToken && refreshGeneration == Wrap32(model.refreshGen)
    }

    ghost predicate EditsTrack()
      reads this
    {
      && desiredPct == Pending(model.desired) && invokeQueued == model.queued && attached == model.pending
      && loopReady == model.ready && registered == model.handle && editGeneration == Wrap32(model.edits)
    }

    /** The fields stand for the model's state, and that for the steps taken so far. */
    ghost predicate Tracks()
      reads this
    {
      && CacheTracks() && SetTracks() && GetTracks() && EditsTrack()
      && model == Run(FRESH.(handle := registered), trace)
    }

    /** No thread is inside a call. */
    ghost predicate Valid()
      reads this
    {
      Tracks() && model.loop.Idle? && model.ui.UiIdle?
    }

    constructor (handle: bool)
      ensures Valid() && trace == [] && registered == handle && volumePct == -1
    {
      volumePct, muted, available, replySeq := -1, false, false, 0;
      desiredPct, invokeQueued, loopReady, registered := -1, false, false, handle;
      setInFlight, refreshInFlight, setIssuedUs, refreshIssuedUs, setToken, getToken := false, false, 0, 0, 0, 0;
      editGeneration, refreshGeneration, serial, attached := 0, 0, 1, 0;
      model, trace := FRESH.(handle := handle), [];
    }

    ghost method Take(steps: seq<Step>)
      requires model == Run(FRESH.(handle := registered), trace)
      modifies this`model, this`trace
      ensures model == Run(old(model), steps) && trace == old(trace) + steps
      ensures model == Run(FRESH.(handle := registered), trace)
    {
      RunJoin(FRESH.(handle := registered), trace, steps);
      model := Run(model, steps);
      trace := trace + steps;
    }

    /** The locked part of native_luna_volume_set. */
    method StoreEdit(pct: int)
      requires Valid()
      modifies this
      ensures Tracks() && model == Editing(old(model), pct) && trace == old(trace) + [Edit(pct)]
      ensures loopReady == old(loopReady) && invokeQueued == old(invokeQueued) && attached == old(attached)
      ensures 0 <= desiredPct == volumePct <= 100 && (0 <= pct <= 100 ==> desiredPct == pct)
    {
      hide Run, Apply;
      var value := pct;
      if value < 0 { value := 0; }
      if value > 100 { value := 100; }
      NextGeneration(editGeneration, model.edits);
      EditRun(model, pct);
      hide Wrap32;
      editGeneration := Wrap32(editGeneration + 1);
      volumePct := value;
      desiredPct := value;
      Take([Edit(pct)]);
    }

    /** native_luna_volume_set: the locked edit, then at most one queued dispatch. */
    method Set(pct: int)
      requires Valid()
      modifies this
      ensures Valid() && trace == old(trace) + [Edit(pct), UiStep, UiStep]
      ensures 0 <= desiredPct == volumePct <= 100 && (0 <= pct <= 100 ==> desiredPct == pct)
      ensures loopReady ==> invokeQueued && attached == old(attached) + if old(invokeQueued) then 0 else 1
    {
      hide Run, Apply, Wrap32;
      StoreEdit(pct);
      QueueRun(model);
      var wasQueued := invokeQueued;
      invokeQueued := true;
      if !wasQueued {
        if loopReady { attached := attached + 1; } else { invokeQueued := false; }
      }
      Take([UiStep, UiStep]);
    }

    /** The loop thread is up. */
    method Boot()
      requires Valid() && !loopReady
      modifies this
      ensures Valid() && loopReady && trace == old(trace) + [LunaVolume.Step.Boot]
    {
      hide Run, Apply;
      BootRun(model);
      loopReady := true;
      Take([LunaVolume.Step.Boot]);
    }

    /** The call of luna_volume_send_set. */
    method PlaceSet(ghost carried: nat, ghost after: After, a: Told)
      requires Tracks() && model.loop.CallSet? && model.loop.carries == carried && model.loop.after == after
      modifies this
      ensures Tracks() && model == CallingSet(old(model), carried, after, a.now, a.accepted, a.clears)
      ensures trace == old(trace) + [StepOf(a, false)]
    {
      hide Run, Apply, Wrap32, CallingSet;
      PlaceRun(model, a);
      PlaceParts(model, a);
      Take([StepOf(a, false)]);
      if a.accepted {
        setToken, serial := serial, serial + 1;
        setInFlight, setIssuedUs := true, a.now;
      } else if a.clears {
        setToken := 0;
      }
    }

    /** luna_volume_send_set: the exchange of the pending value and, with something to send, the call. */
    method SendSet(ghost after: After, a: Told, ghost p: Poll)
      requires Tracks() && model.loop == Exchange(after) && a == SetAnswer(after, p)
      modifies this
      ensures Tracks() && model.loop == Resume(after) && model.ui == old(model.ui)
      ensures trace + Rest(model, p) == old(trace) + Rest(old(model), p)
    {
      hide Run, Apply, Rest, Wrap32, CallingSet;
      ghost var before := model;
      RestFirst(model, p);
      ExchangeRun(model, after, a);
      var pct := desiredPct;
      desiredPct := -1;
      Take([StepOf(a, false)]);
      if pct < 0 || !registered { return; }
      RestFirst(model, p);
      PlaceRun(model, a);
      PlaceSet(model.loop.carries, after, a);
    }

    /** The first part of a callback: a stalled set is given up. */
    method Abandon(now: nat) returns (stalled: bool)
      modifies this`setInFlight
      ensures stalled == (old(setInFlight) && now >= setIssuedUs + STALL_US)
      ensures setInFlight == (old(setInFlight) && !stalled)
    {
      stalled := setInFlight && now >= setIssuedUs + STALL_US;
      if stalled { setInFlight := false; }
    }

    /** luna_volume_dispatch_cb. */
    method Dispatch(now: nat, cancelled: bool, a: Told)
      requires Valid() && loopReady && attached > 0
      modifies this
      ensures Valid() && trace == old(trace) + Callback(old(model), LunaVolume.Step.Dispatch(now, cancelled), Only(a))
    {
      hide Run, Apply, Rest, Wrap32;
      ghost var t0, first := trace, LunaVolume.Step.Dispatch(now, cancelled);
      DispatchRun(model, now, cancelled);
      attached := attached - 1;
      invokeQueued := false;
      var stalled := Abandon(now);
      Take([first]);
      Grouped(t0, [first], Rest(model, Only(a)));
      if !setInFlight { SendSet(Return, a, Only(a)); }
      RestNone(model, Only(a));
      Grouped(trace, [], []);
    }

    /** The start of luna_volume_refresh_cb: a stalled set is given up and the newest value sent. */
    method RefreshSets(now: nat, p: Poll)
      requires Valid() && loopReady && registered
      modifies this
      ensures Tracks() && model.loop == AfterStall(now) && model.ui.UiIdle?
      ensures trace + Rest(model, p) == old(trace) + Callback(old(model), Refresh(now, p.cancelSet), p)
    {
      hide Run, Apply, Rest, Wrap32;
      RefreshRun(model, now, p.cancelSet);
      var stalled := Abandon(now);
      Take([Refresh(now, p.cancelSet)]);
      if stalled { SendSet(ToAfterStall(now), p.first, p); }
    }

    /** A value left waiting while nothing is in flight is sent. */
    method RefreshChain(now: nat, p: Poll)
      requires Tracks() && model.loop == AfterStall(now) && model.ui.UiIdle?
      modifies this
      ensures Tracks() && model.loop == Check(now) && model.ui.UiIdle?
      ensures trace + Rest(model, p) == old(trace) + Rest(old(model), p)
    {
      hide Run, Apply, Rest, Wrap32;
      RestFirst(model, p);
      ChainRun(model, now, p);
      Take([PointStep(model.loop, p)]);
      if !setInFlight && desiredPct >= 0 { SendSet(ToCheck(now), p.second, p); }
    }

    /** The gate in front of a new get: a stalled one is given up. */
    method Gate(now: nat, p: Poll) returns (go: bool)
      requires Tracks() && model.loop == Check(now) && model.ui.UiIdle?
      modifies this
      ensures Tracks() && model.ui.UiIdle? && (if go then model.loop == Capture(now) else model.loop.Idle?)
      ensures trace + Rest(model, p) == old(trace) + Rest(old(model), p)
    {
      hide Run, Apply, Rest, Wrap32, Checking;
      ghost var t0, step := trace, PointStep(model.loop, p);
      RestFirst(model, p);
      CheckRun(model, now, p);
      CheckParts(model, now, p.cancelGet);
      go := !setInFlight && desiredPct < 0 && (!refreshInFlight || now >= refreshIssuedUs + STALL_US);
      if go { refreshInFlight := false; }
      Take([step]);
      Grouped(t0, [step], Rest(model, p));
    }

    /** The locked capture of the edit generation. */
    method CaptureGeneration(now: nat, p: Poll) returns (go: bool)
      requires Tracks() && model.loop == Capture(now) && model.ui.UiIdle?
      modifies this
      ensures Tracks() && model.ui.UiIdle? && (if go then model.loop == CallGet(now) else model.loop.Idle?)
      ensures trace + Rest(model, p) == old(trace) + Rest(old(model), p)
    {
      hide Run, Apply, Rest, Wrap32;
      RestFirst(model, p);
      CaptureRun(model, now, p);
      go := desiredPct < 0;
      if go { refreshGeneration := editGeneration; }
      Take([PointStep(model.loop, p)]);
    }

    /** The get call. */
    method PlaceGet(now: nat, p: Poll)
      requires Tracks() && model.loop == CallGet(now) && model.ui.UiIdle?
      modifies this
      ensures Tracks() && model.ui.UiIdle? && model.loop.Idle?
      ensures trace + Rest(model, p) == old(trace) + Rest(old(model), p)
    {
      hide Run, Apply, Rest, Wrap32, CallingGet, PointStep;
      ghost var t0, step := trace, PointStep(model.loop, p);
      RestFirst(model, p);
      CallGetRun(model, now, p);
      AskParts(model, now, p.get);
      Take([step]);
      Grouped(t0, [step], Rest(model, p));
      if p.get.accepted {
        getToken, serial := serial, serial + 1;
        refreshInFlight, refreshIssuedUs := true, now;
      } else if p.get.clears {
        getToken := 0;
      }
    }

    /** luna_volume_refresh_cb. */
    method RefreshVolume(now: nat, p: Poll)
      requires Valid() && loopReady
      modifies this
      ensures Valid() && trace == old(trace) + Callback(old(model), Refresh(now, p.cancelSet), p)
    {
      hide Run, Apply, Rest, Wrap32, Tracks;
      if !registered {
        Unregistered(now, p);
        return;
      }
      assert Tracks() && model.loop.Idle?;
      RefreshSets(now, p);
      RefreshChain(now, p);
      var go := Gate(now, p);
      if go { go := CaptureGeneration(now, p); }
      if go { PlaceGet(now, p); }
      RestNone(model, p);
    }

    method Unregistered(now: nat, p: Poll)
      requires Valid() && loopReady && !registered
      modifies this
      ensures Valid() && trace == old(trace) + Callback(old(model), Refresh(now, p.cancelSet), p)
    {
      hide Run, Apply, Rest, Wrap32;
      RefreshRun(model, now, p.cancelSet);
      Take([Refresh(now, p.cancelSet)]);
      RestNone(model, p);
    }

    /** luna_volume_set_reply_cb. The bus answers only calls it still owes an answer. */
    method SetReplied(token: nat, a: Told)
      requires Valid() && token in model.put.owed
      modifies this
      ensures Valid() && trace == old(trace) + Callback(old(model), SetReply(token), Only(a))
    {
      hide Run, Apply, Rest, Wrap32, LunaVolume.SetReplied;
      ghost var t0, first := trace, SetReply(token);
      SetReplyRun(model, token);
      SetReplyParts(model, token);
      var current := token == setToken;
      if current { setInFlight := false; }
      Take([first]);
      Grouped(t0, [first], Rest(model, Only(a)));
      if current && desiredPct >= 0 { SendSet(Return, a, Only(a)); }
      RestNone(model, Only(a));
      Grouped(trace, [], []);
    }

    /** luna_volume_get_reply_cb, as long as the 32-bit generations have not lapped each other. */
    method GetReplied(token: nat, reading: Option<Reading>, ghost a: Told)
      requires Valid() && token in model.get.owed
      modifies this
      ensures !Lapped(old(model)) ==>
        Valid() && trace == old(trace) + Callback(old(model), GetReply(token, reading), Only(a))
    {
      hide Valid, Tracks, Callback, Lapped, Run;
      if token != getToken {
        LateReply(token, reading, a);
      } else if reading.None? {
        EmptyReply(token, a);
      } else {
        CurrentReply(token, reading.value, a);
      }
    }

    /** A reply of the current call without a reading. */
    method EmptyReply(token: nat, ghost a: Told)
      requires Valid() && token in model.get.owed && token == getToken
      modifies this
      ensures Valid() && trace == old(trace) + Callback(old(model), GetReply(token, None), Only(a))
    {
      hide Run, Apply, Rest, Wrap32;
      ghost var steps := GetReplyRun(model, token, None, a);
      refreshInFlight := false;
      Take(steps);
    }

    /** A reply of the current call with a reading. */
    method CurrentReply(token: nat, reading: Reading, ghost a: Told)
      requires Valid() && token in model.get.owed && token == getToken
      modifies this
      ensures !Lapped(old(model)) ==>
        Valid() && trace == old(trace) + Callback(old(model), GetReply(token, Some(reading)), Only(a))
    {
      hide Run, Apply, Rest, Wrap32, Storing, Callback, Exposed;
      ghost var steps := GetReplyRun(model, token, Some(reading), a);
      assert !Answer(model.get, token).inFlight && Answer(model.get, token).token == token
        && Answer(model.get, token).at == model.get.at;
      hide Answer;
      StoreParts(model, token, reading, model.get.inFlight, Exposed(model, token));
      NextGeneration(replySeq, model.cache.replies);
      refreshInFlight := false;
      var written := StoreReading(reading);
      Take(steps);
    }

    /** The locked write of a reading. */
    method StoreReading(reading: Reading) returns (written: bool)
      modifies this`volumePct, this`muted, this`available, this`replySeq
      ensures written == (refreshGeneration == editGeneration && !setInFlight && desiredPct < 0)
      ensures if written
              then volumePct == reading.volume && muted == reading.muted && available
                   && replySeq == Wrap32(old(replySeq) + 1)
              else volumePct == old(volumePct) && muted == old(muted) && available == old(available)
                   && replySeq == old(replySeq)
    {
      written := refreshGeneration == editGeneration && !setInFlight && desiredPct < 0;
      if written {
        volumePct, muted, available := reading.volume, reading.muted, true;
        replySeq := Wrap32(replySeq + 1);
      }
    }

    ghost method LateReply(token: nat, reading: Option<Reading>, a: Told)
      requires Valid() && token in model.get.owed && token != getToken
      modifies this`model, this`trace
      ensures Valid() && trace == old(trace) + Callback(old(model), GetReply(token, reading), Only(a))
    {
      hide Run, Apply, Rest, Wrap32;
      LateRun(model, token, reading);
      Take([GetReply(token, reading)]);
      RestNone(model, Only(a));
    }
  }

  /** The fields the set machinery does not touch. */
  predicate SameRest(s: State, t: State) {
    && t.cache == s.cache && t.edits == s.edits && t.queued == s.queued && t.ready == s.ready
    && t.pending == s.pending && t.handle == s.handle && t.ui == s.ui
  }

  predicate SameGet(s: State, t: State) {
    t.get == s.get && t.refreshGen == s.refreshGen
  }

  /** A call line after the bus has answered. */
  predicate Placed(line: Line, was: Line, a: Told, number: nat, at: nat) {
    if a.accepted then line.inFlight && line.token == number && line.at == at
    else line.inFlight == was.inFlight && line.at == was.at && line.token == if a.clears then 0 else was.token
  }

  lemma PlaceParts(s: State, a: Told)
    requires s.loop.CallSet?
    ensures var t := CallingSet(s, s.loop.carries, s.loop.after, a.now, a.accepted, a.clears);
            && SameRest(s, t) && SameGet(s, t) && t.desired == s.desired && t.loop == Resume(s.loop.after)
            && Placed(t.put, s.put, a, s.nextToken, a.now)
            && t.nextToken == s.nextToken + if a.accepted then 1 else 0
  {
    hide Resume;
  }

  lemma AskParts(s: State, now: nat, a: Told)
    ensures var t := CallingGet(s, now, a.accepted, a.clears);
            && SameRest(s, t) && t.put == s.put && t.refreshGen == s.refreshGen && t.desired == s.desired
            && t.loop.Idle? && Placed(t.get, s.get, a, s.nextToken, now)
            && t.nextToken == s.nextToken + if a.accepted then 1 else 0
  {
  }

  /** The gate gives up a stalled get and says whether a new one may go out. */
  lemma CheckParts(s: State, now: nat, cancelled: bool)
    requires s.loop == Check(now)
    ensures var t := Checking(s, now, cancelled);
            var go := !s.put.inFlight && s.desired.None? && (!s.get.inFlight || now >= s.get.at + STALL_US);
            && SameRest(s, t) && t.put == s.put && t.refreshGen == s.refreshGen && t.desired == s.desired
            && t.nextToken == s.nextToken && t.get.token == s.get.token && t.get.at == s.get.at
            && t.get.inFlight == (s.get.inFlight && !go) && t.loop == (if go then Capture(now) else Idle)
  {
  }

  lemma SetReplyParts(s: State, token: nat)
    requires s.loop.Idle?
    ensures var t := LunaVolume.SetReplied(s, token); var current := token == s.put.token;
            && SameRest(s, t) && SameGet(s, t) && t.desired == s.desired && t.nextToken == s.nextToken
            && t.put.token == s.put.token && t.put.at == s.put.at
            && t.put.inFlight == (s.put.inFlight && !current)
            && t.loop == (if current && s.desired.Some? then Exchange(Return) else Idle)
  {
  }

  lemma PlaceRun(s: State, a: Told)
    requires s.loop.CallSet?
    ensures Run(s, [StepOf(a, false)]) == CallingSet(s, s.loop.carries, s.loop.after, a.now, a.accepted, a.clears)
    ensures var t := CallingSet(s, s.loop.carries, s.loop.after, a.now, a.accepted, a.clears);
            t == Apply(s, StepOf(a, false)) && t.loop == Resume(s.loop.after) && t.ui == s.ui
  {
    RunOne(s, StepOf(a, false));
    hide Run;
  }

  lemma RestNone(s: State, p: Poll)
    ensures s.loop.Idle? ==> Rest(s, p) == []
  {
  }

  lemma DispatchRun(s: State, now: nat, cancelled: bool)
    requires s.ready && s.loop.Idle? && s.pending > 0
    ensures var step := LunaVolume.Step.Dispatch(now, cancelled);
            Run(s, [step]) == Dispatching(s, now, cancelled) == Apply(s, step)
  {
    RunOne(s, LunaVolume.Step.Dispatch(now, cancelled));
    hide Run, Dispatching;
  }

  lemma RefreshRun(s: State, now: nat, cancelled: bool)
    requires s.ready && s.loop.Idle?
    ensures Run(s, [Refresh(now, cancelled)]) == Refreshing(s, now, cancelled) == Apply(s, Refresh(now, cancelled))
  {
    RunOne(s, Refresh(now, cancelled));
    hide Run, Refreshing;
  }

  lemma ChainRun(s: State, now: nat, p: Poll)
    requires s.loop == AfterStall(now)
    ensures Run(s, [PointStep(s.loop, p)]) == Chaining(s, now) == Apply(s, PointStep(s.loop, p))
  {
    RunOne(s, PointStep(s.loop, p));
    hide Run, Chaining;
  }

  lemma CheckRun(s: State, now: nat, p: Poll)
    requires s.loop == Check(now)
    ensures Run(s, [PointStep(s.loop, p)]) == Checking(s, now, p.cancelGet) == Apply(s, PointStep(s.loop, p))
  {
    RunOne(s, PointStep(s.loop, p));
    hide Run, Checking;
  }

  lemma CaptureRun(s: State, now: nat, p: Poll)
    requires s.loop == Capture(now)
    ensures Run(s, [PointStep(s.loop, p)]) == Capturing(s, now) == Apply(s, PointStep(s.loop, p))
  {
    RunOne(s, PointStep(s.loop, p));
    hide Run, Capturing;
  }

  lemma CallGetRun(s: State, now: nat, p: Poll)
    requires s.loop == CallGet(now)
    ensures Run(s, [PointStep(s.loop, p)]) == CallingGet(s, now, p.get.accepted, p.get.clears)
    ensures Apply(s, PointStep(s.loop, p)) == CallingGet(s, now, p.get.accepted, p.get.clears)
  {
    RunOne(s, PointStep(s.loop, p));
    hide Run, CallingGet;
  }

  lemma SetReplyRun(s: State, token: nat)
    requires s.loop.Idle? && token in s.put.owed
    ensures Run(s, [SetReply(token)]) == LunaVolume.SetReplied(s, token) == Apply(s, SetReply(token))
  {
    RunOne(s, SetReply(token));
    hide Run, LunaVolume.SetReplied;
  }

  lemma LateRun(s: State, token: nat, reading: Option<Reading>)
    requires s.loop.Idle? && token in s.get.owed && token != s.get.token
    ensures Run(s, [GetReply(token, reading)]) == Apply(s, GetReply(token, reading))
    ensures Apply(s, GetReply(token, reading)) == s.(get := Answer(s.get, token))
  {
    RunOne(s, GetReply(token, reading));
    hide Run;
  }

  lemma StoreParts(s: State, token: nat, reading: Reading, inFlight: bool, exposed: bool)
    ensures var r := s.(get := Answer(s.get, token), loop := Store(reading, token, inFlight, exposed));
            var t := Storing(r, reading, token, inFlight, exposed);
            && t.edits == s.edits && t.queued == s.queued && t.ready == s.ready && t.pending == s.pending
            && t.handle == s.handle && t.ui == s.ui && t.put == s.put && t.desired == s.desired
            && t.refreshGen == s.refreshGen && t.nextToken == s.nextToken && t.loop.Idle?
            && t.get == Answer(s.get, token)
            && t.cache == if s.refreshGen == s.edits && !s.put.inFlight && s.desired.None?
                          then Cache(reading.volume, reading.muted, true, s.cache.replies + 1) else s.cache
  {
    hide Answer, IssuedAt;
  }

  /** A reply of the current token: its callback and, for a reading, the locked part. */
  lemma GetReplyRun(s: State, token: nat, reading: Option<Reading>, a: Told) returns (steps: seq<Step>)
    requires s.loop.Idle? && token in s.get.owed && token == s.get.token
    ensures steps == Callback(s, GetReply(token, reading), Only(a))
    ensures reading.None? ==> Run(s, steps) == s.(get := Answer(s.get, token))
    ensures reading.Some? ==>
      var r := s.(get := Answer(s.get, token), loop := Store(reading.value, token, s.get.inFlight, Exposed(s, token)));
      Run(s, steps) == Storing(r, reading.value, token, s.get.inFlight, Exposed(s, token))
  {
    hide Storing, Exposed, Answer, Run;
    var first, p := GetReply(token, reading), Only(a);
    var t := Apply(s, first);
    steps := Callback(s, first, p);
    if reading.None? {
      assert t == s.(get := Answer(s.get, token));
      RestNone(t, p);
      Grouped([first], [], []);
      RunOne(s, first);
    } else {
      StoreRun(t, reading.value, token, s.get.inFlight, Exposed(s, token), p);
      RunFirst(s, first, Rest(t, p));
    }
  }

  lemma StoreRun(s: State, reading: Reading, token: nat, inFlight: bool, exposed: bool, p: Poll)
    requires s.loop == Store(reading, token, inFlight, exposed)
    ensures Run(s, Rest(s, p)) == Storing(s, reading, token, inFlight, exposed)
  {
    hide Storing, Run;
    var step := PointStep(s.loop, p);
    assert Apply(s, step) == Storing(s, reading, token, inFlight, exposed);
    StoreReturns(s, reading, token, inFlight, exposed);
    RestFirst(s, p);
    RestNone(Apply(s, step), p);
    Grouped([step], [], []);
    RunOne(s, step);
  }

  lemma StoreReturns(s: State, reading: Reading, token: nat, inFlight: bool, exposed: bool)
    ensures Storing(s, reading, token, inFlight, exposed).loop.Idle?
  {
  }

  lemma ExchangeRun(s: State, after: After, a: Told)
    requires s.loop == Exchange(after)
    ensures Run(s, [StepOf(a, false)]) == Exchanging(s, after) == Apply(s, StepOf(a, false))
  {
    RunOne(s, StepOf(a, false));
    hide Run, Exchanging;
  }

  lemma BootRun(s: State)
    requires !s.ready
    ensures Run(s, [LunaVolume.Step.Boot]) == s.(ready := true)
  {
    RunFirst(s, LunaVolume.Step.Boot, []);
    assert [LunaVolume.Step.Boot] + [] == [LunaVolume.Step.Boot];
  }

  lemma EditRun(s: State, pct: int)
    requires s.ui.UiIdle?
    ensures Run(s, [Edit(pct)]) == Editing(s, pct)
  {
    RunOne(s, Edit(pct));
    hide Run, Editing;
  }

  lemma QueueRun(s: State)
    requires s.ui.Edited?
    ensures Run(s, [UiStep, UiStep]) ==
      s.(queued := s.queued || s.ready, pending := s.pending + (if s.queued || !s.ready then 0 else 1), ui := UiIdle)
  {
    var t := Apply(s, UiStep);
    RunFirst(s, UiStep, [UiStep]);
    RunFirst(t, UiStep, []);
    assert [UiStep] + [UiStep] == [UiStep, UiStep] && [UiStep] + [] == [UiStep];
  }

  /** What the run theorems say of the fields between callbacks: with nothing waiting and no set in flight
    * the newest edit is settled, one dispatch at most is queued, and whatever has been written to the cache
    * came from a get issued after the newest edit, unless its reply came in an exposed state. */
  lemma FieldsSettled(c: Client)
    requires c.Valid()
    ensures c.desiredPct == -1 && !c.setInFlight ==> c.model.settled == c.model.edits
    ensures c.attached <= 1 && (c.attached == 1 ==> c.invokeQueued)
    ensures forall j :: 0 <= j < |c.model.writes| ==> (Coherent(c.model.writes[j]) <==> !c.model.writes[j].exposed)
  {
    var start := FRESH.(handle := c.registered);
    EditsAreSettled(start, c.trace);
    RunInv(start, c.trace);
    hide Run, Wrap32, Owed, IssuedOk;
  }

  lemma NextGeneration(generation: int, edits: nat)
    requires generation == Wrap32(edits)
    ensures Wrap32(generation + 1) == Wrap32(edits + 1)
  {
    var q := edits / U32_SPAN;
    assert edits == q * U32_SPAN + generation;
    if generation + 1 < U32_SPAN {
      assert (edits + 1) / U32_SPAN == q;
    } else {
      assert edits + 1 == (q + 1) * U32_SPAN;
    }
  }
}
