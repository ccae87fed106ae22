// The video state shared between the RDP workers and the SDL thread under
// video_lock: AU ingest, bitmap routing, decoder ownership and snapshot replay.
module VideoCore {
  import opened Bytes
  import opened AuSnapshot
  import opened VideoScan

  const MAX_PATH_SWITCHES := 4
  const QUIET_MS := 500

  /** An open hardware decoder; id tells one decoder object from the next. */
  datatype Media = Media(id: nat, codec: Codec, width: nat, height: nat)

  /** One call that handed an AU to the hardware decoder. */
  datatype Feed = Feed(slot: nat, epoch: nat, decoder: nat, codec: Codec, au: Au)

  datatype FeedResult = FeedOk | NeedKeyframe | Dropped | FeedError

  /** What the outside world answers during one ingest. */
  datatype Env = Env(now: nat, decoderOpens: bool, result: FeedResult, sessionDies: bool)

  const QUIET_ENV := Env(0, true, FeedOk, false)

  datatype Slot = Slot(epoch: nat, codec: Codec, snap: Snap, idrReady: bool, lastAuMs: nat,
                       failed: bool, terminal: bool, viaBitmap: bool,
                       okFrames: nat, pathSwitches: nat, width: nat, height: nat)

  datatype Canvas = Canvas(slot: nat, epoch: nat)

  datatype Core = Core(slots: seq<Slot>, active: nat, interactive: bool, running: bool,
                       video: Option<Media>, ownerSlot: nat, ownerEpoch: nat, canvas: Option<Canvas>,
                       keyframePending: bool, refreshNeeded: bool, decoders: nat, feeds: seq<Feed>)

  // ------------------------------------------------------------ specification

  function SetSlot(c: Core, i: nat, s: Slot): Core
    requires i < |c.slots|
  {
    c.(slots := c.slots[i := s])
  }

  /** Only slot i's own bookkeeping and the shared decoder may differ: no other slot, no owner index,
    * and neither the slot's connection, its codec nor its size. */
  predicate Framed(c: Core, d: Core, i: nat) {
    && i < |c.slots| == |d.slots|
    && d.slots == c.slots[i := d.slots[i]]
    && d.active == c.active && d.interactive == c.interactive
    && d.slots[i].epoch == c.slots[i].epoch && d.slots[i].codec == c.slots[i].codec
    && d.slots[i].width == c.slots[i].width && d.slots[i].height == c.slots[i].height
    && (d.slots[i].snap.armed ==> c.slots[i].snap.armed)
  }

  predicate SameCache(c: Core, d: Core, i: nat) {
    i < |c.slots| == |d.slots| && d.slots[i].snap == c.slots[i].snap
  }

  /** native_slot_report_terminal: the first terminal event of a connection decides. */
  function Report(c: Core, i: nat, nativeFailure: bool): (r: Core)
    requires i < |c.slots|
    ensures Framed(c, r, i) && SameCache(c, r, i)
  {
    if c.slots[i].terminal then c
    else
      var failsSlot := !(c.active == i && nativeFailure) && (c.active != i || c.interactive);
      var d := SetSlot(c, i, c.slots[i].(terminal := true, failed := c.slots[i].failed || failsSlot));
      d.(running := d.running && failsSlot)
  }

  /** A same-owner change of graphics path; the fifth one is terminal. */
  function PathSwitched(c: Core, i: nat): (r: (Core, bool))
    requires i < |c.slots|
    ensures Framed(c, r.0, i) && SameCache(c, r.0, i)
  {
    var d := SetSlot(c, i, c.slots[i].(pathSwitches := c.slots[i].pathSwitches + 1));
    if d.slots[i].pathSwitches <= MAX_PATH_SWITCHES then (d, false) else (Report(d, i, true), true)
  }

  predicate Owns(c: Core, i: nat)
    requires i < |c.slots|
  {
    c.ownerSlot == i && c.ownerEpoch == c.slots[i].epoch
  }

  /** The armed path: the AU goes into the cache and nowhere else. */
  function Cached(c: Core, i: nat, au: Au, verdict: Verdict, now: nat): (r: Core)
    requires i < |c.slots|
    ensures Framed(c, r, i)
  {
    var snap := Append(c.slots[i].snap, au, verdict != Malformed, verdict == Seed).0;
    SetSlot(c, i, c.slots[i].(snap := snap, lastAuMs := Wrap32(now), idrReady := Ready(snap)))
  }

  /** A new compressed picture retires the bitmap canvas; true means the slot just went terminal. */
  function RetireCanvas(c: Core, i: nat): (r: (Core, bool))
    requires i < |c.slots|
    ensures Framed(c, r.0, i) && SameCache(c, r.0, i)
  {
    var d := c.(canvas := None);
    if c.canvas == Some(Canvas(i, c.slots[i].epoch)) then PathSwitched(d, i) else (d, false)
  }

  predicate ForeignDecoder(c: Core, i: nat)
    requires i < |c.slots|
  {
    c.video.Some? && (!Owns(c, i) || c.video.value.codec != c.slots[i].codec)
  }

  predicate SizeFits(c: Core, i: nat)
    requires i < |c.slots| && c.video.Some?
  {
    c.video.value.width == c.slots[i].width && c.video.value.height == c.slots[i].height
  }

  /** Takes the decoder over in-band when size and codec allow, otherwise closes it. */
  function TakeOver(c: Core, i: nat): (r: Core)
    requires i < |c.slots|
    ensures Framed(c, r, i) && SameCache(c, r, i)
  {
    var d :=
      if !ForeignDecoder(c, i) then c
      else if SizeFits(c, i) && c.video.value.codec == c.slots[i].codec
      then c.(ownerSlot := i, ownerEpoch := c.slots[i].epoch, keyframePending := false)
      else c.(video := None, keyframePending := false);
    if d.video.Some? && !SizeFits(d, i) then d.(video := None, keyframePending := false) else d
  }

  function OpenDecoder(c: Core, i: nat, opens: bool): (r: Core)
    requires i < |c.slots|
    ensures Framed(c, r, i) && SameCache(c, r, i)
  {
    if c.video.Some? || !opens then c
    else
      var s := c.slots[i];
      c.(video := Some(Media(c.decoders, s.codec, s.width, s.height)), decoders := c.decoders + 1,
         ownerSlot := i, ownerEpoch := s.epoch)
  }

  function FeedDecoder(c: Core, i: nat, au: Au, result: FeedResult): (r: Core)
    requires i < |c.slots| && c.video.Some?
    ensures Framed(c, r, i) && SameCache(c, r, i)
  {
    var s := c.slots[i];
    var d := c.(feeds := c.feeds + [Feed(i, s.epoch, c.video.value.id, c.video.value.codec, au)]);
    match result
    case NeedKeyframe =>
      if i == d.active && !d.keyframePending then d.(keyframePending := true, refreshNeeded := true) else d
    case FeedOk => SetSlot(d.(keyframePending := false), i, s.(okFrames := s.okFrames + 1))
    case Dropped => d
    case FeedError => Report(d, i, true)
  }

  /** The active, disarmed path: the AU is dropped, ends the session, or reaches the decoder. */
  function Shown(c: Core, i: nat, au: Au, verdict: Verdict, env: Env): (r: Core)
    requires i < |c.slots|
    ensures Framed(c, r, i) && SameCache(c, r, i)
  {
    if au.data == [] then Report(c, i, true)
    else
      var (d, ended) := RetireCanvas(c, i);
      if ended || (ForeignDecoder(d, i) && verdict != Seed) then d
      else
        var e := OpenDecoder(TakeOver(d, i), i, env.decoderOpens);
        if e.video.None? then Report(e, i, true) else FeedDecoder(e, i, au, env.result)
  }

  /** native_video_ingest_au_locked. */
  function Ingest(c: Core, i: nat, au: Au, env: Env): (r: Core)
    requires i < |c.slots|
    ensures Framed(c, r, i)
    ensures !c.slots[i].snap.armed ==> SameCache(c, r, i)
  {
    var verdict := ScanVerdict(c.slots[i].codec, au.data);
    var d := SetSlot(c, i, c.slots[i].(viaBitmap := false));
    if d.slots[i].snap.armed then Cached(d, i, au, verdict, env.now)
    else if d.active != i then d
    else Shown(d, i, au, verdict, env)
  }

  /** A codec change empties an armed cache before the AU is routed. */
  function Recode(c: Core, i: nat, codec: Codec, memory: bool): Core
    requires i < |c.slots|
  {
    var s := c.slots[i];
    if s.codec == codec then c
    else
      var snap := if !s.snap.armed then s.snap else if memory then ARMED_EMPTY else DISARMED;
      SetSlot(c, i, s.(snap := snap, idrReady := false, codec := codec))
  }

  /** native_video_ingest_au. */
  function IngestLive(c: Core, i: nat, codec: Codec, memory: bool, au: Au, env: Env): Core
    requires i < |c.slots|
  {
    Ingest(Recode(c, i, codec, memory), i, au, env)
  }

  /** Answers of the outside world to one bitmap update. */
  datatype BitmapEnv = BitmapEnv(recentVideo: bool, payload: bool, liveFeed: bool, canvasUsable: bool)

  /** Another connection's pixels never stay under a new bitmap update. */
  function DropForeignCanvas(c: Core, i: nat): (r: Core)
    requires i < |c.slots|
    ensures Framed(c, r, i) && SameCache(c, r, i)
  {
    if c.canvas.Some? && c.canvas != Some(Canvas(i, c.slots[i].epoch)) then c.(canvas := None) else c
  }

  /** A bitmap takes the screen from an open decoder; true means the slot just went terminal. */
  function CloseDecoder(c: Core, i: nat): (r: (Core, bool))
    requires i < |c.slots|
    ensures Framed(c, r.0, i) && SameCache(c, r.0, i)
  {
    if c.video.None? then (c, false)
    else
      var closed := c.(video := None, keyframePending := false);
      if Owns(c, i) then PathSwitched(closed, i) else (closed, false)
  }

  /** The bitmap path of the active slot. */
  function BitmapShown(c: Core, i: nat, b: BitmapEnv): (r: (Core, bool))
    requires i < |c.slots|
    ensures Framed(c, r.0, i) && SameCache(c, r.0, i)
  {
    if !b.payload then (Report(c, i, true), false)
    else
      var e := DropForeignCanvas(c, i);
      if e.video.Some? && Owns(e, i) && b.liveFeed then (SetSlot(e, i, e.slots[i].(viaBitmap := false)), false)
      else
        var (f, ended) := CloseDecoder(e, i);
        if ended then (f, false)
        else (f.(canvas := if b.canvasUsable then Some(Canvas(i, c.slots[i].epoch)) else None), b.canvasUsable)
  }

  /** on_bitmap_update up to its unlock; the flag says whether a canvas took the update. */
  function Bitmap(c: Core, i: nat, b: BitmapEnv): (r: (Core, bool))
    requires i < |c.slots|
    ensures Framed(c, r.0, i) && SameCache(c, r.0, i)
  {
    var s := c.slots[i];
    if c.active != i || (s.snap.armed && b.recentVideo) then (SetSlot(c, i, s.(viaBitmap := !b.recentVideo)), false)
    else BitmapShown(SetSlot(c, i, s.(viaBitmap := true)), i, b)
  }

  function EnvAt(envs: seq<Env>, k: nat): Env {
    if k < |envs| then envs[k] else QUIET_ENV
  }

  predicate Stopped(c: Core, i: nat)
    requires i < |c.slots|
  {
    !c.running || c.slots[i].failed
  }

  /** One cached entry of a replay; the session's own worker may fail while it runs. */
  function ReplayOne(c: Core, i: nat, au: Au, env: Env): (r: Core)
    requires i < |c.slots|
    ensures Framed(c, r, i)
    ensures !c.slots[i].snap.armed ==> SameCache(c, r, i)
  {
    var d := Ingest(c, i, au, env);
    if env.sessionDies then Report(d, i, false) else d
  }

  /** The first n entries of a replay, stopping behind the one that ended the session. */
  function ReplayAll(c: Core, i: nat, aus: seq<Au>, envs: seq<Env>): (r: Core)
    requires i < |c.slots|
    ensures Framed(c, r, i)
    ensures !c.slots[i].snap.armed ==> SameCache(c, r, i)
  {
    if aus == [] then c
    else
      var n := |aus| - 1;
      var d := ReplayAll(c, i, aus[..n], envs);
      if n > 0 && Stopped(d, i) then d else ReplayOne(d, i, aus[n], EnvAt(envs, n))
  }

  /** native_snapshot_replay: takes the cache, and feeds it only when it is ready and the stream is quiet. */
  function Replay(c: Core, i: nat, now: nat, envs: seq<Env>): (r: (Core, bool))
    requires i < |c.slots|
    ensures Framed(c, r.0, i)
    ensures r.0.slots[i].snap == DISARMED
  {
    var snap := c.slots[i].snap;
    var d := SetSlot(c, i, c.slots[i].(snap := DISARMED, idrReady := false));
    if !Ready(snap) || Wrap32(Wrap32(now) - c.slots[i].lastAuMs) < QUIET_MS then (d, false)
    else
      var e := ReplayAll(d, i, snap.aus, envs);
      (e, e.slots[i].okFrames != d.slots[i].okFrames)
  }

  // ---------------------------------------------------------------- the class

  class Video {
    var slots: seq<Slot>
    var active: nat
    var interactive: bool
    var running: bool
    var video: Option<Media>
    var ownerSlot: nat
    var ownerEpoch: nat
    var canvas: Option<Canvas>
    var keyframePending: bool
    var refreshNeeded: bool
    ghost var feeds: seq<Feed>
    var nextId: nat

    ghost function Value(): Core
      reads this
    {
      Core(slots, active, interactive, running, video, ownerSlot, ownerEpoch, canvas,
           keyframePending, refreshNeeded, nextId, feeds)
    }

    method ReportTerminal(i: nat, nativeFailure: bool)
      requires i < |slots|
      modifies this`slots, this`running
      ensures Value() == Report(old(Value()), i, nativeFailure)
    {
      if slots[i].terminal { return; }
      slots := slots[i := slots[i].(terminal := true)];
      var isActive := active == i;
      if isActive && nativeFailure {
        running := false;
        return;
      }
      if !isActive || interactive {
        slots := slots[i := slots[i].(failed := true)];
        return;
      }
      running := false;
    }

    method NotePathSwitch(i: nat) returns (ended: bool)
      requires i < |slots|
      modifies this`slots, this`running
      ensures (Value(), ended) == PathSwitched(old(Value()), i)
    {
      slots := slots[i := slots[i].(pathSwitches := slots[i].pathSwitches + 1)];
      if slots[i].pathSwitches <= MAX_PATH_SWITCHES { return false; }
      ReportTerminal(i, true);
      return true;
    }

    method IngestLocked(i: nat, au: Au, env: Env)
      requires i < |slots|
      modifies this
      ensures Value() == Ingest(old(Value()), i, au, env)
    {
      hide ScanVerdict, Append;
      var verdict := ScanVerdict(slots[i].codec, au.data);
      slots := slots[i := slots[i].(viaBitmap := false)];
      if slots[i].snap.armed {
        var (snap, kept) := Append(slots[i].snap, au, verdict != Malformed, verdict == Seed);
        slots := slots[i := slots[i].(snap := snap, lastAuMs := Wrap32(env.now), idrReady := Ready(snap))];
        return;
      }
      if active != i { return; }
      if |au.data| == 0 {
        ReportTerminal(i, true);
        return;
      }
      ShowAu(i, au, verdict, env);
    }

    method ShowAu(i: nat, au: Au, verdict: Verdict, env: Env)
      requires i < |slots| && |au.data| > 0
      modifies this
      ensures Value() == Shown(old(Value()), i, au, verdict, env)
    {
      hide Report, FeedDecoder, TakeOver, OpenDecoder, RetireCanvas;
      var ended := CloseCanvas(i);
      if ended { return; }
      if video.Some? && (ownerSlot != i || ownerEpoch != slots[i].epoch || video.value.codec != slots[i].codec) {
        if verdict != Seed { return; }
      }
      ClaimDecoder(i);
      OpenFor(i, env.decoderOpens);
      if video.None? {
        ReportTerminal(i, true);
        return;
      }
      FeedAu(i, au, env.result);
    }

    method OpenFor(i: nat, opens: bool)
      requires i < |slots|
      modifies this`video, this`ownerSlot, this`ownerEpoch, this`nextId
      ensures Value() == OpenDecoder(old(Value()), i, opens)
    {
      if video.None? && opens {
        video := Some(Media(nextId, slots[i].codec, slots[i].width, slots[i].height));
        nextId := nextId + 1;
        ownerSlot, ownerEpoch := i, slots[i].epoch;
      }
    }

    method CloseCanvas(i: nat) returns (ended: bool)
      requires i < |slots|
      modifies this`canvas, this`slots, this`running
      ensures (Value(), ended) == RetireCanvas(old(Value()), i)
    {
      hide Report, PathSwitched;
      if canvas.None? { return false; }
      var sameOwner := canvas.value == Canvas(i, slots[i].epoch);
      canvas := None;
      if sameOwner { ended := NotePathSwitch(i); return; }
      return false;
    }

    method ClaimDecoder(i: nat)
      requires i < |slots|
      modifies this`video, this`ownerSlot, this`ownerEpoch, this`keyframePending
      ensures Value() == TakeOver(old(Value()), i)
    {
      if video.Some? && (ownerSlot != i || ownerEpoch != slots[i].epoch || video.value.codec != slots[i].codec) {
        if slots[i].width == video.value.width && slots[i].height == video.value.height
           && slots[i].codec == video.value.codec {
          ownerSlot, ownerEpoch := i, slots[i].epoch;
        } else {
          video := None;
        }
        keyframePending := false;
      }
      if video.Some? && (slots[i].width != video.value.width || slots[i].height != video.value.height) {
        video := None;
        keyframePending := false;
      }
    }

    method FeedAu(i: nat, au: Au, result: FeedResult)
      requires i < |slots| && video.Some?
      modifies this
      ensures Value() == FeedDecoder(old(Value()), i, au, result)
    {
      feeds := feeds + [Feed(i, slots[i].epoch, video.value.id, video.value.codec, au)];
      if result == NeedKeyframe {
        if i == active && !keyframePending {
          keyframePending := true;
          refreshNeeded := true;
        }
        return;
      }
      if result == FeedOk {
        keyframePending := false;
        slots := slots[i := slots[i].(okFrames := slots[i].okFrames + 1)];
        return;
      }
      if result == Dropped { return; }
      ReportTerminal(i, true);
    }

    method IngestAu(i: nat, codec: Codec, memory: bool, au: Au, env: Env)
      requires i < |slots|
      modifies this
      ensures Value() == IngestLive(old(Value()), i, codec, memory, au, env)
    {
      hide Ingest;
      if slots[i].codec != codec {
        var snap := slots[i].snap;
        if snap.armed { snap := if memory then ARMED_EMPTY else DISARMED; }
        slots := slots[i := slots[i].(snap := snap, idrReady := false, codec := codec)];
      }
      IngestLocked(i, au, env);
    }

    method BitmapUpdate(i: nat, b: BitmapEnv) returns (applied: bool)
      requires i < |slots|
      modifies this
      ensures (Value(), applied) == Bitmap(old(Value()), i, b)
    {
      hide BitmapShown;
      if active != i || (slots[i].snap.armed && b.recentVideo) {
        slots := slots[i := slots[i].(viaBitmap := !b.recentVideo)];
        return false;
      }
      slots := slots[i := slots[i].(viaBitmap := true)];
      applied := ShowBitmap(i, b);
    }

    method ShowBitmap(i: nat, b: BitmapEnv) returns (applied: bool)
      requires i < |slots|
      modifies this
      ensures (Value(), applied) == BitmapShown(old(Value()), i, b)
    {
      hide Report, CloseDecoder, Framed;
      if !b.payload {
        ReportTerminal(i, true);
        return false;
      }
      var mine := Canvas(i, slots[i].epoch);
      if canvas.Some? && canvas.value != mine { canvas := None; }
      if video.Some? && ownerSlot == i && ownerEpoch == slots[i].epoch && b.liveFeed {
        slots := slots[i := slots[i].(viaBitmap := false)];
        return false;
      }
      var ended := YieldDecoder(i);
      if ended { return false; }
      canvas := if b.canvasUsable then Some(mine) else None;
      return b.canvasUsable;
    }

    method YieldDecoder(i: nat) returns (ended: bool)
      requires i < |slots|
      modifies this`video, this`keyframePending, this`slots, this`running
      ensures (Value(), ended) == CloseDecoder(old(Value()), i)
    {
      hide PathSwitched;
      if video.None? { return false; }
      var sameOwner := ownerSlot == i && ownerEpoch == slots[i].epoch;
      video := None;
      keyframePending := false;
      if sameOwner { ended := NotePathSwitch(i); return; }
      return false;
    }

    method SnapshotReplay(i: nat, now: nat, envs: seq<Env>) returns (replayed: bool)
      requires i < |slots|
      modifies this
      ensures (Value(), replayed) == Replay(old(Value()), i, now, envs)
    {
      hide Ingest, Report;
      var snap := slots[i].snap;
      slots := slots[i := slots[i].(snap := DISARMED, idrReady := false)];
      if !Ready(snap) { return false; }
      if Wrap32(Wrap32(now) - slots[i].lastAuMs) < QUIET_MS { return false; }
      var baseline := slots[i].okFrames;
      ghost var start := Value();
      var k := 0;
      var done := false;
      while k < |snap.aus| && !done
        invariant k <= |snap.aus| && |slots| == |start.slots|
        invariant !done ==> Value() == ReplayAll(start, i, snap.aus[..k], envs)
        invariant !done && k > 0 ==> !Stopped(Value(), i)
        invariant done ==> Value() == ReplayAll(start, i, snap.aus, envs)
      {
        assert snap.aus[..k + 1][..k] == snap.aus[..k];
        IngestLocked(i, snap.aus[k], EnvAt(envs, k));
        if EnvAt(envs, k).sessionDies { ReportTerminal(i, false); }
        k := k + 1;
        if !running || slots[i].failed {
          StoppedStays(start, i, snap.aus, envs, k);
          done := true;
        }
      }
      assert snap.aus[..|snap.aus|] == snap.aus;
      replayed := slots[i].okFrames != baseline;
    }
  }

  lemma {:induction false} StoppedStays(c: Core, i: nat, aus: seq<Au>, envs: seq<Env>, k: nat)
    requires i < |c.slots| && 0 < k <= |aus|
    requires Stopped(ReplayAll(c, i, aus[..k], envs), i)
    ensures ReplayAll(c, i, aus, envs) == ReplayAll(c, i, aus[..k], envs)
    decreases |aus|
  {
    if k == |aus| {
      assert aus[..k] == aus;
    } else {
      var shorter := aus[..|aus| - 1];
      assert shorter[..k] == aus[..k];
      StoppedStays(c, i, shorter, envs, k);
    }
  }
}
