// One deferred switch from the first connect through its replay, with an AU that
// arrives while the replay is due: the hypotheses of the handoff barrier are met
// by a run, and what the barrier then promises.
module SwitchExample {
  import opened Bytes
  import opened AuSnapshot
  import opened VideoScan
  import opened VideoCore
  import opened VideoTenure
  import opened SwitchMachine
  import opened SwitchBarrier

  const YES := Choice(false, true, true, false, 1000, 640, 480, [])

  const QUIET_CORE := Core([NEW_SLOT, NEW_SLOT, NEW_SLOT, NEW_SLOT], 0, true, true, None, 0, 0, None,
                           false, false, 0, [])

  const BEGINNING := State(QUIET_CORE, [OFFLINE, OFFLINE, OFFLINE, OFFLINE], [[], [], [], []], None, false, Idle, [])

  const UP := NEW_SLOT.(epoch := 1, width := 640, height := 480)
  const ONLINE := OFFLINE.(rdp := true, online := true)

  /** Slot 0 connected and on screen. */
  const FIRST := BEGINNING.(core := QUIET_CORE.(slots := [UP, NEW_SLOT, NEW_SLOT, NEW_SLOT]),
                            ctl := [ONLINE, OFFLINE, OFFLINE, OFFLINE])

  /** Slot 1 connected and on screen, slot 0 silenced behind it. */
  const SECOND := BEGINNING.(core := QUIET_CORE.(slots := [UP, UP, NEW_SLOT, NEW_SLOT], active := 1),
                             ctl := [ONLINE.(suppressed := true), ONLINE, OFFLINE, OFFLINE])

  /** Slot 0 with these AUs in its cache. */
  function Filled(aus: seq<Au>): seq<Slot> {
    [UP.(snap := Snap(true, true, aus), idrReady := true), UP, NEW_SLOT, NEW_SLOT]
  }

  /** Slot 0 has been asked for, has cached one seed and is about to take the screen. */
  function Ready0(au: Au): State {
    SECOND.(core := SECOND.core.(slots := Filled([au])), arrivals := [[au], [], [], []], cur := Handoff(0))
  }

  /** And has taken it. */
  function Taken0(au: Au): State {
    Ready0(au).(core := Ready0(au).core.(active := 0), cur := Background(1), rest := [Resume(0, false)])
  }

  const BOTH_SILENT := [ONLINE.(suppressed := true), ONLINE.(suppressed := true), OFFLINE, OFFLINE]

  /** The old owner is silenced, and slot 0 has got these AUs by now. */
  function Demoted0(aus: seq<Au>): State {
    SECOND.(core := SECOND.core.(slots := Filled(aus), active := 0), arrivals := [aus, [], [], []],
            ctl := BOTH_SILENT, cur := Resume(0, false))
  }

  function Due0(aus: seq<Au>): State {
    Demoted0(aus).(ctl := [ONLINE, ONLINE.(suppressed := true), OFFLINE, OFFLINE], cur := ReplayCache(0))
  }

  lemma RunMore(s: State, steps: seq<Step>, step: Step)
    ensures Run(s, steps + [step]) == Apply(Run(s, steps), step)
  {
    assert (steps + [step])[..|steps|] == steps;
  }

  lemma Connecting() returns (steps: seq<Step>)
    ensures Run(BEGINNING, steps) == FIRST
  {
    steps := [];
    RunMore(BEGINNING, steps, Begin(HubConnect(0), YES));
    steps := steps + [Begin(HubConnect(0), YES)];
    assert Run(BEGINNING, steps) == BEGINNING.(cur := HubActivate(0));
    RunMore(BEGINNING, steps, Sdl(YES));
    steps := steps + [Sdl(YES)];
    assert Run(BEGINNING, steps) == BEGINNING.(cur := Connect(0, false, JustConnect(false)));
    RunMore(BEGINNING, steps, Sdl(YES));
    steps := steps + [Sdl(YES)];
    assert Run(BEGINNING, steps) == BEGINNING.(cur := Launch(0, JustConnect(false)));
    RunMore(BEGINNING, steps, Sdl(YES));
    steps := steps + [Sdl(YES)];
    RunMore(BEGINNING, steps, GoesOnline(0, true));
    steps := steps + [GoesOnline(0, true)];
  }

  const PLAIN := Connect(1, false, JustConnect(false))
  const SILENCED := FIRST.(core := FIRST.core.(active := 1),
                           ctl := [ONLINE.(suppressed := true), OFFLINE, OFFLINE, OFFLINE])

  lemma Silencing(before: seq<Step>) returns (steps: seq<Step>)
    requires Run(BEGINNING, before) == FIRST
    ensures Run(BEGINNING, steps) == SILENCED.(cur := PLAIN)
  {
    steps := before;
    RunMore(BEGINNING, steps, Begin(HubConnect(1), YES));
    steps := steps + [Begin(HubConnect(1), YES)];
    assert Run(BEGINNING, steps) == FIRST.(cur := HubActivate(1));
    RunMore(BEGINNING, steps, Sdl(YES));
    steps := steps + [Sdl(YES)];
    assert Run(BEGINNING, steps) == FIRST.(core := FIRST.core.(active := 1), cur := Background(0), rest := [PLAIN]);
    RunMore(BEGINNING, steps, Sdl(YES));
    steps := steps + [Sdl(YES)];
  }

  lemma Adding(before: seq<Step>) returns (steps: seq<Step>)
    requires Run(BEGINNING, before) == SILENCED.(cur := PLAIN)
    ensures Run(BEGINNING, steps) == SECOND
  {
    steps := before;
    RunMore(BEGINNING, steps, Sdl(YES));
    steps := steps + [Sdl(YES)];
    assert Run(BEGINNING, steps) == SILENCED.(cur := Launch(1, JustConnect(false)));
    RunMore(BEGINNING, steps, Sdl(YES));
    steps := steps + [Sdl(YES)];
    Launching1();
    assert Run(BEGINNING, steps) ==
      SECOND.(ctl := [ONLINE.(suppressed := true), OFFLINE.(rdp := true), OFFLINE, OFFLINE]);
    hide Exec;
    RunMore(BEGINNING, steps, GoesOnline(1, true));
    steps := steps + [GoesOnline(1, true)];
  }

  lemma Launching1()
    ensures Apply(SILENCED.(cur := Launch(1, JustConnect(false))), Sdl(YES)) ==
            SECOND.(ctl := [ONLINE.(suppressed := true), OFFLINE.(rdp := true), OFFLINE, OFFLINE])
  {
  }

  lemma CachesSeed(c: Core, au: Au)
    requires c == SECOND.core.(slots := [UP.(snap := ARMED_EMPTY), UP, NEW_SLOT, NEW_SLOT])
    requires ScanVerdict(H264, au.data) == Seed && au.data != [] && |au.data| <= MAX_BYTES
    ensures IngestLive(c, 0, H264, true, au, QUIET_ENV) == Ready0(au).core
  {
    hide ScanVerdict, Shown;
    assert Append(ARMED_EMPTY, au, true, true).0 == Snap(true, true, [au]) by { assert [] + [au] == [au]; }
    hide Append;
    assert c.slots[0 := UP.(snap := ARMED_EMPTY)] == c.slots;
    var s := UP.(snap := Snap(true, true, [au]), idrReady := true);
    assert c.slots[0 := s] == Ready0(au).core.slots;
  }

  lemma Preparing0(before: seq<Step>, au: Au) returns (steps: seq<Step>)
    requires Run(BEGINNING, before) == SECOND
    requires ScanVerdict(H264, au.data) == Seed && au.data != [] && |au.data| <= MAX_BYTES
    ensures Run(BEGINNING, steps) == Ready0(au)
  {
    hide ScanVerdict, Append;
    steps := before;
    RunMore(BEGINNING, steps, Begin(Request(0), YES));
    steps := steps + [Begin(Request(0), YES)];
    var wanted := SECOND.(target := Some(0));
    assert Run(BEGINNING, steps) == wanted.(cur := Prepare(0));
    RunMore(BEGINNING, steps, Sdl(YES));
    steps := steps + [Sdl(YES)];
    assert Run(BEGINNING, steps) == wanted.(cur := ArmInPlace(0));
    RunMore(BEGINNING, steps, Sdl(YES));
    steps := steps + [Sdl(YES)];
    var filling := wanted.(core := SECOND.core.(slots := [UP.(snap := ARMED_EMPTY), UP, NEW_SLOT, NEW_SLOT]),
                           ctl := [ONLINE.(pending := true), ONLINE, OFFLINE, OFFLINE]);
    assert Run(BEGINNING, steps) == filling;
    var arrival := Arrive(0, H264, true, au, QUIET_ENV);
    RunMore(BEGINNING, steps, arrival);
    steps := steps + [arrival];
    CachesSeed(filling.core, au);
    hide IngestLive;
    assert filling.arrivals[0] + [au] == [au] && filling.arrivals[0 := [au]] == Ready0(au).arrivals;
    var filled := filling.(core := Ready0(au).core, arrivals := Ready0(au).arrivals);
    assert Run(BEGINNING, steps) == filled;
    RunMore(BEGINNING, steps, Begin(Tick(0), YES));
    steps := steps + [Begin(Tick(0), YES)];
    assert Run(BEGINNING, steps) == filled.(ctl := SECOND.ctl);
    RunMore(BEGINNING, steps, Begin(Deferred, YES));
    steps := steps + [Begin(Deferred, YES)];
  }

  lemma Taking0(before: seq<Step>, au: Au)
    requires Run(BEGINNING, before) == Ready0(au)
    ensures Run(BEGINNING, before + [Sdl(YES)]) == Taken0(au)
    ensures Apply(Taken0(au), Sdl(YES)) == Demoted0([au])
  {
    hide Append, Ingest;
    RunMore(BEGINNING, before, Sdl(YES));
  }

  /** Nothing stands in the way of slot 0 on screen. */
  predicate Clear0(c: Core) {
    |c.slots| == SLOTS && c.active == 0 && c.canvas.None? && !c.slots[0].snap.armed && !Stopped(c, 0)
  }

  lemma TakesOver(c: Core)
    requires Clear0(c)
    ensures Clear0(TakeOver(c, 0)) && !ForeignDecoder(TakeOver(c, 0), 0)
  {
  }

  lemma Opens(c: Core)
    requires Clear0(c) && !ForeignDecoder(c, 0)
    ensures var d := OpenDecoder(c, 0, true); Clear0(d) && d.video.Some? && !ForeignDecoder(d, 0)
  {
  }

  lemma Feeds(c: Core, au: Au)
    requires Clear0(c) && c.video.Some? && !ForeignDecoder(c, 0)
    ensures var d := FeedDecoder(c, 0, au, FeedOk); Clear0(d) && !ForeignDecoder(d, 0)
  {
  }

  /** A decoder that follows slot 0, or is there for a seed, takes an AU and stays with the slot. */
  lemma QuietFeed(c: Core, au: Au)
    requires Clear0(c) && au.data != []
    requires var v := ScanVerdict(c.slots[0].codec, au.data); v == Seed || (!ForeignDecoder(c, 0) && v == Plain)
    ensures var d := Ingest(c, 0, au, QUIET_ENV); Clear0(d) && !ForeignDecoder(d, 0)
  {
    hide ScanVerdict, TakeOver, OpenDecoder, FeedDecoder;
    var d := VideoCore.SetSlot(c, 0, c.slots[0].(viaBitmap := false));
    assert RetireCanvas(d, 0) == (d, false);
    TakesOver(d);
    Opens(TakeOver(d, 0));
    Feeds(OpenDecoder(TakeOver(d, 0), 0, true), au);
  }

  /** The AU that comes while the replay is due goes into the cache. */
  lemma CachesPlain(au: Au, next: Au)
    requires ScanVerdict(H264, next.data) == Plain && next.data != [] && |au.data| + |next.data| <= MAX_BYTES
    ensures Apply(Demoted0([au]), Arrive(0, H264, true, next, QUIET_ENV)) == Demoted0([au, next])
  {
    hide ScanVerdict, Shown;
    var c := Demoted0([au]).core;
    assert Used([au]) == |au.data| by { assert [au][..0] == []; }
    assert Append(c.slots[0].snap, next, true, false).0 == Snap(true, true, [au, next]) by {
      assert [au] + [next] == [au, next];
    }
    hide Append;
    assert c.slots[0 := c.slots[0].(viaBitmap := false)] == c.slots;
    assert c.slots[0 := Filled([au, next])[0]] == Filled([au, next]);
    assert IngestLive(c, 0, H264, true, next, QUIET_ENV) == Demoted0([au, next]).core;
    hide IngestLive;
    assert Demoted0([au]).arrivals[0] + [next] == [au, next];
    assert Demoted0([au]).arrivals[0 := [au, next]] == Demoted0([au, next]).arrivals;
  }

  lemma Replayed(au: Au, next: Au)
    requires ScanVerdict(H264, au.data) == Seed && au.data != []
    requires ScanVerdict(H264, next.data) == Plain && next.data != []
    ensures OnScreen(Apply(Due0([au, next]), Sdl(YES)), 0, 1, H264)
    ensures Apply(Due0([au, next]), Sdl(YES)).arrivals == Due0([au, next]).arrivals
  {
    hide ScanVerdict, Ingest;
    var c := Due0([au, next]).core;
    var d := VideoCore.SetSlot(c, 0, c.slots[0].(snap := DISARMED, idrReady := false));
    QuietFeed(d, au);
    var e := Ingest(d, 0, au, QUIET_ENV);
    QuietFeed(e, next);
    var f := Ingest(e, 0, next, QUIET_ENV);
    assert [au, next][..1] == [au] && [au][..0] == [];
    assert ReplayAll(d, 0, [], []) == d;
    assert ReplayAll(d, 0, [au], []) == e;
    assert ReplayAll(d, 0, [au, next], []) == f;
    hide ReplayAll;
    assert Replay(c, 0, 1000, []).0 == f;
  }

  /** Every seed AU followed by a plain one can take this way: back to the screen from a second session,
    * the seed cached before the switch, the plain AU while the replay is due. The hypotheses of the handoff
    * barrier hold, and the decoder gets both and nothing else. */
  lemma BarrierHappens(au: Au, next: Au) returns (lead: seq<Step>, wait: seq<Step>)
    requires ScanVerdict(H264, au.data) == Seed && au.data != [] && |au.data| + |next.data| <= MAX_BYTES
    requires ScanVerdict(H264, next.data) == Plain && next.data != []
    ensures var b := Run(Run(BEGINNING, lead), wait);
            && Init(BEGINNING) && Waits(Run(BEGINNING, lead), wait, 0) && ReplayDue(b, 0, YES)
            && Stays(Apply(b, Sdl(YES)), [], 0, 1, H264)
            && Arrive(0, H264, true, next, QUIET_ENV) in wait
            && Delivered(Apply(b, Sdl(YES)).core.feeds, 0, 0, 1, H264, [au, next])
  {
    hide ScanVerdict, Append, Apply, Delivered;
    assert BEGINNING.core.slots == seq(SLOTS, _ => NEW_SLOT) && BEGINNING.ctl == seq(SLOTS, _ => OFFLINE);
    assert BEGINNING.arrivals == seq(SLOTS, _ => []);
    var first := Connecting();
    var silenced := Silencing(first);
    var second := Adding(silenced);
    var ready := Preparing0(second, au);
    Taking0(ready, au);
    lead := ready + [Sdl(YES)];
    wait := WaitRun(au, next);
    Replayed(au, next);
    var end := Apply(Due0([au, next]), Sdl(YES));
    assert Stays(end, [], 0, 1, H264) by { StaysNone(end); }
    var k := HandoffBarrier(BEGINNING, lead, wait, YES, [], 0, 1, H264);
    RunNone(end);
    assert k == 0;
    assert [au, next][0..] == [au, next];
  }

  lemma RunNone(s: State)
    ensures Run(s, []) == s
  {
  }

  lemma StaysNone(s: State)
    requires OnScreen(s, 0, 1, H264)
    ensures Stays(s, [], 0, 1, H264)
  {
    var none: seq<Step> := [];
    assert none[..0] == none;
  }

  lemma WaitRun(au: Au, next: Au) returns (wait: seq<Step>)
    requires ScanVerdict(H264, next.data) == Plain && next.data != [] && |au.data| + |next.data| <= MAX_BYTES
    requires Apply(Taken0(au), Sdl(YES)) == Demoted0([au])
    ensures Waits(Taken0(au), wait, 0) && Run(Taken0(au), wait) == Due0([au, next])
    ensures Arrive(0, H264, true, next, QUIET_ENV) in wait
  {
    var arrival := Arrive(0, H264, true, next, QUIET_ENV);
    CachesPlain(au, next);
    Resumes(au, next);
    hide Apply;
    RunNone(Taken0(au));
    RunMore(Taken0(au), [], Sdl(YES));
    assert [] + [Sdl(YES)] == [Sdl(YES)];
    RunMore(Taken0(au), [Sdl(YES)], arrival);
    assert [Sdl(YES)] + [arrival] == [Sdl(YES), arrival];
    RunMore(Taken0(au), [Sdl(YES), arrival], Sdl(YES));
    wait := [Sdl(YES), arrival, Sdl(YES)];
    assert [Sdl(YES), arrival] + [Sdl(YES)] == wait;
    hide Run;
    forall n | 0 <= n <= |wait| ensures Waiting(Run(Taken0(au), wait[..n]), 0) {
      if n == 0 { assert wait[..n] == []; }
      else if n == 1 { assert wait[..n] == [Sdl(YES)]; }
      else if n == 2 { assert wait[..n] == [Sdl(YES), arrival]; }
      else { assert wait[..n] == wait; }
    }
    assert wait[1] == arrival;
  }

  lemma Resumes(au: Au, next: Au)
    ensures Apply(Demoted0([au, next]), Sdl(YES)) == Due0([au, next])
  {
    hide Append, Ingest;
  }
}
