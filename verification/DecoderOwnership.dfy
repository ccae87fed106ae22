// Who may hand an AU to the hardware decoder, and what one decoder object sees.
module DecoderOwnership {
  import opened Bytes
  import opened AuSnapshot
  import opened VideoScan
  import opened VideoCore
  import opened SwitchMachine

  /** b is a fit successor of a: another decoder object, or the same codec and either the same
    * connection or a picture that resets the decoder. */
  predicate Follows(a: Feed, b: Feed) {
    || a.decoder < b.decoder
    || (a.decoder == b.decoder && a.codec == b.codec
        && ((a.slot == b.slot && a.epoch == b.epoch) || ScanVerdict(b.codec, b.au.data) == Seed))
  }

  predicate FeedsOk(feeds: seq<Feed>) {
    forall j :: 0 < j < |feeds| ==> Follows(feeds[j - 1], feeds[j])
  }

  /** The open decoder knows who fed it last. */
  predicate DecoderOk(c: Core) {
    && FeedsOk(c.feeds)
    && (c.video.Some? ==> c.video.value.id < c.decoders)
    && (c.feeds != [] ==>
          var last := c.feeds[|c.feeds| - 1];
          && last.decoder < c.decoders
          && (c.video.Some? && last.decoder >= c.video.value.id ==>
                last == Feed(c.ownerSlot, c.ownerEpoch, c.video.value.id, c.video.value.codec, last.au)))
  }

  /** Everything the rule speaks of is as before, or the decoder has been closed. */
  predicate Untouched(c: Core, d: Core) {
    && d.feeds == c.feeds && d.decoders == c.decoders
    && (d.video.None? || (d.video == c.video && d.ownerSlot == c.ownerSlot && d.ownerEpoch == c.ownerEpoch))
  }

  /** New feeds, if any, all come from slot i's connection. */
  predicate Grows(c: Core, d: Core, i: nat)
    requires i < |c.slots|
  {
    && |c.feeds| <= |d.feeds| && d.feeds[..|c.feeds|] == c.feeds
    && forall j :: |c.feeds| <= j < |d.feeds| ==> d.feeds[j].slot == i && d.feeds[j].epoch == c.slots[i].epoch
  }

  lemma ReportUntouched(c: Core, i: nat, native: bool)
    requires i < |c.slots|
    ensures Untouched(c, Report(c, i, native))
  {
  }

  lemma PathUntouched(c: Core, i: nat)
    requires i < |c.slots|
    ensures Untouched(c, PathSwitched(c, i).0)
  {
    ReportUntouched(SetSlot(c, i, c.slots[i].(pathSwitches := c.slots[i].pathSwitches + 1)), i, true);
    hide Report;
  }

  lemma RetireUntouched(c: Core, i: nat)
    requires i < |c.slots|
    ensures Untouched(c, RetireCanvas(c, i).0)
  {
    PathUntouched(c.(canvas := None), i);
    hide PathSwitched;
  }

  /** Slot i owns a decoder of its own codec that is new, reset by au, or already following slot i. */
  predicate Fits(c: Core, i: nat, au: Au)
    requires i < |c.slots| && c.video.Some?
  {
    && Owns(c, i) && c.video.value.codec == c.slots[i].codec && c.video.value.id < c.decoders
    && (c.feeds != [] ==>
          var last := c.feeds[|c.feeds| - 1];
          && last.decoder <= c.video.value.id
          && (last.decoder == c.video.value.id ==>
                Follows(last, Feed(i, c.slots[i].epoch, c.video.value.id, c.video.value.codec, au))))
  }

  lemma FeedsMore(feeds: seq<Feed>, next: Feed)
    requires FeedsOk(feeds) && (feeds != [] ==> Follows(feeds[|feeds| - 1], next))
    ensures FeedsOk(feeds + [next])
  {
    hide Follows;
  }

  lemma FitsFollows(c: Core, i: nat, au: Au)
    requires i < |c.slots| && c.video.Some? && Fits(c, i, au) && c.feeds != []
    ensures Follows(c.feeds[|c.feeds| - 1], Feed(i, c.slots[i].epoch, c.video.value.id, c.video.value.codec, au))
  {
    hide ScanVerdict;
  }

  lemma FeedFits(c: Core, i: nat, au: Au, result: FeedResult)
    requires i < |c.slots| && c.video.Some? && FeedsOk(c.feeds) && Fits(c, i, au)
    ensures DecoderOk(FeedDecoder(c, i, au, result)) && Grows(c, FeedDecoder(c, i, au, result), i)
  {
    hide ScanVerdict, Report, Follows, FeedsOk;
    var next := Feed(i, c.slots[i].epoch, c.video.value.id, c.video.value.codec, au);
    var d := c.(feeds := c.feeds + [next]);
    if c.feeds != [] { FitsFollows(c, i, au); }
    FeedsMore(c.feeds, next);
    ReportUntouched(d, i, true);
  }

  lemma TakeOverFits(c: Core, i: nat, au: Au, verdict: Verdict)
    requires i < |c.slots| && DecoderOk(c)
    requires verdict == ScanVerdict(c.slots[i].codec, au.data) && (ForeignDecoder(c, i) ==> verdict == Seed)
    ensures var d := TakeOver(c, i);
            && d.slots == c.slots && d.feeds == c.feeds && d.decoders == c.decoders
            && (d.video.Some? ==> Fits(d, i, au))
  {
    hide ScanVerdict;
  }

  /** After taking over or reopening, slot i owns a decoder of its own codec, reset or already its own. */
  lemma ClaimFits(c: Core, i: nat, au: Au, verdict: Verdict, opens: bool)
    requires i < |c.slots| && DecoderOk(c)
    requires verdict == ScanVerdict(c.slots[i].codec, au.data) && (ForeignDecoder(c, i) ==> verdict == Seed)
    ensures var e := OpenDecoder(TakeOver(c, i), i, opens);
            && e.slots == c.slots && e.feeds == c.feeds
            && (if e.video.Some? then Fits(e, i, au) else Untouched(c, e))
  {
    hide ScanVerdict, TakeOver;
    TakeOverFits(c, i, au, verdict);
  }

  lemma UntouchedOk(c: Core, d: Core)
    requires DecoderOk(c) && Untouched(c, d)
    ensures DecoderOk(d)
  {
    hide ScanVerdict, Follows;
  }

  /** The decoder slot i has taken or opened is fed, or the slot goes terminal for want of one. */
  lemma ClaimedFits(c: Core, i: nat, au: Au, verdict: Verdict, env: Env)
    requires i < |c.slots| && DecoderOk(c)
    requires verdict == ScanVerdict(c.slots[i].codec, au.data) && (ForeignDecoder(c, i) ==> verdict == Seed)
    ensures var e := OpenDecoder(TakeOver(c, i), i, env.decoderOpens);
            var f := if e.video.None? then Report(e, i, true) else FeedDecoder(e, i, au, env.result);
            DecoderOk(f) && Grows(c, f, i)
  {
    ClaimFits(c, i, au, verdict, env.decoderOpens);
    var e := OpenDecoder(TakeOver(c, i), i, env.decoderOpens);
    assert FeedsOk(c.feeds);
    hide ScanVerdict, Follows, TakeOver, OpenDecoder, Report, FeedDecoder, Fits, DecoderOk, FeedsOk;
    if e.video.Some? {
      FeedFits(e, i, au, env.result);
    } else {
      ReportUntouched(e, i, true);
      UntouchedOk(c, e);
      UntouchedOk(e, Report(e, i, true));
    }
  }

  lemma ShownFits(c: Core, i: nat, au: Au, env: Env)
    requires i < |c.slots| && DecoderOk(c)
    ensures var e := Shown(c, i, au, ScanVerdict(c.slots[i].codec, au.data), env);
            DecoderOk(e) && Grows(c, e, i)
  {
    hide ScanVerdict, RetireCanvas, TakeOver, OpenDecoder, Report, FeedDecoder, DecoderOk;
    var verdict := ScanVerdict(c.slots[i].codec, au.data);
    ReportUntouched(c, i, true);
    UntouchedOk(c, Report(c, i, true));
    var (d, ended) := RetireCanvas(c, i);
    RetireUntouched(c, i);
    UntouchedOk(c, d);
    if au.data != [] && !ended && (ForeignDecoder(d, i) ==> verdict == Seed) { ClaimedFits(d, i, au, verdict, env); }
  }

  lemma IngestFits(c: Core, i: nat, au: Au, env: Env)
    requires i < |c.slots| && DecoderOk(c)
    ensures var e := Ingest(c, i, au, env);
            DecoderOk(e) && Grows(c, e, i) && (e.feeds != c.feeds ==> c.active == i && !c.slots[i].snap.armed)
  {
    var d := SetSlot(c, i, c.slots[i].(viaBitmap := false));
    UntouchedOk(c, d);
    hide ScanVerdict, DecoderOk, Append, Shown;
    if d.slots[i].snap.armed {
      var verdict := ScanVerdict(c.slots[i].codec, au.data);
      UntouchedOk(d, Cached(d, i, au, verdict, env.now));
    } else if d.active == i {
      ShownFits(d, i, au, env);
    }
  }

  lemma {:induction false} ReplayAllFits(c: Core, i: nat, aus: seq<Au>, envs: seq<Env>)
    requires i < |c.slots| && DecoderOk(c) && !c.slots[i].snap.armed
    ensures var e := ReplayAll(c, i, aus, envs);
            DecoderOk(e) && Grows(c, e, i) && (e.feeds != c.feeds ==> c.active == i)
    decreases |aus|
  {
    hide DecoderOk, Ingest, Report;
    if aus != [] {
      var n := |aus| - 1;
      ReplayAllFits(c, i, aus[..n], envs);
      var d := ReplayAll(c, i, aus[..n], envs);
      if n == 0 || !Stopped(d, i) {
        IngestFits(d, i, aus[n], EnvAt(envs, n));
        var e := Ingest(d, i, aus[n], EnvAt(envs, n));
        ReportUntouched(e, i, false);
        UntouchedOk(e, Report(e, i, false));
      }
    }
  }

  lemma ReplayFits(c: Core, i: nat, now: nat, envs: seq<Env>)
    requires i < |c.slots| && DecoderOk(c)
    ensures var e := Replay(c, i, now, envs).0;
            DecoderOk(e) && Grows(c, e, i) && (e.feeds != c.feeds ==> c.active == i)
  {
    var d := SetSlot(c, i, c.slots[i].(snap := DISARMED, idrReady := false));
    UntouchedOk(c, d);
    hide DecoderOk, ReplayAll;
    ReplayAllFits(d, i, c.slots[i].snap.aus, envs);
  }

  lemma BitmapUntouched(c: Core, i: nat, b: BitmapEnv)
    requires i < |c.slots|
    ensures Untouched(c, Bitmap(c, i, b).0)
  {
    hide BitmapShown;
    BitmapShownUntouched(SetSlot(c, i, c.slots[i].(viaBitmap := true)), i, b);
  }

  lemma BitmapShownUntouched(c: Core, i: nat, b: BitmapEnv)
    requires i < |c.slots|
    ensures Untouched(c, BitmapShown(c, i, b).0)
  {
    hide Report, CloseDecoder, Framed;
    ReportUntouched(c, i, true);
    CloseUntouched(DropForeignCanvas(c, i), i);
  }

  lemma CloseUntouched(c: Core, i: nat)
    requires i < |c.slots|
    ensures Untouched(c, CloseDecoder(c, i).0)
  {
    PathUntouched(c.(video := None, keyframePending := false), i);
    hide PathSwitched;
  }

  // ------------------------------------------------------------ whole runs

  lemma StartUntouched(s: State, op: Op, o: Choice)
    requires Shape(s) && OpInRange(op)
    ensures Untouched(s.core, Start(s, op, o).core)
  {
  }

  lemma MoveUntouched(s: State, j: nat, flag: bool)
    requires Shape(s) && j < SLOTS
    ensures Untouched(s.core, Backgrounding(s, j).core) && Untouched(s.core, Settling(s, j).core)
    ensures Untouched(s.core, Prepared(s, j, flag).core) && Untouched(s.core, Resuming(s, j, flag).core)
  {
  }

  lemma PrepareUntouched(s: State, j: nat)
    requires Shape(s) && j < SLOTS
    ensures Untouched(s.core, Preparing(s, j).core) && Untouched(s.core, HubActivating(s, j).core)
  {
  }

  lemma DropUntouched(s: State, j: nat)
    requires Shape(s) && j < SLOTS
    ensures Untouched(s.core, HandingOff(s, j).core)
    ensures Untouched(s.core, Stopping(s, j).core) && Untouched(s.core, Done(Stopping(s, j)).core)
  {
  }

  lemma TickUntouched(s: State, j: nat, o: Choice)
    requires Shape(s) && j < SLOTS
    ensures Untouched(s.core, TickVoiding(s, j, o).core)
    ensures Untouched(s.core, AnswerPress(Suppressing(SetSnap(s, j, DISARMED), j), j).core)
  {
  }

  lemma ExecUntouched(s: State, o: Choice)
    requires Shape(s) && ActInRange(s.cur) && !s.cur.ReplayCache?
    ensures Untouched(s.core, Exec(s, o).core)
  {
    hide HandingOff, Backgrounding, Settling, Prepared, Resuming, Preparing, TickVoiding, HubActivating,
         AnswerPress, Suppressing, Stopping, Launching, Replaying, Framed, Done;
    if !s.cur.Idle? {
      var j := s.cur.i;
      var armed := SetSnap(s, j, if o.memory then ARMED_EMPTY else DISARMED);
      if s.cur.Launch? {
        LaunchUntouched(s, j, s.cur.after, o);
      } else if s.cur.ArmInPlace? {
        MoveUntouched(armed, j, o.memory);
      } else {
        MoveUntouched(s, j, if s.cur.Resume? then s.cur.hadPending else s.core.slots[j].snap.armed);
        PrepareUntouched(s, j);
        DropUntouched(s, j);
        TickUntouched(s, j, o);
      }
    }
  }

  lemma LaunchUntouched(s: State, i: nat, after: After, o: Choice)
    requires Shape(s) && i < SLOTS
    ensures Untouched(s.core, Launching(s, i, after, o).core)
  {
    hide Report, Framed;
    ReportUntouched(Launched(s, i, o).core, i, false);
  }

  /** Only the slot on screen, with its cache disarmed or being replayed, hands AUs to the decoder. */
  predicate OnScreenOnly(s: State, t: State) {
    && |s.core.feeds| <= |t.core.feeds| && t.core.feeds[..|s.core.feeds|] == s.core.feeds
    && (t.core.feeds != s.core.feeds ==>
          s.core.active < |s.core.slots| == |t.core.slots| && !t.core.slots[s.core.active].snap.armed
          && forall j :: |s.core.feeds| <= j < |t.core.feeds| ==>
               && t.core.feeds[j].slot == s.core.active
               && t.core.feeds[j].epoch == s.core.slots[s.core.active].epoch)
  }

  lemma StepFits(s: State, step: Step)
    requires DecoderOk(s.core)
    ensures DecoderOk(Apply(s, step).core) && OnScreenOnly(s, Apply(s, step))
  {
    hide DecoderOk, Ingest, Bitmap, Report, Replay, Exec, Start;
    if Enabled(s, step) {
      match step {
        case Begin(op, o) => StartUntouched(s, op, o); UntouchedOk(s.core, Start(s, op, o).core);
        case Sdl(o) =>
          if s.cur.ReplayCache? {
            ReplayStepFits(s, o);
          } else {
            ExecUntouched(s, o);
            UntouchedOk(s.core, Exec(s, o).core);
          }
        case Arrive(i, codec, memory, au, env) =>
          var d := Recode(s.core, i, codec, memory);
          UntouchedOk(s.core, d);
          IngestFits(d, i, au, env);
        case BitmapArrives(i, b) => BitmapUntouched(s.core, i, b); UntouchedOk(s.core, Bitmap(s.core, i, b).0);
        case WorkerFails(i, native) =>
          ReportUntouched(s.core, i, native); UntouchedOk(s.core, Report(s.core, i, native));
        case _ => UntouchedOk(s.core, Apply(s, step).core);
      }
    }
  }

  lemma ReplayStepFits(s: State, o: Choice)
    requires Shape(s) && s.cur.ReplayCache? && s.cur.i < SLOTS && DecoderOk(s.core)
    ensures DecoderOk(Exec(s, o).core) && OnScreenOnly(s, Exec(s, o))
  {
    hide DecoderOk, Replay;
    ReplayFits(s.core, s.cur.i, o.now, o.envs);
  }

  /** For every run: on any one decoder object, an AU from another connection or of another codec than
    * the AU before it is a decoder seed. */
  lemma {:induction false} DecoderHandedOnSeeds(s: State, steps: seq<Step>)
    requires Init(s)
    ensures FeedsOk(Run(s, steps).core.feeds) && DecoderOk(Run(s, steps).core)
    decreases |steps|
  {
    hide Apply, Follows;
    if steps != [] {
      var before := steps[..|steps| - 1];
      DecoderHandedOnSeeds(s, before);
      StepFits(Run(s, before), steps[|steps| - 1]);
    }
  }

  /** For every run: an AU reaches the decoder only from the connection on screen while its cache is disarmed. */
  lemma OnScreenFeeds(s: State, steps: seq<Step>, step: Step)
    requires Init(s)
    ensures OnScreenOnly(Run(s, steps), Apply(Run(s, steps), step))
  {
    hide DecoderOk, OnScreenOnly, Apply, Run;
    DecoderHandedOnSeeds(s, steps);
    StepFits(Run(s, steps), step);
  }
}
