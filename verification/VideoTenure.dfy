// What one AU of the session on screen does: it reaches the decoder in order, or the session ends.
module VideoTenure {
  import opened Bytes
  import opened AuSnapshot
  import opened VideoScan
  import opened VideoCore

  /** A terminal event has stopped the slot, or the whole program. */
  predicate Settled(c: Core, i: nat)
    requires i < |c.slots|
  {
    c.slots[i].terminal ==> Stopped(c, i)
  }

  /** Stopping is for good, and a terminal event stops. */
  predicate Onward(c: Core, d: Core, i: nat)
    requires i < |c.slots| == |d.slots|
  {
    && (Settled(c, i) ==> Settled(d, i))
    && (Stopped(c, i) ==> Stopped(d, i))
    && (d.running ==> c.running)
  }

  lemma ReportStops(c: Core, i: nat, native: bool)
    requires i < |c.slots|
    ensures Onward(c, Report(c, i, native), i)
    ensures Settled(c, i) ==> Stopped(Report(c, i, native), i)
  {
  }

  lemma PathStops(c: Core, i: nat)
    requires i < |c.slots|
    ensures Onward(c, PathSwitched(c, i).0, i)
    ensures Settled(c, i) && PathSwitched(c, i).1 ==> Stopped(PathSwitched(c, i).0, i)
  {
    ReportStops(SetSlot(c, i, c.slots[i].(pathSwitches := c.slots[i].pathSwitches + 1)), i, true);
    hide Report;
  }

  lemma RetireStops(c: Core, i: nat)
    requires i < |c.slots|
    ensures Onward(c, RetireCanvas(c, i).0, i)
    ensures Settled(c, i) && RetireCanvas(c, i).1 ==> Stopped(RetireCanvas(c, i).0, i)
    ensures var d := RetireCanvas(c, i).0;
            && d.feeds == c.feeds && d.video == c.video && d.ownerSlot == c.ownerSlot && d.ownerEpoch == c.ownerEpoch
  {
    var d := c.(canvas := None);
    PathStops(d, i);
    PathKeepsDecoder(d, i);
    hide PathSwitched;
  }

  lemma PathKeepsDecoder(c: Core, i: nat)
    requires i < |c.slots|
    ensures var d := PathSwitched(c, i).0;
            && d.feeds == c.feeds && d.video == c.video && d.ownerSlot == c.ownerSlot && d.ownerEpoch == c.ownerEpoch
  {
  }

  /** Slot i holds the decoder. */
  predicate Holds(c: Core, i: nat)
    requires i < |c.slots|
  {
    c.video.Some? && Owns(c, i) && c.video.value.codec == c.slots[i].codec
  }

  predicate Reached(c: Core, d: Core, i: nat, au: Au)
    requires i < |c.slots| == |d.slots|
  {
    && Holds(d, i)
    && d.feeds == c.feeds + [Feed(i, c.slots[i].epoch, d.video.value.id, c.slots[i].codec, au)]
  }

  lemma FeedReaches(c: Core, i: nat, au: Au, result: FeedResult)
    requires i < |c.slots| && Holds(c, i)
    ensures Reached(c, FeedDecoder(c, i, au, result), i, au) && Onward(c, FeedDecoder(c, i, au, result), i)
  {
    var d := c.(feeds := c.feeds + [Feed(i, c.slots[i].epoch, c.video.value.id, c.video.value.codec, au)]);
    ReportStops(d, i, true);
  }

  lemma ClaimHolds(c: Core, i: nat, opens: bool)
    requires i < |c.slots|
    ensures var e := OpenDecoder(TakeOver(c, i), i, opens);
            && e.slots == c.slots && e.feeds == c.feeds && e.running == c.running && Onward(c, e, i)
            && (e.video.Some? ==> Holds(e, i))
  {
  }

  /** An AU of the slot on screen that may enter the decoder enters it, unless the session stops. */
  lemma ShownReaches(c: Core, i: nat, au: Au, verdict: Verdict, env: Env)
    requires i < |c.slots| && Settled(c, i)
    ensures Onward(c, Shown(c, i, au, verdict, env), i)
    ensures (ForeignDecoder(c, i) ==> verdict == Seed) && !Stopped(Shown(c, i, au, verdict, env), i)
            ==> Reached(c, Shown(c, i, au, verdict, env), i, au)
  {
    ReportStops(c, i, true);
    RetireStops(c, i);
    var (d, ended) := RetireCanvas(c, i);
    hide Report, RetireCanvas;
    assert ForeignDecoder(d, i) == ForeignDecoder(c, i);
    ClaimHolds(d, i, env.decoderOpens);
    var e := OpenDecoder(TakeOver(d, i), i, env.decoderOpens);
    hide TakeOver, OpenDecoder, FeedDecoder;
    ReportStops(e, i, true);
    if e.video.Some? { FeedReaches(e, i, au, env.result); }
  }

  /** The AU may enter the decoder: it is slot i's own, it is closed, or the AU resets it. */
  predicate MayEnter(c: Core, i: nat, au: Au)
    requires i < |c.slots|
  {
    ForeignDecoder(c, i) ==> ScanVerdict(c.slots[i].codec, au.data) == Seed
  }

  lemma IngestReaches(c: Core, i: nat, au: Au, env: Env)
    requires i < |c.slots| && Settled(c, i)
    ensures Onward(c, Ingest(c, i, au, env), i)
    ensures c.active == i && !c.slots[i].snap.armed && MayEnter(c, i, au) && !Stopped(Ingest(c, i, au, env), i)
            ==> Reached(c, Ingest(c, i, au, env), i, au)
  {
    hide ScanVerdict, Shown, Append;
    ShownReaches(SetSlot(c, i, c.slots[i].(viaBitmap := false)), i, au, ScanVerdict(c.slots[i].codec, au.data), env);
  }

  predicate Carries(f: Feed, slot: nat, epoch: nat, codec: Codec, au: Au) {
    f.slot == slot && f.epoch == epoch && f.codec == codec && f.au == au
  }

  /** Every AU from position from on has been handed over, in order and without gaps, on this connection. */
  predicate Delivered(feeds: seq<Feed>, from: nat, slot: nat, epoch: nat, codec: Codec, aus: seq<Au>) {
    && |feeds| == from + |aus|
    && forall j :: 0 <= j < |aus| ==> Carries(feeds[from + j], slot, epoch, codec, aus[j])
  }

  lemma DeliveredMore(feeds: seq<Feed>, from: nat, slot: nat, epoch: nat, codec: Codec, aus: seq<Au>, f: Feed)
    requires Delivered(feeds, from, slot, epoch, codec, aus)
    requires f.slot == slot && f.epoch == epoch && f.codec == codec
    ensures Delivered(feeds + [f], from, slot, epoch, codec, aus + [f.au])
  {
    hide Carries;
    var all := aus + [f.au];
    assert Carries(f, slot, epoch, codec, f.au) by { Itself(f); }
    forall j | 0 <= j < |all| ensures Carries((feeds + [f])[from + j], slot, epoch, codec, all[j]) {
      if j < |aus| { assert Carries(feeds[from + j], slot, epoch, codec, aus[j]); }
    }
  }

  lemma Itself(f: Feed)
    ensures Carries(f, f.slot, f.epoch, f.codec, f.au)
  {
  }

  /** A replay that is not cut short hands over the whole cache. */
  lemma {:induction false} ReplayDelivers(c: Core, i: nat, aus: seq<Au>, envs: seq<Env>)
    requires i < |c.slots| && Settled(c, i) && c.active == i && !c.slots[i].snap.armed
    requires aus != [] ==> MayEnter(c, i, aus[0])
    ensures Onward(c, ReplayAll(c, i, aus, envs), i)
    ensures !Stopped(ReplayAll(c, i, aus, envs), i) ==>
              Delivered(ReplayAll(c, i, aus, envs).feeds, |c.feeds|, i, c.slots[i].epoch, c.slots[i].codec, aus)
    ensures !Stopped(ReplayAll(c, i, aus, envs), i) && aus != [] ==> Holds(ReplayAll(c, i, aus, envs), i)
    decreases |aus|
  {
    hide Ingest, Report, ScanVerdict;
    if aus != [] {
      var n := |aus| - 1;
      ReplayDelivers(c, i, aus[..n], envs);
      var d := ReplayAll(c, i, aus[..n], envs);
      if n == 0 || !Stopped(d, i) {
        IngestReaches(d, i, aus[n], EnvAt(envs, n));
        var e := Ingest(d, i, aus[n], EnvAt(envs, n));
        ReportStops(e, i, false);
        if !Stopped(ReplayAll(c, i, aus, envs), i) {
          assert aus[..n] + [aus[n]] == aus;
          DeliveredMore(d.feeds, |c.feeds|, i, c.slots[i].epoch, c.slots[i].codec, aus[..n], e.feeds[|d.feeds|]);
        }
      }
    }
  }
}
