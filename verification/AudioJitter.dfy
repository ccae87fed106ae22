// The arrival-jitter controller: a sliding window of samples with a running
// histogram, a 95th percentile query, and a rate-limited delay target.
module AudioJitter {
  import opened Bytes

  const WINDOW_MS := 10000
  const DECAY_MS := 5000
  const DECAY_STEP_MS := 10
  const LONG_GAP_MS := 500
  const INITIAL_MS := 60
  const MIN_MS := 40
  const MAX_MS := 260
  const HEADROOM_MS := 20
  const BUCKET_MS := 5
  const BUCKETS := 31
  const SAMPLES := 2048

  /** One live sample: 32-bit arrival time and histogram bucket. */
  datatype Sample = Sample(arrival: int, bucket: nat)

  // ---------------------------------------------------------------- window

  predicate Fresh(sample: Sample, now: int) {
    Wrap32(now - sample.arrival) <= WINDOW_MS
  }

  /** Drops samples from the old end up to the first that looks fresh. */
  function Expire(w: seq<Sample>, now: int): seq<Sample>
    decreases |w|
  {
    if w == [] || Fresh(w[0], now) then w else Expire(w[1..], now)
  }

  /** What is left is the longest tail that begins with a fresh sample. */
  lemma {:induction false} ExpireTail(w: seq<Sample>, now: int)
    ensures var r := Expire(w, now);
            && |r| <= |w| && r == w[|w| - |r|..] && (r != [] ==> Fresh(r[0], now))
            && forall i :: 0 <= i < |w| - |r| ==> !Fresh(w[i], now)
    decreases |w|
  {
    hide Fresh;
    if w != [] && !Fresh(w[0], now) {
      ExpireTail(w[1..], now);
      var r := Expire(w[1..], now);
      assert w[1..][|w| - 1 - |r|..] == w[|w| - |r|..];
      forall i | 0 <= i < |w| - |r| ensures !Fresh(w[i], now) {
        if i > 0 { assert w[i] == w[1..][i - 1]; }
      }
    }
  }

  function BucketOf(variation: nat): (r: nat)
    ensures r < BUCKETS
  {
    if variation / BUCKET_MS >= BUCKETS then BUCKETS - 1 else variation / BUCKET_MS
  }

  function Evict(w: seq<Sample>): seq<Sample> {
    if |w| == SAMPLES then w[1..] else w
  }

  function Add(w: seq<Sample>, now: int, variation: nat): seq<Sample> {
    Evict(Expire(w, now)) + [Sample(now, BucketOf(variation))]
  }

  function Buckets(w: seq<Sample>): (r: seq<nat>)
    ensures |r| == |w|
  {
    seq(|w|, i requires 0 <= i < |w| => w[i].bucket)
  }

  /** How many values lie below v. */
  function Below(values: seq<nat>, v: nat): (r: nat)
    ensures r <= |values|
    decreases |values|
  {
    if values == [] then 0 else (if values[0] < v then 1 else 0) + Below(values[1..], v)
  }

  function Count(values: seq<nat>, v: nat): nat
    decreases |values|
  {
    if values == [] then 0 else (if values[0] == v then 1 else 0) + Count(values[1..], v)
  }

  function Threshold(count: nat): nat {
    (count * 95 + 99) / 100
  }

  /** The smallest bucket from b on that at least rank values do not exceed. */
  function Search(values: seq<nat>, rank: nat, b: nat): nat
    decreases BUCKETS - b
  {
    if b >= BUCKETS - 1 then BUCKETS - 1
    else if rank <= Below(values, b + 1) then b
    else Search(values, rank, b + 1)
  }

  /** jitter_p95. */
  function P95(w: seq<Sample>): nat {
    if w == [] then 0 else BUCKET_MS * Search(Buckets(w), Threshold(|w|), 0)
  }

  predicate Sorted(values: seq<nat>) {
    forall i, j :: 0 <= i < j < |values| ==> values[i] <= values[j]
  }

  lemma {:induction false} BelowSplit(a: seq<nat>, b: seq<nat>, v: nat)
    ensures Below(a + b, v) == Below(a, v) + Below(b, v)
    decreases |a|
  {
    if a == [] {
      assert a + b == b;
    } else {
      assert (a + b)[1..] == a[1..] + b;
      BelowSplit(a[1..], b, v);
    }
  }

  /** Counting does not depend on the order. */
  lemma {:induction false} BelowPermuted(a: seq<nat>, b: seq<nat>, v: nat)
    requires multiset(a) == multiset(b)
    ensures Below(a, v) == Below(b, v)
    decreases |a|
  {
    if a == [] {
      assert |multiset(b)| == 0;
    } else {
      assert a[0] in multiset(b);
      var k :| 0 <= k < |b| && b[k] == a[0];
      var rest := b[..k] + b[k + 1..];
      assert b == b[..k] + ([b[k]] + b[k + 1..]);
      assert a == [a[0]] + a[1..];
      assert multiset(a[1..]) == multiset(a) - multiset{a[0]};
      assert multiset(b) == multiset(b[..k]) + multiset([b[k]] + b[k + 1..]);
      assert multiset(rest) == multiset(b) - multiset{b[k]};
      BelowPermuted(a[1..], rest, v);
      BelowSplit(b[..k], b[k + 1..], v);
      BelowSplit(b[..k], [b[k]] + b[k + 1..], v);
      assert ([b[k]] + b[k + 1..])[1..] == b[k + 1..];
    }
  }

  lemma {:induction false} AllBelow(values: seq<nat>, v: nat)
    requires forall i :: 0 <= i < |values| ==> values[i] < v
    ensures Below(values, v) == |values|
    decreases |values|
  {
    if values != [] { AllBelow(values[1..], v); }
  }

  lemma {:induction false} NoneBelow(values: seq<nat>, v: nat)
    requires forall i :: 0 <= i < |values| ==> v <= values[i]
    ensures Below(values, v) == 0
    decreases |values|
  {
    if values != [] { NoneBelow(values[1..], v); }
  }

  /** The value the rank-th smallest sample has, by counting. */
  predicate RankedAt(values: seq<nat>, rank: nat, v: nat) {
    Below(values, v) < rank <= Below(values, v + 1)
  }

  /** Counting finds the same value as sorting: the nearest-rank order statistic. */
  lemma NearestRank(values: seq<nat>, sorted: seq<nat>, rank: nat, v: nat)
    requires multiset(values) == multiset(sorted) && Sorted(sorted) && RankedAt(values, rank, v)
    ensures rank <= |sorted| && sorted[rank - 1] == v
  {
    BelowPermuted(values, sorted, v);
    BelowPermuted(values, sorted, v + 1);
    var low, high := sorted[..rank - 1], sorted[rank - 1..];
    assert sorted == low + high;
    if sorted[rank - 1] < v {
      assert sorted == sorted[..rank] + sorted[rank..];
      AllBelow(sorted[..rank], v);
      BelowSplit(sorted[..rank], sorted[rank..], v);
    }
    if sorted[rank - 1] > v {
      NoneBelow(high, v + 1);
      BelowSplit(low, high, v + 1);
    }
  }

  lemma {:induction false} SearchFinds(values: seq<nat>, rank: nat, b: nat)
    requires b < BUCKETS && Below(values, b) < rank <= |values|
    requires forall i :: 0 <= i < |values| ==> values[i] < BUCKETS
    ensures RankedAt(values, rank, Search(values, rank, b))
    decreases BUCKETS - b
  {
    if b == BUCKETS - 1 {
      AllBelow(values, BUCKETS);
    } else if rank > Below(values, b + 1) {
      SearchFinds(values, rank, b + 1);
    }
  }

  predicate InRange(w: seq<Sample>) {
    forall i :: 0 <= i < |w| ==> w[i].bucket < BUCKETS
  }

  /** The reported percentile is the nearest-rank 95th percentile of the sorted live buckets. */
  lemma PercentileIsNearestRank(w: seq<Sample>, sorted: seq<nat>)
    requires w != [] && InRange(w) && multiset(Buckets(w)) == multiset(sorted) && Sorted(sorted)
    ensures 0 < Threshold(|w|) <= |sorted| && P95(w) == BUCKET_MS * sorted[Threshold(|w|) - 1]
  {
    NoneBelow(Buckets(w), 0);
    SearchFinds(Buckets(w), Threshold(|w|), 0);
    NearestRank(Buckets(w), sorted, Threshold(|w|), Search(Buckets(w), Threshold(|w|), 0));
  }

  lemma {:induction false} BelowCount(values: seq<nat>, v: nat)
    ensures Below(values, v + 1) == Below(values, v) + Count(values, v)
    decreases |values|
  {
    if values != [] { BelowCount(values[1..], v); }
  }

  lemma {:induction false} CountAppend(values: seq<nat>, x: nat, v: nat)
    ensures Count(values + [x], v) == Count(values, v) + if x == v then 1 else 0
    decreases |values|
  {
    if values == [] {
      assert [x][1..] == [];
      assert [] + [x] == [x];
    } else {
      assert (values + [x])[1..] == values[1..] + [x];
      CountAppend(values[1..], x, v);
    }
  }

  // ---------------------------------------------------------- window bound

  /** True arrival times behind 32-bit ones, oldest first. */
  predicate Timed(w: seq<Sample>, times: seq<nat>) {
    |times| == |w| && forall i :: 0 <= i < |w| ==> w[i].arrival == Wrap32(times[i])
  }

  predicate Monotone(times: seq<nat>, now: nat) {
    && (forall i, j :: 0 <= i < j < |times| ==> times[i] <= times[j])
    && forall i :: 0 <= i < |times| ==> times[i] <= now
  }

  predicate Within(times: seq<nat>, now: nat) {
    forall i :: 0 <= i < |times| ==> now - times[i] <= WINDOW_MS
  }

  lemma WrappedAge(now: nat, at: nat)
    requires at <= now
    ensures Wrap32(Wrap32(now) - Wrap32(at)) == Wrap32(now - at)
  {
    var qa, qb := now / U32_SPAN, at / U32_SPAN;
    assert Wrap32(now) - Wrap32(at) == (now - at) - (qa - qb) * U32_SPAN;
    var d := (now - at) / U32_SPAN;
    assert (now - at) - (qa - qb) * U32_SPAN == (d - (qa - qb)) * U32_SPAN + Wrap32(now - at);
  }

  /** The 32-bit clock has run round on a sample: too old in truth, fresh by its 32-bit age. */
  predicate LappedAt(at: nat, now: nat) {
    at + WINDOW_MS < now && Wrap32(now - at) <= WINDOW_MS
  }

  predicate Lapped(times: seq<nat>, now: nat) {
    exists i :: 0 <= i < |times| && LappedAt(times[i], now)
  }

  lemma FreshAge(w: seq<Sample>, times: seq<nat>, now: nat, i: nat)
    requires Timed(w, times) && Monotone(times, now) && i < |w|
    ensures Fresh(w[i], Wrap32(now)) == (Wrap32(now - times[i]) <= WINDOW_MS)
  {
    hide Wrap32;
    WrappedAge(now, times[i]);
  }

  /** The true times of the samples that outlive the expiry. */
  function Kept(w: seq<Sample>, times: seq<nat>, now: int): seq<nat>
    requires |times| == |w|
  {
    ExpireTail(w, now);
    times[|w| - |Expire(w, now)|..]
  }

  lemma NotLappedHolds(w: seq<Sample>, times: seq<nat>, now: nat)
    requires Timed(w, times) && Monotone(times, now) && !Lapped(times, now)
    ensures Within(Kept(w, times, Wrap32(now)), now)
  {
    ExpireTail(w, Wrap32(now));
    var k := |w| - |Expire(w, Wrap32(now))|;
    if k < |w| {
      FreshAge(w, times, now, k);
      hide Wrap32, Fresh, Expire;
      assert times[k] + WINDOW_MS >= now;
    }
  }

  lemma HoldsNotLapped(w: seq<Sample>, times: seq<nat>, now: nat)
    requires Timed(w, times) && Monotone(times, now) && Within(Kept(w, times, Wrap32(now)), now)
    ensures !Lapped(times, now)
  {
    ExpireTail(w, Wrap32(now));
    var kept := Kept(w, times, Wrap32(now));
    var k := |w| - |kept|;
    forall i | 0 <= i < |times| ensures !LappedAt(times[i], now) {
      if i < k { FreshAge(w, times, now, i); } else { assert kept[i - k] == times[i]; }
    }
  }

  /** After expiry every sample kept is within the window exactly when the 32-bit clock has lapped none. */
  lemma KeptBound(w: seq<Sample>, times: seq<nat>, now: nat)
    requires Timed(w, times) && Monotone(times, now)
    ensures Within(Kept(w, times, Wrap32(now)), now) <==> !Lapped(times, now)
  {
    hide Lapped, Within, Wrap32, Monotone, Kept;
    if Lapped(times, now) {
      if Within(Kept(w, times, Wrap32(now)), now) { HoldsNotLapped(w, times, now); }
    } else {
      NotLappedHolds(w, times, now);
    }
  }

  // ---------------------------------------------------------------- update

  datatype Action = Unchanged | SetTo | Raise | Decay

  datatype Update = Update(p95: nat, target: nat, action: Action, talkspurt: bool)

  datatype Controller = Controller(haveArrival: bool, lastArrival: int, lastTimestamp: int, lastChange: int,
                                   seenUnderruns: int, window: seq<Sample>)

  function Duration(frames: nat, rate: nat): int {
    var ms := if rate == 0 then 0 else Wrap32((frames * 1000 + rate / 2) / rate);
    if ms == 0 then 1 else ms
  }

  function Cadence(ms: int): (r: nat)
    ensures MIN_MS <= r <= MAX_MS
  {
    Clamp(Wrap32(ms + HEADROOM_MS), MIN_MS, MAX_MS)
  }

  /** The spacing the timestamps announce, or the block's own duration. */
  function Expected(c: Controller, timestamp: int, duration: int): int {
    var delta := Wrap32(timestamp - c.lastTimestamp);
    if timestamp != 0 && c.lastTimestamp != 0 && delta != 0 && delta <= LONG_GAP_MS then delta else duration
  }

  function Distance(a: int, b: int): nat {
    if a > b then a - b else b - a
  }

  function Max(a: nat, b: nat): nat {
    if a > b then a else b
  }

  function Reduced(current: nat, calculated: nat): nat {
    Max(if current > DECAY_STEP_MS then current - DECAY_STEP_MS else MIN_MS, calculated)
  }

  /** The decision after the window holds the new sample. */
  function Decide(c: Controller, cadence: nat, variation: nat, now: int, current: nat): (Controller, Update) {
    var p95 := P95(c.window);
    var peak := Max(Cadence(variation), cadence);
    if peak > current then (c.(lastChange := now), Update(p95, peak, Raise, false))
    else
      var calculated := Clamp(Wrap32(p95 + HEADROOM_MS), cadence, MAX_MS);
      if calculated < current && Wrap32(now - c.lastChange) >= DECAY_MS
      then (c.(lastChange := now), Update(p95, Reduced(current, calculated), Decay, false))
      else (c, Update(p95, current, Unchanged, false))
  }

  /** native_audio_jitter_update. */
  function Updated(c: Controller, frames: nat, rate: nat, timestamp: int, now: int, underruns: int, current: nat)
    : (Controller, Update)
  {
    var duration := Duration(frames, rate);
    var cadence := Cadence(duration);
    if !c.haveArrival then
      (c.(haveArrival := true, lastArrival := now, lastTimestamp := timestamp, lastChange := now),
       if cadence > current then Update(P95(c.window), cadence, Raise, false)
       else Update(P95(c.window), current, Unchanged, false))
    else if Wrap32(now - c.lastArrival) > LONG_GAP_MS then
      (c.(window := [], lastChange := now, lastArrival := now, lastTimestamp := timestamp),
       Update(0, Max(cadence, INITIAL_MS), SetTo, true))
    else
      var expected := Expected(c, timestamp, duration);
      var variation := Distance(Wrap32(now - c.lastArrival), expected);
      var d := c.(window := Add(c.window, now, variation), seenUnderruns := underruns,
                  lastChange := if underruns != c.seenUnderruns then now else c.lastChange);
      var (e, update) := Decide(d, if expected > duration then Cadence(expected) else cadence, variation, now, current);
      (e.(lastArrival := now, lastTimestamp := timestamp), update)
  }

  /** Which target an update may ask for, given the one it saw. */
  predicate Legal(current: nat, u: Update) {
    && MIN_MS <= u.target <= MAX_MS
    && match u.action
       case Unchanged => u.target == current
       case SetTo => u.talkspurt && u.target >= INITIAL_MS
       case Raise => u.target > current
       case Decay => u.target < current && current - u.target <= DECAY_STEP_MS
  }

  /** Every decision stays within 40 to 260 ms; a raise raises and a decay gives up at most 10 ms. */
  lemma UpdateLegal(c: Controller, frames: nat, rate: nat, timestamp: int, now: int, underruns: int, current: nat)
    requires MIN_MS <= current <= MAX_MS
    ensures Legal(current, Updated(c, frames, rate, timestamp, now, underruns, current).1)
    ensures Updated(c, frames, rate, timestamp, now, underruns, current).1.talkspurt <==>
              c.haveArrival && Wrap32(now - c.lastArrival) > LONG_GAP_MS
  {
    hide Wrap32, P95, Add, Duration, Expected;
  }

  // -------------------------------------------------- decays are rate limited

  datatype Event =
    | Arrived(frames: nat, rate: nat, timestamp: int, underruns: int, current: nat)
    | Reset(underruns: int)
    | Discontinuity

  function ResetTo(now: int, underruns: int): Controller {
    Controller(false, 0, 0, now, underruns, [])
  }

  function React(c: Controller, e: Event, now: nat): (Controller, Update) {
    match e
    case Arrived(frames, rate, timestamp, underruns, current) =>
      Updated(c, frames, rate, timestamp, Wrap32(now), underruns, current)
    case Reset(underruns) => (ResetTo(Wrap32(now), underruns), Update(0, 0, Unchanged, false))
    case Discontinuity => (c.(haveArrival := false), Update(0, 0, Unchanged, false))
  }

  /** An arrival soon enough after the one before to become a sample. */
  predicate Adds(c: Controller, e: Event, now: nat) {
    e.Arrived? && c.haveArrival && Wrap32(Wrap32(now) - c.lastArrival) <= LONG_GAP_MS
  }

  predicate Clears(c: Controller, e: Event, now: nat) {
    e.Reset? || (e.Arrived? && c.haveArrival && !Adds(c, e, now))
  }

  function Last(times: seq<nat>, n: nat): seq<nat> {
    if n <= |times| then times[|times| - n..] else times
  }

  /** The true times of the live samples: a new sample joins them, those the window drops go. */
  function Living(live: seq<nat>, c: Controller, e: Event, now: nat): seq<nat> {
    if Adds(c, e, now) then Last(live + [now], |React(c, e, now).0.window|)
    else if Clears(c, e, now) then []
    else live
  }

  /** A controller with the true times of its last change, of the decays it asked for and of its samples. */
  datatype Log = Log(controller: Controller, changed: nat, decays: seq<nat>, live: seq<nat>)

  function Follow(c: Controller, start: nat, events: seq<Event>, times: seq<nat>): Log
    requires |times| == |events|
    decreases |events|
  {
    if events == [] then Log(c, start, [], [])
    else
      var n := |events| - 1;
      var before := Follow(c, start, events[..n], times[..n]);
      var (d, u) := React(before.controller, events[n], times[n]);
      Log(d, if d.lastChange != before.controller.lastChange then times[n] else before.changed,
          if u.action.Decay? then before.decays + [times[n]] else before.decays,
          Living(before.live, before.controller, events[n], times[n]))
  }

  lemma ReactChange(c: Controller, e: Event, now: nat)
    ensures var (d, u) := React(c, e, now);
            && (d.lastChange == c.lastChange || d.lastChange == Wrap32(now))
            && (u.action.Decay? ==> d.lastChange == Wrap32(now) && Wrap32(Wrap32(now) - c.lastChange) >= DECAY_MS)
  {
    hide Wrap32, P95, Add, Duration, Expected, Cadence, Clamp;
  }

  /** Under a monotone clock two decays, of however many events between them, are at least 5000 ms apart. */
  lemma {:induction false} DecaysApart(c: Controller, start: nat, events: seq<Event>, times: seq<nat>)
    requires |times| == |events| && c.lastChange == Wrap32(start)
    requires forall i, j :: 0 <= i < j < |times| ==> times[i] <= times[j]
    requires forall i :: 0 <= i < |times| ==> start <= times[i]
    ensures var log := Follow(c, start, events, times);
            && log.controller.lastChange == Wrap32(log.changed)
            && (log.changed == start || exists i :: 0 <= i < |times| && log.changed == times[i])
            && (forall k :: 0 <= k < |log.decays| ==> log.decays[k] <= log.changed)
            && (forall k :: 0 < k < |log.decays| ==> log.decays[k] - log.decays[k - 1] >= DECAY_MS)
    decreases |events|
  {
    hide React, Wrap32;
    if events != [] {
      var n := |events| - 1;
      DecaysApart(c, start, events[..n], times[..n]);
      var before := Follow(c, start, events[..n], times[..n]);
      ReactChange(before.controller, events[n], times[n]);
      assert before.changed <= times[n];
      WrappedAge(times[n], before.changed);
      WrapAtMost(times[n] - before.changed);
    }
  }

  lemma WrapAtMost(x: nat)
    ensures Wrap32(x) <= x
  {
  }

  // ------------------------------------------------ the window over whole runs

  lemma ReactWindow(c: Controller, e: Event, now: nat)
    ensures var w := React(c, e, now).0.window;
            if Adds(c, e, now) then exists b :: w == Evict(Expire(c.window, Wrap32(now))) + [Sample(Wrap32(now), b)]
            else w == if Clears(c, e, now) then [] else c.window
  {
    hide Wrap32, P95, Expire, Evict, Duration, Cadence, Clamp, Expected;
    if Adds(c, e, now) {
      var variation := Distance(Wrap32(Wrap32(now) - c.lastArrival),
                                Expected(c, e.timestamp, Duration(e.frames, e.rate)));
      assert React(c, e, now).0.window == Add(c.window, Wrap32(now), variation);
    }
  }

  /** Stands for the samples' true times and orders them. */
  predicate Tracked(w: seq<Sample>, live: seq<nat>, now: nat) {
    Timed(w, live) && Monotone(live, now) && |w| <= SAMPLES
  }

  /** What an added sample leaves of the true times: the kept ones, less the oldest if they fill the table,
    * and the new one. */
  lemma LivingAdds(live: seq<nat>, c: Controller, e: Event, now: nat)
    requires Adds(c, e, now) && Timed(c.window, live)
    ensures var kept := Kept(c.window, live, Wrap32(now));
            Living(live, c, e, now) == (if |kept| == SAMPLES then kept[1..] else kept) + [now]
    ensures |React(c, e, now).0.window| == |Living(live, c, e, now)|
  {
    hide Wrap32, Fresh, Expire, React, Adds;
    ReactWindow(c, e, now);
    ExpireTail(c.window, Wrap32(now));
  }

  lemma LivingTracks(live: seq<nat>, c: Controller, e: Event, before: nat, now: nat)
    requires Tracked(c.window, live, before) && before <= now
    ensures Tracked(React(c, e, now).0.window, Living(live, c, e, now), now)
  {
    ReactWindow(c, e, now);
    ExpireTail(c.window, Wrap32(now));
    hide Wrap32, Fresh, Expire, React, Adds, Clears;
    if Adds(c, e, now) {
      LivingAdds(live, c, e, now);
      hide Living;
    }
  }

  predicate Clocked(start: nat, times: seq<nat>) {
    && (forall i, j :: 0 <= i < j < |times| ==> times[i] <= times[j])
    && forall i :: 0 <= i < |times| ==> start <= times[i]
  }

  lemma {:induction false} RunTracks(c: Controller, start: nat, events: seq<Event>, times: seq<nat>)
    requires |times| == |events| && Clocked(start, times) && c.window == []
    ensures var log := Follow(c, start, events, times);
            Tracked(log.controller.window, log.live, if times == [] then start else times[|times| - 1])
    decreases |events|
  {
    hide React, Living;
    if events != [] {
      var n := |events| - 1;
      RunTracks(c, start, events[..n], times[..n]);
      var before := Follow(c, start, events[..n], times[..n]);
      hide Tracked;
      LivingTracks(before.live, before.controller, events[n], if n == 0 then start else times[n - 1], times[n]);
    }
  }

  /** The state in front of event k of a run. */
  function Before(c: Controller, start: nat, events: seq<Event>, times: seq<nat>, k: nat): Log
    requires |times| == |events| && k <= |events|
  {
    Follow(c, start, events[..k], times[..k])
  }

  lemma AfterEvent(c: Controller, start: nat, events: seq<Event>, times: seq<nat>, k: nat)
    requires |times| == |events| && k < |events|
    ensures var b := Before(c, start, events, times, k); var a := Before(c, start, events, times, k + 1);
            && a.controller == React(b.controller, events[k], times[k]).0
            && a.live == Living(b.live, b.controller, events[k], times[k])
  {
    assert events[..k + 1][..k] == events[..k] && times[..k + 1][..k] == times[..k];
    hide React, Living;
  }

  /** In every run of arrivals, gaps, resets and discontinuities under a monotone clock: after an arrival that
    * adds a sample, all live samples are at most 10 s old exactly if the 32-bit clock has lapped no sample
    * that was live before, or only the one a full table then drops. */
  lemma WindowBound(c: Controller, start: nat, events: seq<Event>, times: seq<nat>, k: nat)
    requires |times| == |events| && Clocked(start, times) && c.window == [] && k < |events|
    requires Adds(Before(c, start, events, times, k).controller, events[k], times[k])
    ensures var live := Before(c, start, events, times, k).live;
            Within(Before(c, start, events, times, k + 1).live, times[k]) <==>
              !Lapped(live, times[k]) || (|live| == SAMPLES && live[1] + WINDOW_MS >= times[k])
  {
    hide Follow, React, Living, Adds, Wrap32;
    var now, b := times[k], Before(c, start, events, times, k);
    RunTracks(c, start, events[..k], times[..k]);
    AfterEvent(c, start, events, times, k);
    LivingAdds(b.live, b.controller, events[k], now);
    BoundAdds(b.controller.window, b.live, now);
  }

  lemma BoundAdds(w: seq<Sample>, live: seq<nat>, now: nat)
    requires Tracked(w, live, now)
    ensures var kept := Kept(w, live, Wrap32(now));
            Within((if |kept| == SAMPLES then kept[1..] else kept) + [now], now) <==>
              !Lapped(live, now) || (|live| == SAMPLES && live[1] + WINDOW_MS >= now)
  {
    var kept := Kept(w, live, Wrap32(now));
    ExpireTail(w, Wrap32(now));
    KeptBound(w, live, now);
    WithinMore(if |kept| == SAMPLES then kept[1..] else kept, now);
    if |kept| == SAMPLES {
      assert kept == live;
      DropFirst(live, now);
      hide Wrap32, Lapped, Within;
      if !Lapped(live, now) { AllWithin(live, now, 1); }
    } else if |live| == SAMPLES && live[1] + WINDOW_MS >= now {
      FirstGone(w, live, now);
    }
  }

  lemma WithinMore(times: seq<nat>, now: nat)
    ensures Within(times + [now], now) <==> Within(times, now)
  {
    if Within(times + [now], now) {
      forall i | 0 <= i < |times| ensures now - times[i] <= WINDOW_MS {
        assert (times + [now])[i] == times[i];
      }
    }
  }

  lemma AllWithin(times: seq<nat>, now: nat, i: nat)
    requires Within(times, now) && i < |times|
    ensures times[i] + WINDOW_MS >= now
  {
  }

  /** Behind the oldest of ordered times all are within the window exactly if the next one is. */
  lemma DropFirst(times: seq<nat>, now: nat)
    requires Monotone(times, now) && |times| == SAMPLES
    ensures Within(times[1..], now) <==> times[1] + WINDOW_MS >= now
  {
    if Within(times[1..], now) {
      assert times[1..][0] == times[1];
    } else {
      var i :| 0 <= i < |times[1..]| && now - times[1..][i] > WINDOW_MS;
      assert times[1..][i] == times[i + 1];
      assert times[1] <= times[i + 1];
    }
  }

  /** If expiry drops the oldest of a full table and the next one is young enough, no sample was lapped. */
  lemma FirstGone(w: seq<Sample>, live: seq<nat>, now: nat)
    requires Tracked(w, live, now) && |live| == SAMPLES && live[1] + WINDOW_MS >= now
    requires |Kept(w, live, Wrap32(now))| < SAMPLES
    ensures Within(Kept(w, live, Wrap32(now)), now)
  {
    ExpireTail(w, Wrap32(now));
    var kept := Kept(w, live, Wrap32(now));
    forall i | 0 <= i < |kept| ensures now - kept[i] <= WINDOW_MS {
      var j := |live| - |kept| + i;
      assert kept[i] == live[j];
      assert live[1] <= live[j];
    }
  }

  /** The adding arrival comes less than 2^32 - 10000 ms after the newest live sample. */
  predicate InTime(live: seq<nat>, now: nat) {
    live == [] || now < live[|live| - 1] + U32_SPAN - WINDOW_MS
  }

  predicate Paced(c: Controller, start: nat, events: seq<Event>, times: seq<nat>)
    requires |times| == |events|
  {
    forall k :: 0 <= k < |events| ==>
      var b := Before(c, start, events, times, k);
      Adds(b.controller, events[k], times[k]) ==> InTime(b.live, times[k])
  }

  /** All live samples were within the window when the newest of them came. */
  predicate Compact(live: seq<nat>) {
    live != [] ==> Within(live, live[|live| - 1])
  }

  lemma LivingCompact(live: seq<nat>, c: Controller, e: Event, now: nat)
    requires Tracked(c.window, live, now) && Compact(live) && (Adds(c, e, now) ==> InTime(live, now))
    ensures Compact(Living(live, c, e, now))
    ensures Adds(c, e, now) ==> Within(Living(live, c, e, now), now)
  {
    hide Wrap32, React, Adds, Clears;
    if Adds(c, e, now) {
      if live != [] { NotYetLapped(live, live[|live| - 1], now); }
      LivingAdds(live, c, e, now);
      BoundAdds(c.window, live, now);
      assert !Lapped(live, now);
      hide Living, Lapped, Kept, Within;
    }
  }

  lemma NotYetLapped(live: seq<nat>, previous: nat, now: nat)
    requires Within(live, previous) && previous <= now < previous + U32_SPAN - WINDOW_MS
    requires forall i :: 0 <= i < |live| ==> live[i] <= now
    ensures !Lapped(live, now)
  {
    forall i | 0 <= i < |live| ensures !LappedAt(live[i], now) {
      assert previous - live[i] <= WINDOW_MS;
    }
  }

  lemma {:induction false} RunCompact(c: Controller, start: nat, events: seq<Event>, times: seq<nat>, k: nat)
    requires |times| == |events| && Clocked(start, times) && c.window == [] && Paced(c, start, events, times)
    requires k <= |events|
    ensures Compact(Before(c, start, events, times, k).live)
    ensures k > 0 ==>
      var b := Before(c, start, events, times, k - 1);
      Adds(b.controller, events[k - 1], times[k - 1]) ==>
        Within(Before(c, start, events, times, k).live, times[k - 1])
  {
    hide Follow, React, Living, Adds, Wrap32, Within;
    if k == 0 {
      assert Before(c, start, events, times, 0).live == [] by { FollowNothing(c, start); assert events[..0] == []; }
    } else {
      RunCompact(c, start, events, times, k - 1);
      RunTracks(c, start, events[..k - 1], times[..k - 1]);
      AfterEvent(c, start, events, times, k - 1);
      var b := Before(c, start, events, times, k - 1);
      LaterTracked(b.controller.window, b.live, if k == 1 then start else times[k - 2], times[k - 1]);
      LivingCompact(b.live, b.controller, events[k - 1], times[k - 1]);
    }
  }

  lemma FollowNothing(c: Controller, start: nat)
    ensures Follow(c, start, [], []) == Log(c, start, [], [])
  {
  }

  lemma LaterTracked(w: seq<Sample>, live: seq<nat>, before: nat, now: nat)
    requires Tracked(w, live, before) && before <= now
    ensures Tracked(w, live, now)
  {
    hide Wrap32;
  }

  /** In every run whose adding arrivals come less than 2^32 - 10000 ms after the newest live sample, all live
    * samples are at most 10 s old after each of them. */
  lemma WindowHolds(c: Controller, start: nat, events: seq<Event>, times: seq<nat>, k: nat)
    requires |times| == |events| && Clocked(start, times) && c.window == [] && Paced(c, start, events, times)
    requires k < |events| && Adds(Before(c, start, events, times, k).controller, events[k], times[k])
    ensures Within(Before(c, start, events, times, k + 1).live, times[k])
  {
    hide Follow, React, Living, Adds, Wrap32, Within;
    RunCompact(c, start, events, times, k + 1);
  }

  const BLOCK := Arrived(960, 48000, 0, 0, 60)

  lemma ReactArrival(c: Controller, e: Event, now: nat)
    requires e.Arrived?
    ensures React(c, e, now).0.haveArrival && React(c, e, now).0.lastArrival == Wrap32(now)
  {
    hide Wrap32, P95, Add, Duration, Cadence, Clamp, Expected;
  }

  lemma KeptOne(w: seq<Sample>, times: seq<nat>, now: int)
    requires |w| == |times| == 1 && Fresh(w[0], now)
    ensures Expire(w, now) == w && Kept(w, times, now) == times
  {
    hide Fresh;
  }

  lemma Late(c: Controller, now: nat, at: int)
    requires c.haveArrival && c.lastArrival == at && Wrap32(Wrap32(now) - at) <= LONG_GAP_MS
    ensures Adds(c, BLOCK, now)
  {
    hide Wrap32;
  }

  lemma OneSample(c: Controller)
    requires c.haveArrival && c.lastArrival == 0 && c.window == []
    ensures Adds(c, BLOCK, 20) && Living([], c, BLOCK, 20) == [20]
    ensures Timed(React(c, BLOCK, 20).0.window, [20])
  {
    hide React, Living, Adds;
    Late(c, 20, 0);
    ReactWindow(c, BLOCK, 20);
    LivingAdds([], c, BLOCK, 20);
  }

  lemma LappedSample(c: Controller)
    requires c.haveArrival && c.lastArrival == 20 && Timed(c.window, [20])
    ensures Adds(c, BLOCK, U32_SPAN + 40) && Living([20], c, BLOCK, U32_SPAN + 40) == [20, U32_SPAN + 40]
  {
    hide React, Living, Adds, Kept, Expire;
    assert Wrap32(U32_SPAN + 40) == 40 && Wrap32(20) == 20;
    Late(c, U32_SPAN + 40, 20);
    KeptOne(c.window, [20], 40);
    LivingAdds([20], c, BLOCK, U32_SPAN + 40);
  }

  /** The run that breaks the bound: a block 2^32 + 20 ms after the one before looks 20 ms late, passes for no
    * gap and finds the old sample fresh. */
  lemma WindowLapped() returns (events: seq<Event>, times: seq<nat>)
    ensures |times| == |events| == 3 && Clocked(0, times)
    ensures var c := ResetTo(0, 0);
            && Adds(Before(c, 0, events, times, 2).controller, events[2], times[2])
            && Before(c, 0, events, times, 3).live == [20, U32_SPAN + 40]
            && !Within(Before(c, 0, events, times, 3).live, times[2])
  {
    hide Follow, React, Living, Adds, Timed;
    var c := ResetTo(0, 0);
    events, times := [BLOCK, BLOCK, BLOCK], [0, 20, U32_SPAN + 40];
    FirstBlock(events, times);
    AfterEvent(c, 0, events, times, 1);
    AfterEvent(c, 0, events, times, 2);
    OneSample(Before(c, 0, events, times, 1).controller);
    ReactArrival(Before(c, 0, events, times, 1).controller, BLOCK, 20);
    LappedSample(Before(c, 0, events, times, 2).controller);
    assert [20, U32_SPAN + 40][0] == 20;
  }

  lemma FirstBlock(events: seq<Event>, times: seq<nat>)
    requires |times| == |events| && |events| > 0 && events[0] == BLOCK && times[0] == 0
    ensures var one := Before(ResetTo(0, 0), 0, events, times, 1);
            one.controller.haveArrival && one.controller.lastArrival == 0
              && one.controller.window == [] && one.live == []
  {
    hide React, Follow;
    FollowNothing(ResetTo(0, 0), 0);
    assert events[..0] == [] && times[..0] == [];
    AfterEvent(ResetTo(0, 0), 0, events, times, 0);
    ReactWindow(ResetTo(0, 0), BLOCK, 0);
    ReactArrival(ResetTo(0, 0), BLOCK, 0);
  }
}
