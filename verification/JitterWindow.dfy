// The controller's state in memory: a circular sample table and a histogram
// kept up to date with it.
module JitterWindow {
  import opened Bytes
  import opened AudioJitter

  function Cell(head: nat, i: nat): (r: nat)
    ensures r < SAMPLES
  {
    (head + i) % SAMPLES
  }

  /** The samples from head on, round the table. */
  function Live(arrivals: seq<int>, buckets: seq<nat>, head: nat, count: nat): (r: seq<Sample>)
    requires |arrivals| == |buckets| == SAMPLES
    ensures |r| == count
  {
    seq(count, i requires 0 <= i < count => Sample(arrivals[Cell(head, i)], buckets[Cell(head, i)]))
  }

  lemma LiveDrop(arrivals: seq<int>, buckets: seq<nat>, head: nat, count: nat)
    requires |arrivals| == |buckets| == SAMPLES && count > 0
    ensures Live(arrivals, buckets, (head + 1) % SAMPLES, count - 1) == Live(arrivals, buckets, head, count)[1..]
  {
    var next := (head + 1) % SAMPLES;
    forall i | 0 <= i < count - 1 ensures Cell(next, i) == Cell(head, i + 1) {}
  }

  lemma LiveAdd(arrivals: seq<int>, buckets: seq<nat>, head: nat, count: nat, sample: Sample)
    requires |arrivals| == |buckets| == SAMPLES && count < SAMPLES
    ensures var tail := Cell(head, count);
            Live(arrivals[tail := sample.arrival], buckets[tail := sample.bucket], head, count + 1)
            == Live(arrivals, buckets, head, count) + [sample]
  {
    forall i | 0 <= i < count ensures Cell(head, i) != Cell(head, count) {
      Apart(head + i, head + count);
    }
  }

  lemma Apart(a: nat, b: nat)
    requires a < b < a + SAMPLES
    ensures a % SAMPLES != b % SAMPLES
  {
    var q := b / SAMPLES - a / SAMPLES;
    assert b - a == q * SAMPLES + (b % SAMPLES - a % SAMPLES);
  }

  class Jitter {
    var haveArrival: bool
    var lastArrival: int
    var lastTimestamp: int
    var lastChange: int
    var seenUnderruns: int
    const arrivals: array<int>
    const buckets: array<nat>
    const histogram: array<nat>
    var head: nat
    var count: nat

    ghost predicate Shape()
      reads this
    {
      && arrivals.Length == SAMPLES && buckets.Length == SAMPLES && histogram.Length == BUCKETS
      && head < SAMPLES && count <= SAMPLES && arrivals != histogram as object && buckets != histogram
      && arrivals != buckets as object
    }

    ghost function Window(): (r: seq<Sample>)
      requires Shape()
      reads this, arrivals, buckets
      ensures |r| == count
    {
      Live(arrivals[..], buckets[..], head, count)
    }

    /** The histogram counts the live samples of every bucket. */
    ghost predicate Valid()
      reads this, arrivals, buckets, histogram
    {
      && Shape() && InRange(Window())
      && forall b :: 0 <= b < BUCKETS ==> histogram[b] == Count(Buckets(Window()), b)
    }

    ghost function Value(): Controller
      requires Shape()
      reads this, arrivals, buckets
    {
      Controller(haveArrival, lastArrival, lastTimestamp, lastChange, seenUnderruns, Window())
    }

    constructor (now: int, underruns: int)
      ensures Valid() && fresh(arrivals) && fresh(buckets) && fresh(histogram)
      ensures Value() == ResetTo(now, underruns)
    {
      haveArrival, lastArrival, lastTimestamp, lastChange, seenUnderruns := false, 0, 0, now, underruns;
      arrivals := new int[SAMPLES](_ => 0);
      buckets := new nat[SAMPLES](_ => 0);
      histogram := new nat[BUCKETS](_ => 0);
      head, count := 0, 0;
    }

    method Clear()
      requires Shape()
      modifies this`head, this`count, histogram
      ensures Valid() && Value() == old(Value()).(window := [])
    {
      forall b | 0 <= b < BUCKETS { histogram[b] := 0; }
      head, count := 0, 0;
      assert Window() == [];
    }

    method MarkDiscontinuity()
      requires Valid()
      modifies this`haveArrival
      ensures Valid() && Value() == old(Value()).(haveArrival := false)
    {
      haveArrival := false;
    }

    method RemoveOldest()
      requires Valid()
      modifies this`head, this`count, histogram
      ensures Valid() && Window() == if old(count) == 0 then [] else old(Window())[1..]
    {
      if count == 0 { return; }
      ghost var w := Window();
      var bucket := buckets[head];
      assert w[0].bucket == bucket;
      if bucket < BUCKETS && histogram[bucket] > 0 { histogram[bucket] := histogram[bucket] - 1; }
      LiveDrop(arrivals[..], buckets[..], head, count);
      head := (head + 1) % SAMPLES;
      count := count - 1;
      assert Window() == w[1..];
      assert Buckets(w[1..]) == Buckets(w)[1..];
    }

    method ExpireOld(now: int)
      requires Valid()
      modifies this`head, this`count, histogram
      ensures Valid() && Window() == Expire(old(Window()), now)
    {
      hide Wrap32, Count;
      while count > 0
        invariant Valid() && Expire(Window(), now) == Expire(old(Window()), now)
        decreases count
      {
        assert Window()[0].arrival == arrivals[head];
        if Wrap32(now - arrivals[head]) <= WINDOW_MS { break; }
        RemoveOldest();
      }
    }

    method Percentile() returns (ms: nat)
      requires Valid()
      ensures ms == P95(Window())
    {
      hide Count, Below, Live;
      if count == 0 { return 0; }
      ghost var values := Buckets(Window());
      var threshold := Threshold(count);
      var seen := 0;
      var bucket := 0;
      NoneBelow(values, 0);
      while bucket < BUCKETS
        invariant bucket <= BUCKETS && seen == Below(values, bucket)
        invariant Search(values, threshold, 0) == Search(values, threshold, bucket)
      {
        BelowCount(values, bucket);
        seen := seen + histogram[bucket];
        if seen >= threshold { return bucket * BUCKET_MS; }
        bucket := bucket + 1;
      }
      return (BUCKETS - 1) * BUCKET_MS;
    }

    method AddSample(now: int, variation: nat) returns (ms: nat)
      requires Valid()
      modifies this`head, this`count, arrivals, buckets, histogram
      ensures Valid() && Window() == Add(old(Window()), now, variation) && ms == P95(Window())
    {
      hide Expire, Wrap32;
      ExpireOld(now);
      if count == SAMPLES { RemoveOldest(); }
      Append(Sample(now, BucketOf(variation)));
      ms := Percentile();
    }

    method Append(sample: Sample)
      requires Valid() && count < SAMPLES && sample.bucket < BUCKETS
      modifies this`count, arrivals, buckets, histogram
      ensures Valid() && Window() == old(Window()) + [sample]
    {
      ghost var w := Window();
      LiveAdd(arrivals[..], buckets[..], head, count, sample);
      var tail := Cell(head, count);
      arrivals[tail] := sample.arrival;
      buckets[tail] := sample.bucket;
      histogram[sample.bucket] := histogram[sample.bucket] + 1;
      count := count + 1;
      assert Window() == w + [sample];
      assert Buckets(w + [sample]) == Buckets(w) + [sample.bucket];
      forall b | 0 <= b < BUCKETS ensures histogram[b] == Count(Buckets(Window()), b) {
        CountAppend(Buckets(w), sample.bucket, b);
      }
    }

    method Update(frames: nat, rate: nat, timestamp: int, now: int, underruns: int, current: nat) returns (u: Update)
      requires Valid()
      modifies this, arrivals, buckets, histogram
      ensures Valid() && (Value(), u) == Updated(old(Value()), frames, rate, timestamp, now, underruns, current)
    {
      hide Wrap32, P95, Add, Duration, Clamp, Count;
      var p95 := Percentile();
      var duration := Duration(frames, rate);
      var cadence := Cadence(duration);
      if !haveArrival {
        haveArrival, lastArrival, lastTimestamp, lastChange := true, now, timestamp, now;
        if cadence > current { return AudioJitter.Update(p95, cadence, Raise, false); }
        return AudioJitter.Update(p95, current, Unchanged, false);
      }
      var delta := Wrap32(now - lastArrival);
      if delta > LONG_GAP_MS {
        Clear();
        lastChange, lastArrival, lastTimestamp := now, now, timestamp;
        return AudioJitter.Update(0, Max(cadence, INITIAL_MS), SetTo, true);
      }
      var expected := duration;
      if timestamp != 0 && lastTimestamp != 0 {
        var step := Wrap32(timestamp - lastTimestamp);
        if step != 0 && step <= LONG_GAP_MS { expected := step; }
      }
      var variation := Distance(delta, expected);
      p95 := AddSample(now, variation);
      if underruns != seenUnderruns {
        seenUnderruns := underruns;
        lastChange := now;
      }
      if expected > duration { cadence := Cadence(expected); }
      u := Choose(p95, cadence, variation, now, current);
      lastArrival, lastTimestamp := now, timestamp;
    }

    method Choose(p95: nat, cadence: nat, variation: nat, now: int, current: nat) returns (u: Update)
      requires Valid() && p95 == P95(Window())
      modifies this`lastChange
      ensures Valid() && (Value(), u) == Decide(old(Value()), cadence, variation, now, current)
    {
      hide Wrap32, P95, Clamp, Count;
      var peak := Max(Cadence(variation), cadence);
      if peak > current {
        lastChange := now;
        return AudioJitter.Update(p95, peak, Raise, false);
      }
      var calculated := Clamp(Wrap32(p95 + HEADROOM_MS), cadence, MAX_MS);
      if calculated < current && Wrap32(now - lastChange) >= DECAY_MS {
        lastChange := now;
        return AudioJitter.Update(p95, Reduced(current, calculated), Decay, false);
      }
      return AudioJitter.Update(p95, current, Unchanged, false);
    }
  }
}
