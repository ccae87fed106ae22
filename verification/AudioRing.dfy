// The ring of one audio source in memory: the producer's copy loop and the
// consumer's two ways of dropping queued frames, each against the step machine.
module AudioRing {
  import opened Bytes
  import opened AudioSpsc
  import opened AudioIntegrity

  predicate Samples(samples: seq<int>, frames: nat, channels: nat) {
    (channels == 1 || channels == 2) && |samples| == frames * channels
  }

  /** The k-th frame of interleaved samples; a mono sample goes to both sides. */
  function FrameAt(samples: seq<int>, frames: nat, channels: nat, k: nat): Frame
    requires Samples(samples, frames, channels) && k < frames
  {
    if channels == 2 then Frame(samples[2 * k], samples[2 * k + 1]) else Frame(samples[k], samples[k])
  }

  function Frames(samples: seq<int>, frames: nat, channels: nat): (r: seq<Frame>)
    requires Samples(samples, frames, channels)
    ensures |r| == frames
  {
    seq(frames, k requires 0 <= k < frames => FrameAt(samples, frames, channels, k))
  }

  /** The ring after the frames have been written from cursor write on, one after the other. */
  function Written(ring: seq<Frame>, write: int, frames: seq<Frame>): (r: seq<Frame>)
    requires |ring| == CAPACITY
    ensures |r| == CAPACITY
    decreases |frames|
  {
    if frames == [] then ring
    else
      var n := |frames| - 1;
      Written(ring, write, frames[..n])[Wrap32(write + n) % CAPACITY := frames[n]]
  }

  function Repeat(s: State, n: nat): State
    requires |s.ring| == CAPACITY
  {
    if n == 0 then s else Apply(Repeat(s, n - 1), Produce)
  }

  lemma OneWrite(s: State)
    requires |s.ring| == CAPACITY && s.prod.Copy? && s.prod.done < |s.prod.frames|
    ensures var at := Wrap32(s.write + s.prod.done) % CAPACITY;
            Apply(s, Produce) == s.(ring := s.ring[at := s.prod.frames[s.prod.done]],
                                      prod := Copy(s.prod.frames, s.prod.done + 1))
  {
    hide Wrap32;
  }

  /** The producer's copy steps, taken without interruption, write exactly that. */
  lemma {:induction false} StepsWrite(s: State, n: nat)
    requires |s.ring| == CAPACITY && s.prod.Copy? && s.prod.done == 0 && n <= |s.prod.frames|
    ensures Repeat(s, n) == s.(ring := Written(s.ring, s.write, s.prod.frames[..n]), prod := Copy(s.prod.frames, n))
  {
    hide Wrap32, Apply;
    if n > 0 {
      StepsWrite(s, n - 1);
      OneWrite(Repeat(s, n - 1));
      assert s.prod.frames[..n][..n - 1] == s.prod.frames[..n - 1];
    }
  }

  class Ring {
    const cells: array<int>
    var read: int
    var write: int
    var open: bool
    var sampleRate: nat
    var targetMs: nat
    var trimRequested: bool
    var overflows: nat
    var hardCorrections: nat

    ghost predicate Valid()
      reads this
    {
      cells.Length == 2 * CAPACITY && 0 <= read < U32_SPAN && 0 <= write < U32_SPAN
    }

    ghost function Content(): (r: seq<Frame>)
      requires cells.Length == 2 * CAPACITY
      reads cells
      ensures |r| == CAPACITY
    {
      seq(CAPACITY, i requires 0 <= i < CAPACITY reads cells => Frame(cells[2 * i], cells[2 * i + 1]))
    }

    constructor (rate: nat)
      ensures Valid() && read == 0 && write == 0 && !open && sampleRate == rate && targetMs == 60
    {
      cells := new int[2 * CAPACITY](_ => 0);
      read, write, open, sampleRate, targetMs := 0, 0, false, rate, 60;
      trimRequested, overflows, hardCorrections := false, 0, 0;
    }

    /** One stereo cell pair. */
    method Store(pos: nat, f: Frame)
      requires Valid() && pos < CAPACITY
      modifies cells
      ensures Valid() && Content() == old(Content())[pos := f]
    {
      cells[2 * pos] := f.left;
      cells[2 * pos + 1] := f.right;
    }

    /** native_audio_pipeline_push without the arrival controller: fills what fits and reports the rest. */
    method Push(samples: seq<int>, frames: nat, channels: nat) returns (dropped: nat)
      requires Valid() && Samples(samples, frames, channels)
      modifies this`write, this`trimRequested, this`overflows, cells
      ensures Valid()
      ensures !open || frames == 0 ==> dropped == 0 && Content() == old(Content()) && write == old(write)
      ensures open && frames > 0 ==>
        var n := Min(frames, Room(old(write), read));
        && dropped == frames - n && write == Wrap32(old(write) + n)
        && Content() == Written(old(Content()), old(write), Frames(samples, frames, channels)[..n])
      ensures trimRequested == (old(trimRequested) || dropped > 0)
      ensures overflows == old(overflows) + if dropped > 0 then 1 else 0
    {
      if !open || frames == 0 { return 0; }
      var n := Min(frames, Room(write, read));
      dropped := frames - n;
      if dropped > 0 {
        trimRequested := true;
        overflows := overflows + 1;
      }
      ghost var before, all := Content(), Frames(samples, frames, channels);
      assert all[..0] == [];
      var copied := 0;
      while copied < n
        invariant copied <= n && Valid() && write == old(write)
        invariant Content() == Written(before, write, all[..copied])
        modifies cells
      {
        copied := CopyRun(samples, frames, channels, copied, n, before);
      }
      if n > 0 { write := Wrap32(write + n); }
      assert Wrap32(old(write)) == old(write);
    }

    /** One stretch of the copy that does not cross the end of the ring. */
    method CopyRun(samples: seq<int>, frames: nat, channels: nat, copied: nat, n: nat, ghost before: seq<Frame>)
      returns (done: nat)
      requires Valid() && Samples(samples, frames, channels)
      requires copied < n <= frames && |before| == CAPACITY
      requires Content() == Written(before, write, Frames(samples, frames, channels)[..copied])
      modifies cells
      ensures Valid() && copied < done <= n
      ensures Content() == Written(before, write, Frames(samples, frames, channels)[..done])
    {
      hide Written, FrameAt, Wrap32, Samples;
      ghost var all := Frames(samples, frames, channels);
      var pos := Wrap32(write + copied) % CAPACITY;
      var contiguous := CAPACITY - pos;
      if contiguous > n - copied { contiguous := n - copied; }
      var i := 0;
      while i < contiguous
        invariant i <= contiguous && Valid()
        invariant Content() == Written(before, write, all[..copied + i])
      {
        CellNext(write, copied, i);
        var f := FrameAt(samples, frames, channels, copied + i);
        WrittenNext(before, write, all, copied + i);
        Store(pos + i, f);
        i := i + 1;
      }
      done := copied + contiguous;
    }

    /** source_advance_read_cursor: a boundary at most a ring ahead of the reader is taken exactly, and one
      * behind it never moves the reader back, though both are known only by their low 32 bits. */
    method AdvanceReadCursor(boundary: int, ghost readAt: nat, ghost bound: nat)
      requires Valid() && read == Wrap32(readAt) && boundary == Wrap32(bound)
      modifies this`read
      ensures Valid()
      ensures bound <= readAt + CAPACITY && readAt < bound + U32_SPAN - CAPACITY ==>
        read == Wrap32(if readAt < bound then bound else readAt)
      ensures readAt + CAPACITY < bound <= readAt + U32_SPAN - 1 ==> read == old(read)
    {
      DistanceOf(bound, readAt);
      var advance := Wrap32(boundary - read);
      if advance <= CAPACITY { read := boundary; }
    }

    /** source_trim_to_target. */
    method TrimToTarget() returns (dropped: nat)
      requires Valid()
      modifies this`read, this`trimRequested, this`hardCorrections
      ensures Valid() && !trimRequested
      ensures read == Wrap32(old(read) + dropped)
      ensures Wrap32(write - read) == Min(Wrap32(write - old(read)), Keep(targetMs, sampleRate))
      ensures hardCorrections == old(hardCorrections) + if dropped > 0 then 1 else 0
    {
      var available := Wrap32(write - read);
      var keep := Keep(targetMs, sampleRate);
      if available <= keep {
        trimRequested := false;
        return 0;
      }
      dropped := available - keep;
      RestAfter(write, read, dropped);
      read := Wrap32(read + dropped);
      trimRequested := false;
      hardCorrections := hardCorrections + 1;
    }
  }

  lemma WrittenNext(ring: seq<Frame>, write: int, all: seq<Frame>, n: nat)
    requires |ring| == CAPACITY && n < |all|
    ensures Written(ring, write, all[..n + 1]) == Written(ring, write, all[..n])[Wrap32(write + n) % CAPACITY := all[n]]
  {
    assert all[..n + 1][..n] == all[..n];
  }

  /** Inside one stretch the ring cell moves on by one although the cursor is 32 bits wide. */
  lemma CellNext(write: int, copied: nat, i: nat)
    requires 0 <= write && Wrap32(write + copied) % CAPACITY + i < CAPACITY
    ensures Wrap32(write + copied + i) % CAPACITY == Wrap32(write + copied) % CAPACITY + i
  {
    WrapCell(write + copied);
    WrapCell(write + copied + i);
    var q := (write + copied) / CAPACITY;
    assert write + copied + i == q * CAPACITY + ((write + copied) % CAPACITY + i);
  }

  /** The 32-bit distance of two wrapped cursors, less than a wrap apart either way. */
  lemma DistanceOf(bound: nat, readAt: nat)
    ensures readAt <= bound < readAt + U32_SPAN ==> Wrap32(Wrap32(bound) - Wrap32(readAt)) == bound - readAt
    ensures bound < readAt < bound + U32_SPAN ==>
      Wrap32(Wrap32(bound) - Wrap32(readAt)) == U32_SPAN - (readAt - bound)
  {
    if readAt <= bound < readAt + U32_SPAN {
      WrappedDistance(bound, readAt);
    } else if bound < readAt < bound + U32_SPAN {
      WrappedDistance(readAt, bound);
      Negate(Wrap32(readAt), Wrap32(bound), readAt - bound);
    }
  }

  lemma RestAfter(write: int, read: int, dropped: nat)
    requires 0 <= write < U32_SPAN && 0 <= read < U32_SPAN && dropped <= Wrap32(write - read)
    ensures Wrap32(write - Wrap32(read + dropped)) == Wrap32(write - read) - dropped
  {
  }
}
