// The microphone converter: exact rational resampling to 44100 Hz stereo, gain in
// 1/32768 steps, and packets of a fixed number of frames.
module InputPcm {

  const WIRE := 44100
  const UNITY := 32768
  const S16_MAX := 32767
  const S16_MIN := -32768

  datatype Frame = Frame(left: int, right: int)

  /** C division: the quotient is cut off toward zero. */
  function Quot(a: int, b: nat): int
    requires b > 0
  {
    if a >= 0 then a / b else -((-a) / b)
  }

  /** Linear interpolation in 1/44100 of the way from a to b. */
  function Blend(a: int, b: int, fraction: nat): int
    requires fraction <= WIRE
  {
    Quot(a * (WIRE - fraction) + b * fraction, WIRE)
  }

  function BlendFrame(a: Frame, b: Frame, fraction: nat): Frame
    requires fraction <= WIRE
  {
    Frame(Blend(a.left, b.left, fraction), Blend(a.right, b.right, fraction))
  }

  /** The input sample at or right after position p, in units of 1/44100 of an input frame. */
  function Upper(p: nat): (i: nat)
    ensures i == 0 <==> p == 0
    ensures i > 0 ==> (i - 1) * WIRE < p <= i * WIRE
  {
    (p + WIRE - 1) / WIRE
  }

  /** The signal's value at rational position p / 44100. */
  function At(heard: seq<Frame>, p: nat): Frame
    requires p <= (|heard| - 1) * WIRE
  {
    var i := Upper(p);
    assert i < |heard|;
    if i == 0 then heard[0] else BlendFrame(heard[i - 1], heard[i], p - (i - 1) * WIRE)
  }

  /** How many output frames n input frames give. */
  function Count(n: nat, rate: nat): nat
    requires rate > 0
  {
    if n == 0 then 0 else (n - 1) * WIRE / rate + 1
  }

  lemma CountBounds(n: nat, rate: nat, k: nat)
    requires rate > 0 && n > 0
    ensures k < Count(n, rate) <==> k * rate <= (n - 1) * WIRE
  {
    var q := (n - 1) * WIRE / rate;
    assert (n - 1) * WIRE == q * rate + (n - 1) * WIRE % rate;
    if k <= q {
      assert q * rate - k * rate == (q - k) * rate;
    } else {
      assert k * rate - (q + 1) * rate == (k - (q + 1)) * rate;
    }
  }

  /** The converter's output before gain, in closed form: frame k lies at k * rate / 44100. */
  function Closed(heard: seq<Frame>, rate: nat): (r: seq<Frame>)
    requires rate > 0
    ensures |r| == Count(|heard|, rate)
  {
    First(heard, rate, Count(|heard|, rate))
  }

  function First(heard: seq<Frame>, rate: nat, m: nat): (r: seq<Frame>)
    requires rate > 0 && m <= Count(|heard|, rate)
    ensures |r| == m
  {
    seq(m, k requires 0 <= k < m =>
      (if heard == [] then Frame(0, 0) else CountBounds(|heard|, rate, k); At(heard, k * rate)))
  }

  // ------------------------------------------------------------------ gain

  function Clamp16(x: int): int {
    if x > S16_MAX then S16_MAX else if x < S16_MIN then S16_MIN else x
  }

  function Gained(gain: int, sample: int): int {
    var scaled := sample * gain;
    Clamp16(Quot(if scaled >= 0 then scaled + 16384 else scaled - 16384, UNITY))
  }

  function GainFrame(gain: int, f: Frame): Frame {
    Frame(Gained(gain, f.left), Gained(gain, f.right))
  }

  function GainAll(gain: int, frames: seq<Frame>): (r: seq<Frame>)
    ensures |r| == |frames|
  {
    seq(|frames|, k requires 0 <= k < |frames| => GainFrame(gain, frames[k]))
  }

  predicate IsS16(x: int) {
    S16_MIN <= x <= S16_MAX
  }

  /** The gain is the exact product rounded to the nearest step, then held within 16 bits. */
  lemma GainRounds(gain: int, sample: int)
    ensures IsS16(Gained(gain, sample))
    ensures Gained(gain, sample) * UNITY - sample * gain <= 16384 || Gained(gain, sample) == S16_MIN
    ensures sample * gain - Gained(gain, sample) * UNITY <= 16384 || Gained(gain, sample) == S16_MAX
  {
  }

  lemma UnityGain(sample: int)
    requires IsS16(sample)
    ensures Gained(UNITY, sample) == sample
  {
  }

  // --------------------------------------------------------- interpolation

  /** A value between two samples never leaves the range they span. */
  lemma BlendBetween(a: int, b: int, fraction: nat)
    requires fraction <= WIRE
    ensures a <= b ==> a <= Blend(a, b, fraction) <= b
    ensures b <= a ==> b <= Blend(a, b, fraction) <= a
  {
    hide Quot;
    var sum := a * (WIRE - fraction) + b * fraction;
    if a <= b {
      Spread(a, b, fraction);
      QuotBetween(sum, a, b);
    }
    if b <= a {
      Spread(b, a, WIRE - fraction);
      QuotBetween(sum, b, a);
    }
  }

  lemma Spread(low: int, high: int, part: nat)
    requires low <= high && part <= WIRE
    ensures low * WIRE <= low * (WIRE - part) + high * part <= high * WIRE
  {
    var d := high - low;
    assert high * part == low * part + d * part;
    assert low * (WIRE - part) == low * WIRE - low * part;
    Scale(d, part);
  }

  lemma Scale(d: nat, part: nat)
    requires part <= WIRE
    ensures 0 <= d * part <= d * WIRE
  {
    assert d * WIRE == d * part + d * (WIRE - part);
  }

  lemma QuotBetween(x: int, low: int, high: int)
    requires low * WIRE <= x <= high * WIRE
    ensures low <= Quot(x, WIRE) <= high
  {
  }

  lemma BlendEnd(a: int, b: int)
    ensures Blend(a, b, WIRE) == b && Blend(a, b, 0) == a
  {
    Multiple(a);
    Multiple(b);
  }

  lemma Multiple(a: int)
    ensures Quot(a * WIRE, WIRE) == a
  {
    if a >= 0 {
      assert a * WIRE >= 0;
    } else {
      assert -(a * WIRE) == (-a) * WIRE;
    }
  }

  /** At 44100 Hz nothing is resampled. */
  lemma SameRate(heard: seq<Frame>)
    ensures Closed(heard, WIRE) == heard
  {
    if heard != [] {
      assert Count(|heard|, WIRE) == |heard|;
      forall k | 0 <= k < |heard| ensures Closed(heard, WIRE)[k] == heard[k] {
        CountBounds(|heard|, WIRE, k);
        assert Upper(k * WIRE) == k;
        if k > 0 {
          BlendEnd(heard[k - 1].left, heard[k].left);
          BlendEnd(heard[k - 1].right, heard[k].right);
        }
      }
    }
  }

  /** At 44100 Hz and 0 dB the converter is the identity on 16-bit frames. */
  lemma Identity(heard: seq<Frame>)
    requires forall k :: 0 <= k < |heard| ==> IsS16(heard[k].left) && IsS16(heard[k].right)
    ensures GainAll(UNITY, Closed(heard, WIRE)) == heard
  {
    SameRate(heard);
    forall k | 0 <= k < |heard| ensures GainFrame(UNITY, heard[k]) == heard[k] {
      UnityGain(heard[k].left);
      UnityGain(heard[k].right);
    }
  }

  /** More input never changes what has been put out. */
  lemma FirstStable(heard: seq<Frame>, f: Frame, rate: nat)
    requires rate > 0
    ensures Count(|heard|, rate) <= Count(|heard| + 1, rate)
    ensures First(heard + [f], rate, Count(|heard|, rate)) == Closed(heard, rate)
  {
    var n := Count(|heard|, rate);
    if n > 0 {
      CountBounds(|heard|, rate, n - 1);
      CountBounds(|heard| + 1, rate, n - 1);
      forall k | 0 <= k < n ensures First(heard + [f], rate, n)[k] == Closed(heard, rate)[k] {
        CountBounds(|heard|, rate, k);
        CountBounds(|heard| + 1, rate, k);
        var i := Upper(k * rate);
        assert i < |heard|;
      }
    }
  }

  predicate Between(a: int, x: int, b: int) {
    a <= x <= b || b <= x <= a
  }

  /** Both values of every output frame, before gain, lie between the two input samples around it. */
  lemma BetweenNeighbours(heard: seq<Frame>, p: nat)
    requires p <= (|heard| - 1) * WIRE
    ensures var i := Upper(p); var out := At(heard, p);
            && i < |heard|
            && (if i == 0 then out == heard[0]
                else
                  && Between(heard[i - 1].left, out.left, heard[i].left)
                  && Between(heard[i - 1].right, out.right, heard[i].right))
  {
    var i := Upper(p);
    assert i < |heard|;
    if i > 0 {
      BlendBetween(heard[i - 1].left, heard[i].left, p - (i - 1) * WIRE);
      BlendBetween(heard[i - 1].right, heard[i].right, p - (i - 1) * WIRE);
    }
  }

  // ---------------------------------------------------------------- packets

  function Flat(packets: seq<seq<Frame>>): seq<Frame>
    decreases |packets|
  {
    if packets == [] then [] else Flat(packets[..|packets| - 1]) + packets[|packets| - 1]
  }

  /** The stereo cells of a packet buffer as frames. */
  function Cells(buffer: seq<int>, count: nat): (r: seq<Frame>)
    requires 2 * count <= |buffer|
    ensures |r| == count
  {
    seq(count, k requires 0 <= k < count => Frame(buffer[2 * k], buffer[2 * k + 1]))
  }

  lemma FlatMore(packets: seq<seq<Frame>>, packet: seq<Frame>)
    ensures Flat(packets + [packet]) == Flat(packets) + packet
  {
    assert (packets + [packet])[..|packets|] == packets;
  }

  lemma GainMore(gain: int, frames: seq<Frame>, f: Frame)
    ensures GainAll(gain, frames + [f]) == GainAll(gain, frames) + [GainFrame(gain, f)]
  {
  }

  // ---------------------------------------------------------------- the class

  class Converter {
    const rate: nat
    const channels: nat
    const framesPerPacket: nat
    const gain: int
    const packet: array<int>
    var packetFrames: nat
    var inputIndex: nat
    var next: nat
    var previous: Frame
    var havePrevious: bool
    /** What has been pushed, what has been put out before gain, and the packets handed over. */
    ghost var heard: seq<Frame>
    ghost var out: seq<Frame>
    ghost var packets: seq<seq<Frame>>

    ghost predicate Shape()
      reads this
    {
      rate > 0 && (channels == 1 || channels == 2) && framesPerPacket > 0 && packet.Length == 2 * framesPerPacket
      && packetFrames < framesPerPacket
    }

    /** Packets and the part of one still being filled hold the gained output, all of it in order. */
    ghost predicate Conserved()
      requires Shape()
      reads this, packet
    {
      && Flat(packets) + Cells(packet[..], packetFrames) == GainAll(gain, out)
      && forall j :: 0 <= j < |packets| ==> |packets[j]| == framesPerPacket
    }

    ghost predicate Valid()
      reads this, packet
    {
      && Shape() && Conserved()
      && out == Closed(heard, rate)
      && inputIndex == |heard| && next == |out| * rate && havePrevious == (heard != [])
      && (heard != [] ==> previous == heard[|heard| - 1])
    }

    constructor (inputRate: nat, inputChannels: nat, perPacket: nat, gainQ15: int)
      requires 8000 <= inputRate <= 192000 && (inputChannels == 1 || inputChannels == 2) && 0 < perPacket <= 4096
      ensures Valid() && rate == inputRate && channels == inputChannels
        && framesPerPacket == perPacket && gain == gainQ15
      ensures heard == [] && packets == [] && fresh(packet)
    {
      rate, channels, framesPerPacket, gain := inputRate, inputChannels, perPacket, gainQ15;
      packet := new int[2 * perPacket](_ => 0);
      packetFrames, inputIndex, next, previous, havePrevious := 0, 0, 0, Frame(0, 0), false;
      heard, out, packets := [], [], [];
    }

    method EmitFrame(f: Frame)
      requires Shape() && Conserved()
      modifies this`packetFrames, this`out, this`packets, packet
      ensures Shape() && Conserved() && out == old(out) + [f] && old(packets) <= packets
    {
      GainMore(gain, out, f);
      ghost var before := Cells(packet[..], packetFrames);
      packet[2 * packetFrames] := Gained(gain, f.left);
      packet[2 * packetFrames + 1] := Gained(gain, f.right);
      out := out + [f];
      packetFrames := packetFrames + 1;
      assert Cells(packet[..], packetFrames) == before + [GainFrame(gain, f)];
      if packetFrames == framesPerPacket {
        FlatMore(packets, Cells(packet[..], packetFrames));
        packets := packets + [Cells(packet[..], packetFrames)];
        packetFrames := 0;
        assert Flat(packets) + [] == Flat(packets);
      }
    }

    /** One pass of the inner loop: the output at position next, between the previous and the current sample. */
    method Interpolate(current: Frame, ghost all: seq<Frame>) returns (f: Frame)
      requires all == heard + [current] && inputIndex == |heard| && (heard != [] ==> previous == heard[|heard| - 1])
      requires next <= inputIndex * WIRE && (inputIndex > 0 ==> (inputIndex - 1) * WIRE < next)
        && (inputIndex == 0 ==> next == 0)
      ensures f == At(all, next)
    {
      f := current;
      if inputIndex > 0 {
        var fraction := next - (inputIndex - 1) * WIRE;
        if fraction > WIRE { fraction := WIRE; }
        var inverse := WIRE - fraction;
        f := Frame(Quot(previous.left * inverse + current.left * fraction, WIRE),
                   Quot(previous.right * inverse + current.right * fraction, WIRE));
      }
    }

    /** One input frame and every output frame it completes. */
    method PushFrame(current: Frame)
      requires Valid()
      modifies this, packet
      ensures Valid() && heard == old(heard) + [current] && old(packets) <= packets && old(out) <= out
    {
      hide GainAll, Flat, At, Cells, GainFrame;
      ghost var n := |heard|;
      ghost var all := heard + [current];
      FirstStable(heard, current, rate);
      if !havePrevious {
        previous := current;
        havePrevious := true;
      }
      while next <= inputIndex * WIRE
        invariant Shape() && Conserved() && heard == old(heard) && inputIndex == n && havePrevious
        invariant next == |out| * rate && Count(n, rate) <= |out| <= Count(n + 1, rate)
        invariant out == First(all, rate, |out|) && old(packets) <= packets && old(out) <= out
        invariant heard != [] ==> previous == heard[|heard| - 1]
        decreases inputIndex * WIRE - next
      {
        OutputDue(n, rate, |out|);
        var f := Interpolate(current, all);
        FirstMore(all, rate, |out|, f);
        ghost var m := |out|;
        EmitFrame(f);
        assert (m + 1) * rate == m * rate + rate;
        next := next + rate;
      }
      CountBounds(n + 1, rate, |out|);
      previous := current;
      inputIndex := inputIndex + 1;
      heard := all;
    }

    /** native_audio_input_pcm_push: the frames of one buffer, in order. */
    method Push(samples: seq<int>, frames: nat)
      requires Valid() && |samples| == frames * channels
      modifies this, packet
      ensures Valid() && heard == old(heard) + Stereo(samples, frames, channels) && old(packets) <= packets
    {
      hide Closed, Count, Flat, GainAll, StereoAt;
      var i := 0;
      assert heard + [] == heard;
      while i < frames
        invariant i <= frames && Valid() && old(packets) <= packets
        invariant heard == old(heard) + Stereo(samples, frames, channels)[..i]
      {
        ghost var before := heard;
        PushFrame(StereoAt(samples, frames, channels, i));
        OneMore(old(heard), before, Stereo(samples, frames, channels), i);
        i := i + 1;
      }
    }
  }

  lemma OneMore(start: seq<Frame>, before: seq<Frame>, all: seq<Frame>, i: nat)
    requires i < |all| && before == start + all[..i]
    ensures before + [all[i]] == start + all[..i + 1]
  {
  }

  lemma Offset(frames: nat, channels: nat, i: nat)
    requires i < frames && (channels == 1 || channels == 2)
    ensures i * channels + channels <= frames * channels
  {
  }

  /** The i-th frame of interleaved samples; a mono sample goes to both sides. */
  function StereoAt(samples: seq<int>, frames: nat, channels: nat, i: nat): Frame
    requires (channels == 1 || channels == 2) && |samples| == frames * channels && i < frames
  {
    Offset(frames, channels, i);
    Frame(samples[i * channels], if channels == 1 then samples[i * channels] else samples[i * channels + 1])
  }

  function Stereo(samples: seq<int>, frames: nat, channels: nat): (r: seq<Frame>)
    requires (channels == 1 || channels == 2) && |samples| == frames * channels
    ensures |r| == frames
  {
    seq(frames, i requires 0 <= i < frames => StereoAt(samples, frames, channels, i))
  }

  /** While an output is due, its position lies within the newest input interval. */
  lemma OutputDue(n: nat, rate: nat, m: nat)
    requires rate > 0 && Count(n, rate) <= m && m * rate <= n * WIRE
    ensures m < Count(n + 1, rate)
    ensures n > 0 ==> (n - 1) * WIRE < m * rate
    ensures n == 0 ==> m * rate == 0
  {
    CountBounds(n + 1, rate, m);
    if n > 0 {
      CountBounds(n, rate, m);
    } else {
      assert m * rate >= 0;
    }
  }

  lemma FirstMore(all: seq<Frame>, rate: nat, m: nat, f: Frame)
    requires rate > 0 && m < Count(|all|, rate)
    requires all != [] && m * rate <= (|all| - 1) * WIRE && f == At(all, m * rate)
    ensures First(all, rate, m + 1) == First(all, rate, m) + [f]
  {
  }

  /** However the input is cut into buffers, two converters that heard the same have put out the same. */
  lemma ChunksDoNotMatter(a: Converter, b: Converter)
    requires a.Valid() && b.Valid() && a.heard == b.heard
      && a.rate == b.rate && a.gain == b.gain && a.framesPerPacket == b.framesPerPacket
    ensures a.out == b.out && |a.out| == (if a.heard == [] then 0 else (|a.heard| - 1) * WIRE / a.rate + 1)
    ensures Flat(a.packets) + Cells(a.packet[..], a.packetFrames)
      == Flat(b.packets) + Cells(b.packet[..], b.packetFrames)
  {
  }
}
