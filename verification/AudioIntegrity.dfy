// What every interleaving of one producer and one consumer keeps about the ring.
module AudioIntegrity {
  import opened Bytes
  import opened AudioSpsc

  // ------------------------------------------------------------- invariant

  /** A boundary channel: past boundaries lie behind the cursor, applied ones have been passed, and an
    * unapplied one is at most hops ring lengths behind the reader. */
  predicate ChannelOk(c: Channel, readAt: nat, w: nat, marking: bool) {
    && c.cursor == Wrap32(c.bound) && c.bound <= w && |c.past| == c.gen && c.applied <= c.gen
    && (if marking then c.bound == w else c.gen > 0 ==> c.bound == c.past[c.gen - 1])
    && (forall g :: 0 <= g < |c.past| ==> c.past[g] <= c.bound)
    && (forall g :: 0 <= g < c.applied ==> c.past[g] <= readAt)
    && (c.applied < c.gen ==> readAt <= c.bound + CAPACITY * c.hops)
  }

  /** No boundary that is still to be applied lies before w. */
  predicate Clear(c: Channel, w: nat) {
    forall g :: c.applied <= g < |c.past| ==> w <= c.past[g]
  }

  predicate CursorsOk(s: State) {
    && |s.ring| == CAPACITY && s.read == Wrap32(s.readAt) && s.write == Wrap32(|s.produced|)
    && s.readAt <= |s.produced| <= s.readAt + CAPACITY
  }

  predicate RingOk(s: State)
    requires |s.ring| == CAPACITY
  {
    && (forall i :: s.readAt <= i < |s.produced| ==> s.ring[i % CAPACITY] == s.produced[i])
    && (s.prod.Copy? ==>
          && s.prod.done <= |s.prod.frames| && |s.produced| + |s.prod.frames| <= s.readAt + CAPACITY
          && forall i :: |s.produced| <= i < |s.produced| + s.prod.done ==>
               s.ring[i % CAPACITY] == s.prod.frames[i - |s.produced|])
  }

  function Trims(s: State): nat {
    (if s.trimmed then 1 else 0) + (if s.faded then 1 else 0)
  }

  predicate AtTalk(c: Consumer) {
    c.CheckTalk? || c.ApplyTalk? || c.StoreTalk?
  }

  predicate HopsOk(s: State) {
    && s.format.hops <= 1 + Trims(s)
    && s.talk.hops <= Trims(s) + (if AtTalk(s.cons) then 1 else 0)
    && (AtTalk(s.cons) || s.cons.Convert? || s.cons.Taking? ==> s.format.hops == 0)
  }

  /** A conversion bounded by w stays behind every boundary it has not applied. */
  predicate Bounded(s: State, w: nat) {
    s.readAt <= w <= |s.produced| && Clear(s.format, w) && Clear(s.talk, w)
  }

  predicate ApplyOk(c: Channel, gen: nat, readAt: nat) {
    c.applied < gen <= c.gen && (gen < c.gen ==> readAt <= c.bound)
  }

  /** A boundary loaded after generation gen: no earlier than any of the first gen boundaries, and still
    * true after the producer has moved the channel on. */
  predicate LoadedOk(c: Channel, gen: nat, boundary: int, bound: nat, readAt: nat) {
    && ApplyOk(c, gen, readAt) && boundary == Wrap32(bound) && bound <= c.bound && readAt <= bound + 4 * CAPACITY
    && forall g :: 0 <= g < gen && g < |c.past| ==> c.past[g] <= bound
  }

  predicate TrimOk(s: State, w: nat, playout: bool) {
    s.readAt <= w <= |s.produced| && (if playout then !s.trimmed else !s.faded)
  }

  predicate ConsumerOk(s: State)
    requires |s.ring| == CAPACITY
  {
    match s.cons
    case CheckFormat(at) => at.Some? ==> s.readAt <= at.value <= |s.produced|
    case ApplyFormat(at, gen) => ApplyOk(s.format, gen, s.readAt)
    case StoreFormat(_, gen, boundary, bound) => LoadedOk(s.format, gen, boundary, bound, s.readAt)
    case CheckTalk(at, changed) =>
      at.Some? && !changed ==> s.readAt <= at.value <= |s.produced| && Clear(s.format, at.value)
    case ApplyTalk(at, gen) => ApplyOk(s.talk, gen, s.readAt)
    case StoreTalk(_, gen, boundary, bound) => LoadedOk(s.talk, gen, boundary, bound, s.readAt)
    case TrimWith(w, playout) => TrimOk(s, w, playout)
    case TrimTo(w, _, playout) => TrimOk(s, w, playout)
    case Convert(w) => Bounded(s, w)
    case Taking(w, goal, taken) =>
      && Bounded(s, w) && |taken| <= goal && s.readAt + goal <= w && s.readAt % CAPACITY + goal <= CAPACITY
      && forall j :: 0 <= j < |taken| ==> taken[j] == s.produced[s.readAt + j]
    case _ => true
  }

  /** A consumed frame is the one produced at that index, and lies on the right side of every boundary. */
  predicate EntryOk(s: State, e: Entry) {
    && e.index < s.readAt <= |s.produced| && e.frame == s.produced[e.index]
    && Sided(s.format.past, e.format, e.index) && Sided(s.talk.past, e.talk, e.index)
  }

  /** Generations applied when a frame was consumed begin at or before it, all others after it. */
  predicate Sided(past: seq<nat>, applied: nat, index: nat) {
    applied <= |past| && forall g :: 0 <= g < |past| ==> (g < applied <==> past[g] <= index)
  }

  predicate LogOk(s: State) {
    && |s.log| + s.skipped == s.readAt
    && (forall j :: 0 <= j < |s.log| ==> EntryOk(s, s.log[j]))
    && (forall j, k :: 0 <= j < k < |s.log| ==> s.log[j].index < s.log[k].index)
  }

  predicate ChannelsOk(s: State) {
    && ChannelOk(s.format, s.readAt, |s.produced|, s.prod.FormatBump?)
    && ChannelOk(s.talk, s.readAt, |s.produced|, s.prod.TalkBump?)
  }

  predicate Inv(s: State) {
    CursorsOk(s) && RingOk(s) && ChannelsOk(s) && HopsOk(s) && ConsumerOk(s) && LogOk(s)
  }

  lemma InitInv(s: State)
    requires Init(s)
    ensures Inv(s)
  {
  }

  // -------------------------------------------------------- 32-bit cursors

  /** The 32-bit distance of two cursors is the true one while it fits the ring. */
  lemma Distance(s: State)
    requires CursorsOk(s)
    ensures Wrap32(s.write - s.read) == |s.produced| - s.readAt
  {
    WrappedDistance(|s.produced|, s.readAt);
  }

  lemma WrapAdd(a: nat, b: nat)
    ensures Wrap32(Wrap32(a) + b) == Wrap32(a + b)
  {
    var q := a / U32_SPAN;
    assert Wrap32(a) + b == (a + b) - q * U32_SPAN;
    Shift(a + b, q);
  }

  lemma Shift(x: int, q: int)
    ensures Wrap32(x - q * U32_SPAN) == Wrap32(x)
  {
    var d := x / U32_SPAN;
    assert x - q * U32_SPAN == (d - q) * U32_SPAN + Wrap32(x);
  }

  /** A wrapped cursor picks the same ring cell as the unbounded index. */
  lemma WrapCell(a: nat)
    ensures Wrap32(a) % CAPACITY == a % CAPACITY
  {
    var q := a / U32_SPAN;
    assert Wrap32(a) == a - q * U32_SPAN;
    assert U32_SPAN == 65536 * CAPACITY;
    assert a == (q * 65536) * CAPACITY + Wrap32(a);
  }

  /** A boundary at or before the reader, but not four billion frames behind it, reads as out of reach. */
  lemma BehindIsFar(bound: nat, readAt: nat)
    requires bound < readAt <= bound + 5 * CAPACITY
    ensures Wrap32(Wrap32(bound) - Wrap32(readAt)) > CAPACITY
  {
    WrappedDistance(readAt, bound);
    var d := readAt - bound;
    assert Wrap32(Wrap32(bound) - Wrap32(readAt)) == U32_SPAN - d by { Negate(Wrap32(readAt), Wrap32(bound), d); }
  }

  lemma Negate(a: int, b: int, d: int)
    requires 0 <= a < U32_SPAN && 0 <= b < U32_SPAN && 0 < d < U32_SPAN && Wrap32(a - b) == d
    ensures Wrap32(b - a) == U32_SPAN - d
  {
  }

  /** Different indices less than a ring apart use different cells. */
  lemma CellsApart(a: nat, b: nat)
    requires b < a < b + CAPACITY
    ensures a % CAPACITY != b % CAPACITY
  {
    var q := a / CAPACITY - b / CAPACITY;
    assert a - b == q * CAPACITY + (a % CAPACITY - b % CAPACITY);
  }

  // --------------------------------------------------------- moving ahead

  /** The part of the invariant that does not mention the consumer's program counter. */
  predicate Base(s: State) {
    CursorsOk(s) && RingOk(s) && ChannelsOk(s) && LogOk(s)
  }

  lemma JumpLog(s: State, d: nat)
    requires LogOk(s) && s.readAt + d <= |s.produced|
    ensures LogOk(Jump(s, d))
  {
    forall j | 0 <= j < |s.log| ensures EntryOk(Jump(s, d), s.log[j]) { assert EntryOk(s, s.log[j]); }
  }

  /** Skipping queued frames keeps everything but the record of where the reader stands. */
  lemma JumpBase(s: State, d: nat)
    requires Base(s) && d <= |s.produced| - s.readAt
    ensures Base(Jump(s, d))
  {
    WrapAdd(s.readAt, d);
    JumpLog(s, d);
    hide LogOk, Wrap32;
  }

  /** source_advance_read_cursor moves the reader up to the boundary and never back. */
  lemma AdvanceBase(s: State, boundary: int, bound: nat)
    requires Base(s) && boundary == Wrap32(bound) && bound <= |s.produced| && s.readAt <= bound + 5 * CAPACITY
    ensures Base(Advance(s, boundary))
    ensures Advance(s, boundary) == if s.readAt <= bound then Jump(s, bound - s.readAt) else s
  {
    if s.readAt <= bound {
      WrappedDistance(bound, s.readAt);
      JumpBase(s, bound - s.readAt);
    } else {
      BehindIsFar(bound, s.readAt);
    }
    hide Base, Wrap32;
  }

  lemma ApplyChannel(c: Channel, readAt: nat, after: nat, w: nat, marking: bool, gen: nat, boundary: int, bound: nat)
    requires ChannelOk(c, readAt, w, marking) && LoadedOk(c, gen, boundary, bound, readAt)
    requires after == if readAt <= bound then bound else readAt
    ensures ChannelOk(c.(applied := gen, hops := 0), after, w, marking)
  {
    hide Wrap32;
  }

  // ------------------------------------------------------- consumer steps

  /** Loading the boundary after the generation covers every boundary up to that generation. */
  lemma LoadBoundaryInv(s: State, count: nat, more: bool)
    requires Inv(s) && (s.cons.ApplyFormat? || s.cons.ApplyTalk?)
    ensures Inv(Consuming(s, count, more))
  {
    LogKept(s, Consuming(s, count, more));
    RingKept(s, Consuming(s, count, more));
    hide Wrap32, RingOk, LogOk;
  }

  lemma StoreFormatInv(s: State, count: nat, more: bool)
    requires Inv(s) && s.cons.StoreFormat?
    ensures Inv(Consuming(s, count, more))
  {
    var gen, c := s.cons.gen, s.format;
    AdvanceBase(s, s.cons.boundary, s.cons.bound);
    var t := Advance(s, s.cons.boundary);
    ApplyChannel(c, s.readAt, t.readAt, |s.produced|, s.prod.FormatBump?, gen, s.cons.boundary, s.cons.bound);
    JumpedChannel(t.format, c, t.readAt, |s.produced|, s.prod.FormatBump?, gen);
    hide Wrap32, RingOk, ChannelOk, LogOk, Clear, ApplyOk, LoadedOk, Inv, CursorsOk, Base;
    FormatApplied(t, s.cons.at, gen);
  }

  lemma FormatApplied(t: State, at: Option<nat>, gen: nat)
    requires Base(t) && t.talk.hops <= Trims(t) + 1
    requires ChannelOk(t.format.(applied := gen, hops := 0), t.readAt, |t.produced|, t.prod.FormatBump?)
    ensures Inv(t.(cons := CheckTalk(at, true), format := t.format.(applied := gen, hops := 0)))
  {
    var u := t.(cons := CheckTalk(at, true), format := t.format.(applied := gen, hops := 0));
    LogKept(t, u);
    RingKept(t, u);
    hide Wrap32, RingOk, ChannelOk, LogOk;
  }

  lemma LogKept(s: State, t: State)
    requires LogOk(s) && t.log == s.log && t.skipped == s.skipped && t.readAt == s.readAt && t.produced == s.produced
    requires t.format.past == s.format.past && t.talk.past == s.talk.past
    ensures LogOk(t)
  {
    forall j | 0 <= j < |t.log| ensures EntryOk(t, t.log[j]) { assert EntryOk(s, s.log[j]); }
  }

  lemma RingKept(s: State, t: State)
    requires |s.ring| == CAPACITY && RingOk(s) && t.ring == s.ring && t.readAt == s.readAt
      && t.produced == s.produced && t.prod == s.prod
    ensures RingOk(t)
  {
  }

  /** A completed check leads back to a playing or converting consumer. */
  lemma CheckedInv(s: State, at: Option<nat>, changed: bool)
    requires Base(s) && s.format.hops <= 1 && s.talk.hops == 0
    requires at.Some? && !changed ==> Bounded(s, at.value) && s.format.hops == 0
    ensures Inv(Checked(s, at, changed))
  {
    LogKept(s, Checked(s, at, changed));
    RingKept(s, Checked(s, at, changed));
    hide Wrap32, RingOk, ChannelOk, LogOk, Clear;
  }

  lemma StoreTalkInv(s: State, count: nat, more: bool)
    requires Inv(s) && s.cons.StoreTalk?
    ensures Inv(Consuming(s, count, more))
  {
    var c := s.talk;
    AdvanceBase(s, s.cons.boundary, s.cons.bound);
    var t := Advance(s, s.cons.boundary);
    ApplyChannel(c, s.readAt, t.readAt, |s.produced|, s.prod.TalkBump?, s.cons.gen, s.cons.boundary, s.cons.bound);
    JumpedChannel(t.talk, c, t.readAt, |s.produced|, s.prod.TalkBump?, s.cons.gen);
    var u := t.(talk := t.talk.(applied := s.cons.gen, hops := 0));
    LogKept(t, u);
    RingKept(t, u);
    hide Wrap32, RingOk, ChannelOk, LogOk, Clear, ApplyOk, LoadedOk, Checked;
    CheckedInv(u, s.cons.at, true);
  }

  lemma JumpedChannel(d: Channel, c: Channel, readAt: nat, w: nat, marking: bool, gen: nat)
    requires d == c.(hops := d.hops) && ChannelOk(c.(applied := gen, hops := 0), readAt, w, marking)
    ensures ChannelOk(d.(applied := gen, hops := 0), readAt, w, marking)
  {
    assert d.(applied := gen, hops := 0) == c.(applied := gen, hops := 0);
  }

  lemma CheckFormatInv(s: State, count: nat, more: bool)
    requires Inv(s) && s.cons.CheckFormat?
    ensures Inv(Consuming(s, count, more))
  {
    LogKept(s, Consuming(s, count, more));
    RingKept(s, Consuming(s, count, more));
    hide Wrap32, RingOk, LogOk;
  }

  lemma CheckTalkInv(s: State, count: nat, more: bool)
    requires Inv(s) && s.cons.CheckTalk?
    ensures Inv(Consuming(s, count, more))
  {
    var u := s.(talk := s.talk.(hops := 0));
    LogKept(s, u);
    RingKept(s, u);
    if s.talk.gen == s.talk.applied {
      assert Clear(s.talk, if s.cons.at.Some? then s.cons.at.value else 0);
      hide Wrap32, RingOk, LogOk, Clear, Checked;
      CheckedInv(u, s.cons.at, s.cons.changed);
    } else {
      LogKept(s, Consuming(s, count, more));
      RingKept(s, Consuming(s, count, more));
      hide Wrap32, RingOk, LogOk, ChannelOk, Clear;
    }
  }

  lemma OutsideInv(s: State, count: nat, more: bool)
    requires Inv(s) && (s.cons.Playout? || s.cons.Live? || s.cons.CheckOpen? || s.cons.TrimWith?)
    ensures Inv(Consuming(s, count, more))
  {
    LogKept(s, Consuming(s, count, more));
    RingKept(s, Consuming(s, count, more));
    hide Wrap32, RingOk, LogOk, ChannelOk, Clear;
  }

  lemma ConvertInv(s: State, count: nat, more: bool)
    requires Inv(s) && s.cons.Convert?
    ensures Inv(Consuming(s, count, more))
  {
    var w := s.cons.w;
    WrappedDistance(w, s.readAt);
    WrapCell(s.readAt);
    hide Wrap32, RingOk;
    LogKept(s, Consuming(s, count, more));
    RingKept(s, Consuming(s, count, more));
  }

  lemma AddCell(a: nat, k: nat)
    ensures (a % CAPACITY + k) % CAPACITY == (a + k) % CAPACITY
  {
    var q := a / CAPACITY;
    assert a + k == q * CAPACITY + (a % CAPACITY + k);
  }

  lemma TakeCell(s: State)
    requires CursorsOk(s) && RingOk(s) && s.cons.Taking? && s.readAt + |s.cons.taken| < |s.produced|
    ensures s.ring[(s.read % CAPACITY + |s.cons.taken|) % CAPACITY] == s.produced[s.readAt + |s.cons.taken|]
  {
    var k := s.readAt + |s.cons.taken|;
    WrapCell(s.readAt);
    AddCell(s.readAt, |s.cons.taken|);
    hide Wrap32;
    assert s.ring[k % CAPACITY] == s.produced[k];
  }

  lemma TakeInv(s: State, count: nat, more: bool)
    requires Inv(s) && s.cons.Taking? && |s.cons.taken| < s.cons.goal
    ensures Inv(Consuming(s, count, more))
  {
    TakeCell(s);
    LogKept(s, Consuming(s, count, more));
    RingKept(s, Consuming(s, count, more));
    hide Wrap32, RingOk, LogOk, ChannelOk, Clear;
  }

  /** The frames a conversion took are logged with the indices they were produced at. */
  lemma TakenLog(s: State)
    requires Inv(s) && s.cons.Taking? && |s.cons.taken| == s.cons.goal
    ensures LogOk(s.(cons := Live, read := Wrap32(s.read + s.cons.goal), readAt := s.readAt + s.cons.goal,
                     log := s.log + Taken(s, s.cons.taken)))
  {
    hide Wrap32, RingOk;
    var goal, more := s.cons.goal, Taken(s, s.cons.taken);
    var t := s.(cons := Live, read := Wrap32(s.read + goal), readAt := s.readAt + goal, log := s.log + more);
    forall j | 0 <= j < |t.log| ensures EntryOk(t, t.log[j]) {
      if j < |s.log| {
        assert EntryOk(s, s.log[j]);
      } else {
        assert t.log[j] == more[j - |s.log|];
      }
    }
    forall j, k | 0 <= j < k < |t.log| ensures t.log[j].index < t.log[k].index {
      if j < |s.log| { assert EntryOk(s, s.log[j]); }
    }
  }

  lemma StoreInv(s: State, count: nat, more: bool)
    requires Inv(s) && s.cons.Taking? && |s.cons.taken| == s.cons.goal
    ensures Inv(Consuming(s, count, more))
  {
    WrapAdd(s.readAt, s.cons.goal);
    TakenLog(s);
    hide Wrap32, LogOk;
  }

  lemma ConsumingInv(s: State, count: nat, more: bool)
    requires Inv(s)
    ensures Inv(Consuming(s, count, more))
  {
    assert s.cons.Taking? ==> |s.cons.taken| <= s.cons.goal;
    assert |s.ring| == CAPACITY;
    hide Inv;
    if s.cons.ApplyFormat? || s.cons.ApplyTalk? { hide Consuming; LoadBoundaryInv(s, count, more); }
    else if s.cons.StoreFormat? { hide Consuming; StoreFormatInv(s, count, more); }
    else if s.cons.StoreTalk? { hide Consuming; StoreTalkInv(s, count, more); }
    else if s.cons.TrimTo? { hide Consuming; TrimInv(s, count, more); }
    else if s.cons.Convert? { hide Consuming; ConvertInv(s, count, more); }
    else if s.cons.Taking? {
      hide Consuming;
      if |s.cons.taken| < s.cons.goal { TakeInv(s, count, more); } else { StoreInv(s, count, more); }
    }
    else if s.cons.CheckFormat? { hide Consuming; CheckFormatInv(s, count, more); }
    else if s.cons.CheckTalk? { hide Consuming; CheckTalkInv(s, count, more); }
    else if !s.cons.Idle? { hide Consuming; OutsideInv(s, count, more); }
  }

  lemma TrimInv(s: State, count: nat, more: bool)
    requires Inv(s) && s.cons.TrimTo?
    ensures Inv(Consuming(s, count, more))
  {
    hide Wrap32, RingOk, LogOk, ChannelOk, Clear;
    TrimmingIs(s, s.cons.w, s.cons.keep);
    var d := s.cons.w - s.readAt - s.cons.keep;
    if d > 0 { JumpBase(s, d); }
    var t := if d > 0 then Jump(s, d) else s;
    LogKept(t, Consuming(s, count, more));
    RingKept(t, Consuming(s, count, more));
  }

  lemma TrimmingIs(s: State, w: nat, keep: nat)
    requires CursorsOk(s) && s.readAt <= w <= |s.produced|
    ensures var d := w - s.readAt - keep; Trimming(s, w, keep) == if d > 0 then Jump(s, d) else s
  {
    WrappedDistance(w, s.readAt);
    hide Wrap32;
  }

  // ------------------------------------------------------- producer steps

  lemma MarkChannel(c: Channel, readAt: nat, w: nat, write: int)
    requires ChannelOk(c, readAt, w, false) && write == Wrap32(w) && readAt <= w
    ensures ChannelOk(Mark(c, write, w), readAt, w, true)
  {
    hide Wrap32;
  }

  lemma BumpChannel(c: Channel, readAt: nat, w: nat)
    requires ChannelOk(c, readAt, w, true) && readAt <= w
    ensures ChannelOk(Bump(c), readAt, w, false)
  {
    hide Wrap32;
  }

  lemma BumpSided(past: seq<nat>, applied: nat, index: nat, bound: nat)
    requires Sided(past, applied, index) && index < bound
    ensures Sided(past + [bound], applied, index)
  {
  }

  lemma BumpClear(c: Channel, w: nat)
    requires Clear(c, w) && |c.past| == c.gen && w <= c.bound
    ensures Clear(Bump(c), w)
  {
  }

  lemma TalkMarkInv(s: State)
    requires Inv(s) && s.prod.TalkMark?
    ensures Inv(Producing(s))
  {
    MarkChannel(s.talk, s.readAt, |s.produced|, s.write);
    LogKept(s, Producing(s));
    hide Wrap32, ChannelOk, LogOk, Sided;
  }

  lemma FormatMarkInv(s: State)
    requires Inv(s) && s.prod.FormatMark?
    ensures Inv(Producing(s))
  {
    MarkChannel(s.format, s.readAt, |s.produced|, s.write);
    LogKept(s, Producing(s));
    hide Wrap32, ChannelOk, LogOk, Sided;
  }

  lemma BumpLog(s: State)
    requires Inv(s) && (s.prod.TalkBump? || s.prod.FormatBump?)
    ensures LogOk(Producing(s))
  {
    hide Wrap32, RingOk, ConsumerOk, Sided;
    var t := Producing(s);
    forall j | 0 <= j < |t.log| ensures EntryOk(t, t.log[j]) {
      var e := s.log[j];
      assert EntryOk(s, e);
      if s.prod.TalkBump? {
        BumpSided(s.talk.past, e.talk, e.index, |s.produced|);
      } else {
        BumpSided(s.format.past, e.format, e.index, |s.produced|);
      }
    }
  }

  lemma BumpLoaded(c: Channel, gen: nat, boundary: int, bound: nat, readAt: nat)
    requires LoadedOk(c, gen, boundary, bound, readAt) && |c.past| == c.gen && readAt <= c.bound
    ensures LoadedOk(Bump(c), gen, boundary, bound, readAt)
  {
    hide Wrap32;
  }

  lemma BumpConsumer(s: State)
    requires Inv(s) && (s.prod.TalkBump? || s.prod.FormatBump?)
    ensures ConsumerOk(Producing(s))
  {
    hide Wrap32, RingOk, LogOk, Clear, LoadedOk;
    var c := if s.prod.TalkBump? then s.talk else s.format;
    match s.cons {
      case CheckTalk(at, changed) => if at.Some? && !changed && s.prod.FormatBump? { BumpClear(c, at.value); }
      case StoreFormat(_, gen, boundary, bound) =>
        if s.prod.FormatBump? { BumpLoaded(c, gen, boundary, bound, s.readAt); }
      case StoreTalk(_, gen, boundary, bound) =>
        if s.prod.TalkBump? { BumpLoaded(c, gen, boundary, bound, s.readAt); }
      case Convert(w) => BumpClear(c, w);
      case Taking(w, _, _) => BumpClear(c, w);
      case _ =>
    }
  }

  lemma BumpInv(s: State)
    requires Inv(s) && (s.prod.TalkBump? || s.prod.FormatBump?)
    ensures Inv(Producing(s))
  {
    if s.prod.TalkBump? {
      BumpChannel(s.talk, s.readAt, |s.produced|);
    } else {
      BumpChannel(s.format, s.readAt, |s.produced|);
    }
    BumpLog(s);
    BumpConsumer(s);
    hide Wrap32, ChannelOk, LogOk, ConsumerOk;
  }

  lemma LoadInv(s: State)
    requires Inv(s) && s.prod.LoadRead?
    ensures Inv(Producing(s))
  {
    Distance(s);
    LogKept(s, Producing(s));
    hide Wrap32, ChannelOk, LogOk, Clear;
  }

  /** The cell the producer fills next holds no queued frame and none it has just written. */
  lemma WriteInv(s: State)
    requires Inv(s) && s.prod.Copy? && s.prod.done < |s.prod.frames|
    ensures Inv(Producing(s))
  {
    var k := |s.produced| + s.prod.done;
    WrapAdd(|s.produced|, s.prod.done);
    WrapCell(k);
    forall i | s.readAt <= i < k ensures i % CAPACITY != k % CAPACITY { CellsApart(k, i); }
    var t := Producing(s);
    assert t.ring == s.ring[k % CAPACITY := s.prod.frames[s.prod.done]];
    assert RingOk(t);
    LogKept(s, t);
    hide Wrap32, ChannelOk, LogOk, Clear, RingOk;
  }

  lemma PublishLog(s: State, frames: seq<Frame>)
    requires LogOk(s)
    ensures LogOk(s.(write := Wrap32(s.write + |frames|), produced := s.produced + frames, prod := Ready))
  {
    hide Wrap32, Sided;
    var t := s.(write := Wrap32(s.write + |frames|), produced := s.produced + frames, prod := Ready);
    forall j | 0 <= j < |t.log| ensures EntryOk(t, t.log[j]) { assert EntryOk(s, s.log[j]); }
  }

  lemma PublishInv(s: State)
    requires Inv(s) && s.prod.Copy? && s.prod.done == |s.prod.frames|
    ensures Inv(Producing(s))
  {
    WrapAdd(|s.produced|, |s.prod.frames|);
    PublishLog(s, s.prod.frames);
    hide Wrap32, LogOk, Clear;
  }

  lemma ProducingInv(s: State)
    requires Inv(s)
    ensures Inv(Producing(s))
  {
    assert s.prod.Copy? ==> s.prod.done <= |s.prod.frames|;
    assert |s.ring| == CAPACITY;
    hide Inv, Producing;
    match s.prod {
      case Ready => assert Producing(s) == s by { ReadyStays(s); }
      case TalkMark(_) => TalkMarkInv(s);
      case FormatMark(_) => FormatMarkInv(s);
      case TalkBump(_) => BumpInv(s);
      case FormatBump(_) => BumpInv(s);
      case FormatOpen => OpenInv(s);
      case LoadRead(_) => LoadInv(s);
      case Copy(frames, done) => if done < |frames| { WriteInv(s); } else { PublishInv(s); }
    }
  }

  lemma OpenInv(s: State)
    requires Inv(s) && s.prod.FormatOpen?
    ensures Inv(Producing(s))
  {
    LogKept(s, Producing(s));
    hide Wrap32, ChannelOk, LogOk, Clear;
  }

  lemma ReadyStays(s: State)
    requires |s.ring| == CAPACITY && s.prod.Ready?
    ensures Producing(s) == s
  {
  }

  lemma BeginInv(s: State, step: Step)
    requires Inv(s) && (step.Push? || step.SetFormat? || step.Close?)
    ensures Inv(Apply(s, step))
  {
    LogKept(s, Apply(s, step));
    hide Wrap32, ChannelOk, LogOk, Keep, Clear, LoadedOk;
  }

  lemma BeginReadInv(s: State, step: Step)
    requires Inv(s) && (step.ReadBlock? || step.BeginTrim? || step.Trim?)
    ensures Inv(Apply(s, step))
  {
    LogKept(s, Apply(s, step));
    RingKept(s, Apply(s, step));
    hide Wrap32, ChannelOk, LogOk, Keep, Clear, LoadedOk, RingOk;
  }

  lemma ApplyInv(s: State, step: Step)
    requires Inv(s)
    ensures Inv(Apply(s, step))
  {
    hide Inv;
    match step {
      case Produce => hide Producing; ProducingInv(s);
      case Consume(count, more) => hide Consuming; ConsumingInv(s, count, more);
      case ReadBlock => BeginReadInv(s, step);
      case BeginTrim => BeginReadInv(s, step);
      case Trim(_, _) => BeginReadInv(s, step);
      case _ => BeginInv(s, step);
    }
  }

  lemma {:induction false} RunInv(s: State, steps: seq<Step>)
    requires Init(s)
    ensures Inv(Run(s, steps))
    decreases |steps|
  {
    hide Inv, Apply;
    if steps == [] {
      InitInv(s);
    } else {
      RunInv(s, steps[..|steps| - 1]);
      ApplyInv(Run(s, steps[..|steps| - 1]), steps[|steps| - 1]);
    }
  }

  // ------------------------------------------------------------- theorems

  /** For every interleaving, however often the 32-bit cursors have wrapped: at most a ring is queued,
    * every converted frame is the one produced at its index, in order and at most once, and every
    * accepted frame is converted, skipped or still queued. */
  lemma RingIntegrity(s: State, steps: seq<Step>)
    requires Init(s)
    ensures var t := Run(s, steps); var queued := Wrap32(t.write - t.read);
            && queued <= CAPACITY && |t.produced| == |t.log| + t.skipped + queued
            && (forall j :: 0 <= j < |t.log| ==>
                  t.log[j].index < |t.produced| && t.log[j].frame == t.produced[t.log[j].index])
            && (forall j, k :: 0 <= j < k < |t.log| ==> t.log[j].index < t.log[k].index)
  {
    RunInv(s, steps);
    var t := Run(s, steps);
    Distance(t);
    hide Run, RingOk, ChannelsOk, ConsumerOk, Wrap32;
    forall j | 0 <= j < |t.log|
      ensures t.log[j].index < |t.produced| && t.log[j].frame == t.produced[t.log[j].index]
    {
      assert EntryOk(t, t.log[j]);
    }
  }

  /** For every interleaving: a frame is converted before boundary g is applied exactly when it was
    * produced before it, for format changes and talkspurts alike, also when several are pending. */
  lemma NoBoundaryCrossed(s: State, steps: seq<Step>, j: nat, g: nat)
    requires Init(s) && j < |Run(s, steps).log|
    ensures var t := Run(s, steps); var e := t.log[j];
            && (g < |t.format.past| ==> (g < e.format <==> t.format.past[g] <= e.index))
            && (g < |t.talk.past| ==> (g < e.talk <==> t.talk.past[g] <= e.index))
  {
    RunInv(s, steps);
    var t := Run(s, steps);
    hide Run, RingOk, ChannelsOk, ConsumerOk, CursorsOk;
    assert EntryOk(t, t.log[j]);
  }

  predicate Forward(s: State, t: State) {
    && s.readAt <= t.readAt && s.produced <= t.produced && s.log <= t.log && s.skipped <= t.skipped
    && s.format.past <= t.format.past && s.talk.past <= t.talk.past
  }

  lemma ConsumingForward(s: State, count: nat, more: bool)
    requires |s.ring| == CAPACITY
    ensures Forward(s, Consuming(s, count, more))
  {
    if s.cons.StoreFormat? || s.cons.StoreTalk? {
      hide Consuming;
      ApplyForward(s, count, more);
    } else if s.cons.CheckTalk? {
      hide Consuming;
      CheckForward(s, count, more);
    } else if s.cons.Taking? {
      hide Consuming;
      TakeForward(s, count, more);
    } else {
      hide Wrap32, Taken, Min, Advance, Checked;
    }
  }

  lemma CheckForward(s: State, count: nat, more: bool)
    requires |s.ring| == CAPACITY && s.cons.CheckTalk?
    ensures Forward(s, Consuming(s, count, more))
  {
    hide Wrap32;
  }

  lemma TakeForward(s: State, count: nat, more: bool)
    requires |s.ring| == CAPACITY && s.cons.Taking?
    ensures Forward(s, Consuming(s, count, more))
  {
    hide Wrap32, Taken;
  }

  lemma ApplyForward(s: State, count: nat, more: bool)
    requires |s.ring| == CAPACITY && (s.cons.StoreFormat? || s.cons.StoreTalk?)
    ensures Forward(s, Consuming(s, count, more))
  {
    hide Wrap32, Advance;
    AdvanceForward(s, s.cons.boundary);
  }

  lemma AdvanceForward(s: State, boundary: int)
    ensures var t := Advance(s, boundary);
            && Forward(s, t) && t.prod == s.prod && t.ring == s.ring && t.produced == s.produced && t.log == s.log
            && t.format.past == s.format.past && t.talk.past == s.talk.past
  {
    hide Wrap32;
  }

  lemma ProducingForward(s: State)
    requires |s.ring| == CAPACITY
    ensures Forward(s, Producing(s))
  {
    hide Wrap32, Min, Room;
  }

  /** No step moves the reader back, rewrites a produced frame, a conversion or a published boundary. */
  lemma OnlyForward(s: State, step: Step)
    ensures Forward(s, Apply(s, step))
  {
    hide Wrap32, Keep, Consuming, Producing;
    if Enabled(s, step) {
      match step {
        case Produce => ProducingForward(s);
        case Consume(count, more) => ConsumingForward(s, count, more);
        case _ =>
      }
    }
  }

  /** A trim leaves, of the frames queued when it loaded the write cursor, exactly the smaller of them
    * all and the kept length; a ring that was full then always loses frames. */
  lemma TrimLeaves(s: State, targetMs: nat, rate: nat, count: nat, more: bool)
    requires Inv(s) && Enabled(s, Trim(targetMs, rate))
    ensures var t := Consuming(Apply(s, Trim(targetMs, rate)), count, more);
            && s.cons.w - t.readAt == Min(s.cons.w - s.readAt, Keep(targetMs, rate))
            && t.produced == s.produced && t.skipped - s.skipped == t.readAt - s.readAt
            && (s.cons.w - s.readAt == CAPACITY ==> t.skipped > s.skipped)
  {
    TrimmingIs(s.(cons := TrimTo(s.cons.w, Keep(targetMs, rate), s.cons.playout)), s.cons.w, Keep(targetMs, rate));
    KeepFits(targetMs, rate);
    hide Wrap32, Keep, Inv, Trimming;
  }

  lemma KeepFits(targetMs: nat, rate: nat)
    requires targetMs <= TARGET_MAX_MS && rate <= MAX_RATE
    ensures Keep(targetMs, rate) <= 53760 < CAPACITY
  {
    assert (targetMs + TRIM_KEEP_MS) * rate <= 280 * 192000 by {
      Product(targetMs + TRIM_KEEP_MS, rate, 280, 192000);
    }
  }

  lemma Product(a: nat, b: nat, c: nat, d: nat)
    requires a <= c && b <= d
    ensures a * b <= c * d
  {
    assert c * d - a * b == (c - a) * d + a * (d - b);
  }
}
