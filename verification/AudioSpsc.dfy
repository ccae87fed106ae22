// One audio source: a 65536-frame ring between one producer and one consumer,
// with 32-bit cursors and two boundary channels. Every atomic access is a step.
module AudioSpsc {
  import opened Bytes

  const CAPACITY := 65536
  const TARGET_MIN_MS := 40
  const TARGET_MAX_MS := 260
  const TRIM_KEEP_MS := 20
  const MAX_RATE := 192000

  datatype Frame = Frame(left: int, right: int)

  /** A frame handed to the converter: its unbounded index and the generations applied at that time. */
  datatype Entry = Entry(index: nat, frame: Frame, format: nat, talk: nat)

  /** A boundary channel. cursor, gen and applied are the program's; bound is the unbounded value of
    * cursor, past the boundary of every generation, hops the jumps since the consumer last looked. */
  datatype Channel = Channel(cursor: int, gen: nat, applied: nat, bound: nat, past: seq<nat>, hops: nat)

  datatype Producer =
    | Ready
    | TalkMark(frames: seq<Frame>)
    | TalkBump(frames: seq<Frame>)
    | LoadRead(frames: seq<Frame>)
    | Copy(frames: seq<Frame>, done: nat)
    | FormatMark(opens: bool)
    | FormatBump(opens: bool)
    | FormatOpen

  /** at and w are write cursors the consumer has loaded, as their unbounded values; boundary is a
    * boundary cursor it has loaded, and bound the unbounded value of that. */
  datatype Consumer =
    | Idle
    | CheckFormat(at: Option<nat>)
    | ApplyFormat(at: Option<nat>, gen: nat)
    | StoreFormat(at: Option<nat>, gen: nat, boundary: int, bound: nat)
    | CheckTalk(at: Option<nat>, changed: bool)
    | ApplyTalk(at: Option<nat>, gen: nat)
    | StoreTalk(at: Option<nat>, gen: nat, boundary: int, bound: nat)
    | CheckOpen
    | Playout
    | Live
    | TrimWith(w: nat, playout: bool)
    | TrimTo(w: nat, keep: nat, playout: bool)
    | Convert(w: nat)
    | Taking(w: nat, goal: nat, taken: seq<Frame>)

  /** read, write, ring, open, the channels and the two program counters run the program; readAt,
    * produced, skipped, log and the channels' unbounded parts only record it. */
  datatype State = State(ring: seq<Frame>, read: int, write: int, open: bool,
                         format: Channel, talk: Channel, prod: Producer, cons: Consumer,
                         trimmed: bool, faded: bool,
                         readAt: nat, produced: seq<Frame>, skipped: nat, log: seq<Entry>)

  datatype Step =
    | Push(frames: seq<Frame>, talkspurt: bool)
    | SetFormat
    | Close
    | Produce
    | ReadBlock
    | BeginTrim
    | Trim(targetMs: nat, rate: nat)
    | Consume(count: nat, more: bool)

  // -------------------------------------------------------------- producer

  function Mark(c: Channel, write: int, at: nat): Channel {
    c.(cursor := write, bound := at)
  }

  function Bump(c: Channel): Channel {
    c.(gen := c.gen + 1, past := c.past + [c.bound])
  }

  /** Room the producer sees: the ring size less the 32-bit distance of the cursors. */
  function Room(write: int, read: int): nat {
    var used := Wrap32(write - read);
    if used < CAPACITY then CAPACITY - used else 0
  }

  function Min(a: nat, b: nat): nat {
    if a < b then a else b
  }

  function Producing(s: State): State
    requires |s.ring| == CAPACITY
  {
    match s.prod
    case Ready => s
    case TalkMark(frames) => s.(talk := Mark(s.talk, s.write, |s.produced|), prod := TalkBump(frames))
    case TalkBump(frames) => s.(talk := Bump(s.talk), prod := LoadRead(frames))
    case LoadRead(frames) => s.(prod := Copy(frames[..Min(|frames|, Room(s.write, s.read))], 0))
    case Copy(frames, done) =>
      if done < |frames|
      then s.(ring := s.ring[Wrap32(s.write + done) % CAPACITY := frames[done]], prod := Copy(frames, done + 1))
      else s.(write := Wrap32(s.write + |frames|), produced := s.produced + frames, prod := Ready)
    case FormatMark(opens) => s.(format := Mark(s.format, s.write, |s.produced|), prod := FormatBump(opens))
    case FormatBump(opens) => s.(format := Bump(s.format), prod := if opens then FormatOpen else Ready)
    case FormatOpen => s.(open := true, prod := Ready)
  }

  // -------------------------------------------------------------- consumer

  /** Moves the read cursor forward by a 32-bit distance and records the frames passed over. */
  function Jump(s: State, distance: nat): State {
    s.(read := Wrap32(s.read + distance), readAt := s.readAt + distance, skipped := s.skipped + distance,
       format := s.format.(hops := s.format.hops + 1), talk := s.talk.(hops := s.talk.hops + 1))
  }

  /** source_advance_read_cursor. */
  function Advance(s: State, boundary: int): State {
    var distance := Wrap32(boundary - s.read);
    if distance <= CAPACITY then Jump(s, distance) else s
  }

  function Keep(targetMs: nat, rate: nat): nat {
    (targetMs + TRIM_KEEP_MS) * rate / 1000
  }

  /** The end of source_trim_to_target: the write cursor w and the target have been loaded. */
  function Trimming(s: State, w: nat, keep: nat): State {
    var available := Wrap32(Wrap32(w) - s.read);
    if available <= keep then s else Jump(s, available - keep)
  }

  /** Both generations have been looked at: a conversion goes on only if neither had changed. */
  function Checked(s: State, at: Option<nat>, changed: bool): State {
    match at
    case None => s.(cons := CheckOpen, trimmed := false, faded := false)
    case Some(w) => s.(cons := if changed then Live else Convert(w))
  }

  function Taken(s: State, frames: seq<Frame>): seq<Entry> {
    seq(|frames|, j requires 0 <= j < |frames| => Entry(s.readAt + j, frames[j], s.format.applied, s.talk.applied))
  }

  function Consuming(s: State, count: nat, more: bool): State
    requires |s.ring| == CAPACITY
  {
    match s.cons
    case Idle => s
    case CheckFormat(at) =>
      if s.format.gen == s.format.applied then s.(cons := CheckTalk(at, false), format := s.format.(hops := 0))
      else s.(cons := ApplyFormat(at, s.format.gen))
    case ApplyFormat(at, gen) => s.(cons := StoreFormat(at, gen, s.format.cursor, s.format.bound))
    case StoreFormat(at, gen, boundary, _) =>
      var t := Advance(s, boundary);
      t.(cons := CheckTalk(at, true), format := t.format.(applied := gen, hops := 0))
    case CheckTalk(at, changed) =>
      if s.talk.gen == s.talk.applied then Checked(s.(talk := s.talk.(hops := 0)), at, changed)
      else s.(cons := ApplyTalk(at, s.talk.gen))
    case ApplyTalk(at, gen) => s.(cons := StoreTalk(at, gen, s.talk.cursor, s.talk.bound))
    case StoreTalk(at, gen, boundary, _) =>
      var t := Advance(s, boundary);
      Checked(t.(talk := t.talk.(applied := gen, hops := 0)), at, true)
    case CheckOpen => s.(cons := if s.open then Playout else Idle)
    case Playout => s.(cons := if more then Live else Idle)
    case Live => s.(cons := if more then CheckFormat(Some(|s.produced|)) else Idle)
    case TrimWith(_, _) => s
    case TrimTo(w, keep, playout) =>
      var t := Trimming(s, w, keep);
      if playout then t.(cons := Playout, trimmed := true) else t.(cons := Live, faded := true)
    case Convert(w) =>
      var available := Wrap32(Wrap32(w) - s.read);
      var contiguous := Min(CAPACITY - s.read % CAPACITY, available);
      s.(cons := if available == 0 then Live else Taking(w, Min(count, contiguous), []))
    case Taking(w, goal, taken) =>
      if |taken| < goal then s.(cons := Taking(w, goal, taken + [s.ring[(s.read % CAPACITY + |taken|) % CAPACITY]]))
      else s.(cons := Live, read := Wrap32(s.read + goal), readAt := s.readAt + goal, log := s.log + Taken(s, taken))
  }

  // ------------------------------------------------------------------ runs

  predicate Enabled(s: State, step: Step) {
    && |s.ring| == CAPACITY
    && match step
       case Push(frames, _) => s.prod.Ready? && s.open && frames != []
       case SetFormat => s.prod.Ready?
       case Close => s.prod.Ready?
       case Produce => !s.prod.Ready?
       case ReadBlock => s.cons.Idle?
       case BeginTrim => (s.cons.Playout? && !s.trimmed) || (s.cons.Live? && !s.faded)
       case Trim(targetMs, rate) =>
         s.cons.TrimWith? && TARGET_MIN_MS <= targetMs <= TARGET_MAX_MS && rate <= MAX_RATE
       case Consume(_, _) => !s.cons.Idle?
  }

  function Apply(s: State, step: Step): State {
    if !Enabled(s, step) then s
    else match step
      case Push(frames, talkspurt) => s.(prod := if talkspurt then TalkMark(frames) else LoadRead(frames))
      case SetFormat => s.(prod := FormatMark(true))
      case Close => s.(open := false, prod := FormatMark(false))
      case Produce => Producing(s)
      case ReadBlock => s.(cons := CheckFormat(None))
      case BeginTrim => s.(cons := TrimWith(|s.produced|, s.cons.Playout?))
      case Trim(targetMs, rate) => s.(cons := TrimTo(s.cons.w, Keep(targetMs, rate), s.cons.playout))
      case Consume(count, more) => Consuming(s, count, more)
  }

  function Run(s: State, steps: seq<Step>): State {
    if steps == [] then s else Apply(Run(s, steps[..|steps| - 1]), steps[|steps| - 1])
  }

  const QUIET := Channel(0, 0, 0, 0, [], 0)

  ghost predicate Init(s: State) {
    && |s.ring| == CAPACITY && s.read == 0 && s.write == 0 && !s.open
    && s.format == QUIET && s.talk == QUIET && s.prod.Ready? && s.cons.Idle? && !s.trimmed && !s.faded
    && s.readAt == 0 && s.produced == [] && s.skipped == 0 && s.log == []
  }
}
