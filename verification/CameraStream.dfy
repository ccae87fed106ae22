// The bounded camera stream: parameter-set cache, decoder-seed gate and the
// circular FIFO of access units handed to the RDP camera channel.
module CameraStream {
  import opened Bytes
  import opened H264Annexb

  const MAX_AU_BYTES := 4 * 1024 * 1024
  const FIFO_AUS := 8
  const FIFO_BYTES := 8 * 1024 * 1024
  const WAIT_AUS := 8

  datatype Frame = Frame(data: seq<Byte>, timestamp: nat, sequence: nat, corrupt: bool)

  datatype Au = Au(data: seq<Byte>, timestamp: nat, sequence: nat, isIdr: bool)

  const NO_AU := Au([], 0, 0, false)

  datatype Verdict = Waiting | Queued | SampleError | Recover

  /** Whether each of the three heap allocations an ingest may make succeeds. */
  datatype Memory = Memory(sps: bool, pps: bool, au: bool)

  /** The stream as a value; an empty parameter set stands for a missing one. */
  datatype State = State(sps: seq<Byte>, pps: seq<Byte>, queue: seq<Au>, waiting: nat,
                         last: Option<nat>, seeded: bool)

  const FRESH := State([], [], [], 0, None, false)

  function TotalBytes(queue: seq<Au>): nat {
    if queue == [] then 0 else |queue[0].data| + TotalBytes(queue[1..])
  }

  lemma {:induction false} TotalBytesAppend(queue: seq<Au>, au: Au)
    ensures TotalBytes(queue + [au]) == TotalBytes(queue) + |au.data|
  {
    if queue == [] {
      assert queue + [au] == [au];
    } else {
      assert (queue + [au])[1..] == queue[1..] + [au];
      TotalBytesAppend(queue[1..], au);
    }
  }

  // ------------------------------------------------------------ specification

  function NoteSequence(s: State, sequence: nat): State {
    var gap := s.last.Some? && sequence != Wrap32(s.last.value + 1);
    s.(last := Some(sequence), seeded := s.seeded && !gap, waiting := if gap then WAIT_AUS - 1 else s.waiting)
  }

  function CachedSets(s: State, info: Info, memory: Memory): Option<State> {
    var sps := if info.hasSps then START_CODE + info.sps else s.sps;
    var pps := if info.hasPps then START_CODE + info.pps else s.pps;
    if info.hasSps && (info.sps == [] || |sps| > MAX_AU_BYTES || !memory.sps) then None
    else if info.hasPps && (info.pps == [] || |pps| > MAX_AU_BYTES || !memory.pps) then None
    else if |sps| + |pps| > MAX_AU_BYTES then None
    else Some(s.(sps := sps, pps := pps))
  }

  function Wait(s: State): (State, Verdict) {
    if s.waiting + 1 >= WAIT_AUS then (s.(waiting := 0), SampleError)
    else (s.(waiting := s.waiting + 1), Waiting)
  }

  predicate NeedsSets(info: Info) {
    info.hasIdr && !info.canSeed
  }

  function Enqueued(s: State, f: Frame, info: Info, memory: Memory): Option<State> {
    var prefix := if NeedsSets(info) then s.sps + s.pps else [];
    var data := prefix + f.data;
    if NeedsSets(info) && (s.sps == [] || s.pps == []) then None
    else if |data| > MAX_AU_BYTES || |s.queue| >= FIFO_AUS || |data| > FIFO_BYTES - TotalBytes(s.queue) || !memory.au
    then None
    else Some(s.(queue := s.queue + [Au(data, f.timestamp, f.sequence, info.hasIdr)]))
  }

  /** What happens to a scanned AU once its parameter sets are cached. */
  function Gate(s: State, f: Frame, info: Info, memory: Memory): (State, Verdict) {
    if !info.hasVcl || (!s.seeded && !info.hasIdr) || (NeedsSets(info) && (s.sps == [] || s.pps == [])) then Wait(s)
    else match Enqueued(s, f, info, memory)
      case None => (FRESH, Recover)
      case Some(t) => (t.(seeded := t.seeded || info.hasIdr, waiting := 0), Queued)
  }

  function Ingested(s: State, f: Frame, memory: Memory): (State, Verdict) {
    if f.data == [] || |f.data| > MAX_AU_BYTES || f.corrupt then (FRESH, Recover)
    else
      var scan := ScanAnnexbSpec(f.data);
      if scan.Invalid? || !scan.info.startsWithCode then (FRESH, Recover)
      else match CachedSets(NoteSequence(s, f.sequence), scan.info, memory)
        case None => (FRESH, Recover)
        case Some(t) => Gate(t, f, scan.info, memory)
  }

  function Popped(s: State): State {
    if s.queue == [] then s else s.(queue := s.queue[1..])
  }

  // ---------------------------------------------------------------- the class

  /** Slot i of the queue held by a circular buffer. */
  function Slot(ring: seq<Au>, head: nat, i: nat): Au
    requires |ring| == FIFO_AUS
  {
    ring[(head + i) % FIFO_AUS]
  }

  function QueueOf(ring: seq<Au>, head: nat, count: nat): (q: seq<Au>)
    requires |ring| == FIFO_AUS
    ensures |q| == count
  {
    seq(count, i requires 0 <= i < count => Slot(ring, head, i))
  }

  lemma PushSlot(ring: seq<Au>, head: nat, count: nat, au: Au)
    requires |ring| == FIFO_AUS && head < FIFO_AUS && count < FIFO_AUS
    ensures QueueOf(ring[(head + count) % FIFO_AUS := au], head, count + 1) == QueueOf(ring, head, count) + [au]
  {
    var after := ring[(head + count) % FIFO_AUS := au];
    forall i | 0 <= i < count ensures Slot(after, head, i) == Slot(ring, head, i) {}
  }

  lemma PopSlot(ring: seq<Au>, head: nat, count: nat)
    requires |ring| == FIFO_AUS && head < FIFO_AUS && 0 < count <= FIFO_AUS
    ensures QueueOf(ring[head := NO_AU], (head + 1) % FIFO_AUS, count - 1) == QueueOf(ring, head, count)[1..]
  {
    var after := ring[head := NO_AU];
    var rest := QueueOf(after, (head + 1) % FIFO_AUS, count - 1);
    forall i | 0 <= i < count - 1 ensures rest[i] == QueueOf(ring, head, count)[i + 1] {}
  }

  class Stream {
    var sps: seq<Byte>
    var pps: seq<Byte>
    var fifo: array<Au>
    var head: nat
    var count: nat
    var bytes: nat
    var waiting: nat
    var lastSequence: nat
    var haveSequence: bool
    var seeded: bool

    ghost predicate Valid()
      reads this, fifo
    {
      && fifo.Length == FIFO_AUS && head < FIFO_AUS && count <= FIFO_AUS
      && bytes == TotalBytes(QueueOf(fifo[..], head, count)) <= FIFO_BYTES
    }

    ghost function Value(): State
      requires fifo.Length == FIFO_AUS
      reads this, fifo
    {
      State(sps, pps, QueueOf(fifo[..], head, count), waiting,
            if haveSequence then Some(lastSequence) else None, seeded)
    }

    constructor ()
      ensures Valid() && fresh(fifo) && Value() == FRESH
    {
      sps, pps := [], [];
      head, count, bytes, waiting, lastSequence := 0, 0, 0, 0, 0;
      haveSequence, seeded := false, false;
      fifo := new Au[FIFO_AUS](_ => NO_AU);
    }

    method Reset()
      requires Valid()
      modifies this, fifo
      ensures Valid() && fifo == old(fifo) && Value() == FRESH
    {
      forall i | 0 <= i < fifo.Length { fifo[i] := NO_AU; }
      sps, pps := [], [];
      head, count, bytes, waiting, lastSequence := 0, 0, 0, 0, 0;
      haveSequence, seeded := false, false;
    }

    method WaitForSeed() returns (r: Verdict)
      requires Valid()
      modifies this`waiting
      ensures Valid() && (Value(), r) == Wait(old(Value()))
    {
      waiting := waiting + 1;
      if waiting >= WAIT_AUS {
        waiting := 0;
        return SampleError;
      }
      return Waiting;
    }

    method CacheParameterSets(info: Info, memory: Memory) returns (ok: bool)
      requires Valid()
      modifies this`sps, this`pps
      ensures Valid()
      ensures ok <==> CachedSets(old(Value()), info, memory).Some?
      ensures Value() == if ok then CachedSets(old(Value()), info, memory).value else old(Value())
    {
      var newSps, newPps := [], [];
      if info.hasSps {
        if info.sps == [] || |info.sps| > MAX_AU_BYTES - |START_CODE| || !memory.sps { return false; }
        newSps := START_CODE + info.sps;
      }
      if info.hasPps {
        if info.pps == [] || |info.pps| > MAX_AU_BYTES - |START_CODE| || !memory.pps { return false; }
        newPps := START_CODE + info.pps;
      }
      var finalSps := if newSps != [] then |newSps| else |sps|;
      var finalPps := if newPps != [] then |newPps| else |pps|;
      if finalSps > MAX_AU_BYTES || finalPps > MAX_AU_BYTES - finalSps { return false; }
      if newSps != [] { sps := newSps; }
      if newPps != [] { pps := newPps; }
      return true;
    }

    method Enqueue(f: Frame, info: Info, memory: Memory) returns (ok: bool)
      requires Valid()
      modifies this`count, this`bytes, fifo
      ensures Valid()
      ensures ok <==> Enqueued(old(Value()), f, info, memory).Some?
      ensures Value() == if ok then Enqueued(old(Value()), f, info, memory).value else old(Value())
    {
      var prefix := 0;
      if info.hasIdr && !info.canSeed {
        if sps == [] || pps == [] { return false; }
        prefix := |sps| + |pps|;
      }
      if prefix > MAX_AU_BYTES || |f.data| > MAX_AU_BYTES - prefix { return false; }
      var outputLen := prefix + |f.data|;
      if count >= FIFO_AUS || outputLen > FIFO_BYTES - bytes { return false; }
      if !memory.au { return false; }
      var copy := f.data;
      if info.hasIdr && !info.canSeed { copy := sps + pps + f.data; }
      assert [] + f.data == f.data;
      var au := Au(copy, f.timestamp, f.sequence, info.hasIdr);
      Store(au);
      return true;
    }

    /** The queued copy takes the cell behind the last. */
    method Store(au: Au)
      requires Valid() && count < FIFO_AUS && |au.data| <= FIFO_BYTES - bytes
      modifies this`count, this`bytes, fifo
      ensures Valid() && Value() == old(Value()).(queue := old(Value()).queue + [au])
    {
      hide QueueOf, TotalBytes;
      ghost var before := fifo[..];
      PushSlot(before, head, count, au);
      TotalBytesAppend(QueueOf(before, head, count), au);
      var tail := (head + count) % FIFO_AUS;
      fifo[tail] := au;
      assert fifo[..] == before[tail := au];
      count := count + 1;
      bytes := bytes + |au.data|;
    }

    method Ingest(f: Frame, memory: Memory) returns (r: Verdict)
      requires Valid()
      modifies this, fifo
      ensures Valid() && fifo == old(fifo)
      ensures (Value(), r) == Ingested(old(Value()), f, memory)
    {
      hide ScanAnnexbSpec, TotalBytes, QueueOf, Enqueued, CachedSets;
      if |f.data| == 0 || |f.data| > MAX_AU_BYTES { Reset(); return Recover; }
      if f.corrupt { Reset(); return Recover; }
      if haveSequence && f.sequence != Wrap32(lastSequence + 1) {
        seeded := false;
        waiting := WAIT_AUS - 1;
      }
      lastSequence := f.sequence;
      haveSequence := true;
      assert Value() == NoteSequence(old(Value()), f.sequence);
      var scan := ScanAnnexb(f.data);
      if scan.Invalid? { Reset(); return Recover; }
      if !scan.info.startsWithCode { Reset(); return Recover; }
      var info := scan.info;
      var cached := CacheParameterSets(info, memory);
      if !cached { Reset(); return Recover; }
      if !info.hasVcl { r := WaitForSeed(); return; }
      if !seeded && !info.hasIdr { r := WaitForSeed(); return; }
      if info.hasIdr && !info.canSeed && (sps == [] || pps == []) { r := WaitForSeed(); return; }
      var queued := Enqueue(f, info, memory);
      if !queued { Reset(); return Recover; }
      if info.hasIdr { seeded := true; }
      waiting := 0;
      return Queued;
    }

    method Peek() returns (au: Option<Au>)
      requires Valid()
      ensures au == if Value().queue == [] then None else Some(Value().queue[0])
    {
      if count == 0 { return None; }
      return Some(fifo[head]);
    }

    method Pop()
      requires Valid()
      modifies this`bytes, this`head, this`count, fifo
      ensures Valid() && Value() == Popped(old(Value()))
    {
      if count == 0 { return; }
      ghost var before := fifo[..];
      PopSlot(before, head, count);
      assert Slot(before, head, 0) == before[head];
      bytes := bytes - |fifo[head].data|;
      fifo[head] := NO_AU;
      assert fifo[..] == before[head := NO_AU];
      head := (head + 1) % FIFO_AUS;
      count := count - 1;
    }
  }

  // -------------------------------------------------- queued IDRs seed a decoder

  /** A cached parameter set is one start code followed by one clean NAL of its type. */
  ghost predicate IsSet(set_: seq<Byte>, t: int) {
    && |set_| > |START_CODE|
    && set_ == START_CODE + set_[|START_CODE|..]
    && CodeFree(set_[|START_CODE|..]) && Acceptable(set_[|START_CODE|..]) && NalType(set_[|START_CODE|..]) == t
  }

  predicate Seeds(data: seq<Byte>) {
    var scan := ScanAnnexbSpec(data);
    scan.Ok? && scan.info.startsWithCode && scan.info.hasIdr && scan.info.canSeed
  }

  lemma SetPair(sps: seq<Byte>, pps: seq<Byte>)
    requires IsSet(sps, 7) && IsSet(pps, 8)
    ensures Nals(sps + pps) == [sps[4..], pps[4..]]
    ensures PrefixLen(pps, 0) == 4
  {
    hide Split, FirstPrefix;
    SingleNal(sps[4..]);
    SingleNal(pps[4..]);
    SplitConcat(sps, pps, 0);
  }

  /** Prepending the cached sets to any valid AU that holds an IDR gives an AU that seeds a decoder. */
  lemma PrependedSetsSeed(sps: seq<Byte>, pps: seq<Byte>, data: seq<Byte>)
    requires IsSet(sps, 7) && IsSet(pps, 8)
    requires ScanAnnexbSpec(data).Ok? && ScanAnnexbSpec(data).info.startsWithCode && ScanAnnexbSpec(data).info.hasIdr
    ensures Seeds(sps + pps + data)
  {
    hide Split, FirstPrefix, PrefixLen, NoteAll, NoteNal, TrimLast, Acceptable;
    var sets := sps + pps;
    SetPair(sps, pps);
    StartsWithPrefix(data);
    SplitConcat(sets, data, 0);
    var y := LastSet(sets, data, sps[4..], pps[4..]);
    var all := Nals(sets + data);
    assert all == [sps[4..], y] + Nals(data);
    StartsAtZero(sets + data, sps);
    NoteAllMeaning(Opening(data), Nals(data));
    PairThenIdr(Opening(sets + data), sps[4..], y, Nals(data));
  }

  lemma StartsWithPrefix(data: seq<Byte>)
    requires ScanAnnexbSpec(data).Ok? && ScanAnnexbSpec(data).info.startsWithCode
    ensures PrefixLen(data, 0) > 0
  {
    hide NoteAll;
    NoteAllMeaning(Opening(data), Nals(data));
    FirstPrefixFirst(data, 0);
  }

  lemma StartsAtZero(data: seq<Byte>, sps: seq<Byte>)
    requires sps <= data && IsSet(sps, 7)
    ensures FirstPrefix(data, 0) == 0
  {
    hide FirstPrefix;
    assert data[0] == sps[0] && data[1] == sps[1] && data[2] == sps[2] && data[3] == sps[3];
    FirstPrefixIs(data, 0, 0);
  }

  /** The second set as the rescan sees it: at most its trailing zero is gone. */
  lemma LastSet(sets: seq<Byte>, data: seq<Byte>, x: Nal, pps: Nal) returns (y: Nal)
    requires Nals(sets) == [x, pps] && Acceptable(x) && Acceptable(pps)
    ensures LeftNals(sets, data, 0) == [x, y]
    ensures Acceptable(y) && NalType(y) == NalType(pps)
  {
    y := pps;
    if ZeroAbsorbed(sets, data) {
      LastEndsWithData(sets, 0);
      assert pps[|pps| - 1] == 0;
      assert |pps| > 1;
      y := pps[..|pps| - 1];
      assert [x, pps][..1] + [y] == [x, y];
    }
  }

  lemma PairThenIdr(info: Info, x: Nal, y: Nal, rest: seq<Nal>)
    requires Acceptable(x) && NalType(x) == 7 && Acceptable(y) && NalType(y) == 8
    requires AllAcceptable(rest) && HasType(rest, 5, 5)
    ensures AllAcceptable([x, y] + rest)
    ensures var r := NoteAll(info, [x, y] + rest); r.hasIdr && r.canSeed && r.startsWithCode == info.startsWithCode
  {
    hide HasType, Acceptable;
    var pair := [x, y];
    assert pair == [x] + [y];
    NoteOneMore(info, [], x);
    NoteOneMore(info, [x], y);
    NoteNothing(info);
    assert [] + [x] == [x];
    NoteAllAppend(info, pair, rest);
    var before := NoteAll(info, pair);
    assert before == NoteNal(NoteNal(info, x), y);
    IdrAfterSetsSeeds(before, rest);
    NoteAllMeaning(before, rest);
  }

  // -------------------------------------------------------- stream invariant

  ghost predicate SetsOk(s: State) {
    && (s.sps != [] ==> IsSet(s.sps, 7))
    && (s.pps != [] ==> IsSet(s.pps, 8))
    && (s.seeded ==> s.sps != [] && s.pps != [])
  }

  ghost predicate QueueOk(queue: seq<Au>) {
    && |queue| <= FIFO_AUS
    && TotalBytes(queue) <= FIFO_BYTES
    && forall i :: 0 <= i < |queue| ==> |queue[i].data| <= MAX_AU_BYTES && (queue[i].isIdr ==> Seeds(queue[i].data))
  }

  ghost predicate Inv(s: State) {
    SetsOk(s) && QueueOk(s.queue) && s.waiting < WAIT_AUS
  }

  lemma ViewIsSet(data: seq<Byte>, nal: Nal, t: int)
    requires AllAcceptable(Nals(data)) && nal in Nals(data) && NalType(nal) == t
    ensures IsSet(START_CODE + nal, t)
  {
    hide Split, FirstPrefix;
    SplitCodeFree(data, 0);
    assert (START_CODE + nal)[4..] == nal;
  }

  lemma CachedSetsOk(s: State, f: Frame, memory: Memory)
    requires SetsOk(s) && ScanAnnexbSpec(f.data).Ok?
    requires CachedSets(s, ScanAnnexbSpec(f.data).info, memory).Some?
    ensures var t := CachedSets(s, ScanAnnexbSpec(f.data).info, memory).value;
            SetsOk(t) && (ScanAnnexbSpec(f.data).info.canSeed ==> t.sps != [] && t.pps != [])
  {
    hide Split, FirstPrefix, NoteAll, NoteNal, IsSet, Acceptable;
    var nals, info := Nals(f.data), ScanAnnexbSpec(f.data).info;
    NoteAllMeaning(Opening(f.data), nals);
    CanSeedHasSets(Opening(f.data), nals);
    if info.hasSps { ViewIsSet(f.data, info.sps, 7); }
    if info.hasPps { ViewIsSet(f.data, info.pps, 8); }
  }

  lemma {:induction false} CanSeedHasSets(info: Info, nals: seq<Nal>)
    requires AllAcceptable(nals)
    requires info.canSeed ==> info.hasSps && info.hasPps
    ensures NoteAll(info, nals).canSeed ==> NoteAll(info, nals).hasSps && NoteAll(info, nals).hasPps
    decreases |nals|
  {
    if nals != [] {
      CanSeedHasSets(NoteNal(info, nals[0]), nals[1..]);
    }
  }

  lemma EnqueuedOk(s: State, f: Frame, memory: Memory)
    requires Inv(s) && ScanAnnexbSpec(f.data).Ok? && ScanAnnexbSpec(f.data).info.startsWithCode
    requires Enqueued(s, f, ScanAnnexbSpec(f.data).info, memory).Some?
    ensures QueueOk(Enqueued(s, f, ScanAnnexbSpec(f.data).info, memory).value.queue)
  {
    hide ScanAnnexbSpec, IsSet, TotalBytes;
    var info := ScanAnnexbSpec(f.data).info;
    var t := Enqueued(s, f, info, memory).value;
    var au := t.queue[|s.queue|];
    TotalBytesAppend(s.queue, au);
    if NeedsSets(info) {
      PrependedSetsSeed(s.sps, s.pps, f.data);
    } else {
      assert [] + f.data == f.data;
    }
  }

  /** Every ingest keeps the invariant: bounds, well-formed sets, and queued IDRs that seed a decoder on rescan. */
  lemma IngestKeepsInv(s: State, f: Frame, memory: Memory)
    requires Inv(s)
    ensures Inv(Ingested(s, f, memory).0)
  {
    hide ScanAnnexbSpec, IsSet, TotalBytes, Enqueued, CachedSets, QueueOk;
    FreshInv();
    var scan := ScanAnnexbSpec(f.data);
    if scan.Ok? && scan.info.startsWithCode {
      var s1 := NoteSequence(s, f.sequence);
      var cached := CachedSets(s1, scan.info, memory);
      if cached.Some? {
        CachedSetsOk(s1, f, memory);
        CachedSetsKeep(s1, scan.info, memory);
        var t := cached.value;
        if Enqueued(t, f, scan.info, memory).Some? {
          EnqueuedOk(t, f, memory);
          EnqueuedKeeps(t, f, scan.info, memory);
        }
      }
    }
  }

  lemma FreshInv()
    ensures Inv(FRESH)
  {
  }

  lemma CachedSetsKeep(s: State, info: Info, memory: Memory)
    requires CachedSets(s, info, memory).Some?
    ensures var t := CachedSets(s, info, memory).value; t == s.(sps := t.sps, pps := t.pps)
  {
  }

  lemma EnqueuedKeeps(s: State, f: Frame, info: Info, memory: Memory)
    requires Enqueued(s, f, info, memory).Some?
    ensures var t := Enqueued(s, f, info, memory).value;
            && t == s.(queue := t.queue) && |t.queue| == |s.queue| + 1
            && (NeedsSets(info) ==> s.sps != [] && s.pps != [])
  {
  }

  lemma PopKeepsInv(s: State)
    requires Inv(s)
    ensures Inv(Popped(s))
  {
    if s.queue != [] {
      assert TotalBytes(s.queue[1..]) <= TotalBytes(s.queue);
    }
  }
}
