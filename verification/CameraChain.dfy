// Whole runs of the camera stream: what a consumer that pops the FIFO is
// guaranteed, over any interleaving of ingests, pops and resets.
module CameraChain {
  import opened Bytes
  import opened H264Annexb
  import opened CameraStream

  datatype Op = Push(frame: Frame, memory: Memory) | Take | Clear

  /** One line per frame offered or reset made. A picture is a valid AU that holds a VCL NAL. */
  datatype Entry = Offered(sequence: nat, picture: bool, idr: bool, verdict: Verdict) | Cleared

  /** A run: the stream, what was offered, and for each queued or popped AU the log line that queued it. */
  datatype Run = Run(s: State, log: seq<Entry>, queued: seq<nat>, popped: seq<nat>)

  const START := Run(FRESH, [], [], [])

  function EntryFor(f: Frame, verdict: Verdict): Entry {
    var scan := ScanAnnexbSpec(f.data);
    if scan.Ok? then Offered(f.sequence, scan.info.hasVcl, scan.info.hasIdr, verdict)
    else Offered(f.sequence, false, false, verdict)
  }

  function Step(r: Run, op: Op): Run {
    match op
    case Push(f, memory) =>
      var (s, verdict) := Ingested(r.s, f, memory);
      Run(s, r.log + [EntryFor(f, verdict)],
          match verdict {
            case Queued => r.queued + [|r.log|]
            case Recover => []
            case _ => r.queued
          }, r.popped)
    case Take =>
      if r.s.queue == [] || r.queued == [] then r
      else Run(Popped(r.s), r.log, r.queued[1..], r.popped + [r.queued[0]])
    case Clear => Run(FRESH, r.log + [Cleared], [], r.popped)
  }

  function After(ops: seq<Op>): Run {
    if ops == [] then START else Step(After(ops[..|ops| - 1]), ops[|ops| - 1])
  }

  // ---------------------------------------------------------------- the chain

  /** Line k is a frame whose sequence number follows the line before it. */
  predicate Follows(log: seq<Entry>, k: nat) {
    && 0 < k < |log| && log[k - 1].Offered? && log[k].Offered?
    && log[k].sequence == Wrap32(log[k - 1].sequence + 1)
  }

  /** From line a to line b no sequence number is missing and no picture lies strictly between. */
  predicate Unbroken(log: seq<Entry>, a: nat, b: nat) {
    && a < b < |log|
    && (forall k :: a < k <= b ==> Follows(log, k))
    && (forall k :: a < k < b ==> log[k].Offered? && !log[k].picture)
  }

  predicate IsQueued(log: seq<Entry>, at: nat) {
    at < |log| && log[at].Offered? && log[at].verdict == Queued && log[at].picture
  }

  /** The picture at out[i] is an IDR, or directly continues the picture at out[i - 1]. */
  predicate Linked(log: seq<Entry>, out: seq<nat>, i: nat)
    requires i < |out| && IsQueued(log, out[i])
  {
    log[out[i]].idr || (i > 0 && Unbroken(log, out[i - 1], out[i]))
  }

  function Output(r: Run): seq<nat> {
    r.popped + r.queued
  }

  ghost predicate OutputOk(log: seq<Entry>, out: seq<nat>) {
    && (forall i :: 0 <= i < |out| ==> IsQueued(log, out[i]))
    && (forall i :: 0 <= i < |out| ==> Linked(log, out, i))
  }

  /** While the gate is open, everything after the newest queued picture is consecutive and pictureless. */
  ghost predicate GateOk(r: Run) {
    && (r.s.last.Some? ==> r.log != [] && r.log[|r.log| - 1].Offered? && r.log[|r.log| - 1].sequence == r.s.last.value)
    && (r.s.seeded ==> r.s.last.Some? && Output(r) != [] && Tail(r.log, Output(r)[|Output(r)| - 1]))
  }

  predicate Tail(log: seq<Entry>, a: nat) {
    && a < |log|
    && (forall k :: a < k < |log| ==> Follows(log, k) && log[k].Offered? && !log[k].picture)
  }

  ghost predicate QueueLabels(r: Run) {
    && |r.queued| == |r.s.queue|
    && forall i :: 0 <= i < |r.queued| ==>
         && IsQueued(r.log, r.queued[i])
         && r.s.queue[i].sequence == r.log[r.queued[i]].sequence
         && r.s.queue[i].isIdr == r.log[r.queued[i]].idr
  }

  ghost predicate RunOk(r: Run) {
    Inv(r.s) && OutputOk(r.log, Output(r)) && GateOk(r) && QueueLabels(r)
  }

  lemma LogGrows(log: seq<Entry>, e: Entry, out: seq<nat>)
    requires OutputOk(log, out)
    ensures OutputOk(log + [e], out)
  {
    var more := log + [e];
    forall k | 0 < k < |log| ensures Follows(more, k) == Follows(log, k) {}
    forall i | 0 <= i < |out| ensures IsQueued(more, out[i]) && Linked(more, out, i) {
      assert Linked(log, out, i);
    }
  }

  lemma TailGrows(log: seq<Entry>, e: Entry, a: nat)
    requires Tail(log, a) && log[|log| - 1].Offered? && e.Offered?
    requires e.sequence == Wrap32(log[|log| - 1].sequence + 1)
    ensures Unbroken(log + [e], a, |log|)
    ensures !e.picture ==> Tail(log + [e], a)
  {
    hide Wrap32;
    var more := log + [e];
    forall k | a < k <= |log| ensures Follows(more, k) {
      if k < |log| { assert Follows(log, k); }
    }
  }

  /** What the five outcomes of an ingest do to the gate, without its arithmetic. */
  lemma IngestCases(s: State, f: Frame, memory: Memory)
    ensures var (t, verdict) := Ingested(s, f, memory);
            var e := EntryFor(f, verdict);
            && (verdict == Recover ==> t == FRESH)
            && (verdict != Recover ==> t.last == Some(f.sequence))
            && (verdict == Queued ==>
                  && e.picture && t.seeded
                  && |t.queue| == |s.queue| + 1 && t.queue[..|s.queue|] == s.queue
                  && t.queue[|s.queue|].sequence == f.sequence && t.queue[|s.queue|].isIdr == e.idr)
            && (verdict == Queued && !e.idr ==> Consecutive(s, f) && s.seeded)
            && (verdict == Waiting || verdict == SampleError ==> t.queue == s.queue)
            && (verdict != Recover && verdict != Queued && t.seeded ==> s.seeded && Consecutive(s, f))
            && (verdict != Recover && verdict != Queued && t.seeded && SetsOk(s) ==> !e.picture)
  {
    hide ScanAnnexbSpec, IsSet, TotalBytes;
    var scan := ScanAnnexbSpec(f.data);
    if scan.Ok? && scan.info.startsWithCode {
      var s1 := NoteSequence(s, f.sequence);
      var cached := CachedSets(s1, scan.info, memory);
      if cached.Some? {
        CachedSetsKeep(s1, scan.info, memory);
      }
    }
  }

  predicate Consecutive(s: State, f: Frame) {
    s.last.Some? ==> f.sequence == Wrap32(s.last.value + 1)
  }

  lemma PushKeepsRun(r: Run, f: Frame, memory: Memory)
    requires RunOk(r)
    ensures RunOk(Step(r, Push(f, memory)))
  {
    hide Ingested, EntryFor, Inv, OutputOk, Tail, Unbroken;
    IngestKeepsInv(r.s, f, memory);
    IngestCases(r.s, f, memory);
    FreshInv();
    assert SetsOk(r.s) by { InvSets(r.s); }
    var (s, verdict) := Ingested(r.s, f, memory);
    var e := EntryFor(f, verdict);
    var t := Step(r, Push(f, memory));
    LogGrows(r.log, e, Output(r));
    EntryShape(f, verdict);
    if r.s.seeded && Consecutive(r.s, f) {
      TailGrows(r.log, e, Output(r)[|Output(r)| - 1]);
    }
    match verdict {
      case Queued =>
        assert Output(t) == Output(r) + [|r.log|];
        OutputExtends(t.log, Output(r), |r.log|);
        TailOfLast(t.log);
      case Recover =>
        assert Output(t) == r.popped;
        OutputPrefix(t.log, Output(r), r.popped);
      case _ =>
        assert Output(t) == Output(r);
    }
  }

  lemma InvSets(s: State)
    requires Inv(s)
    ensures SetsOk(s)
  {
  }

  lemma EntryShape(f: Frame, verdict: Verdict)
    ensures var e := EntryFor(f, verdict); e.Offered? && e.sequence == f.sequence && e.verdict == verdict
  {
  }

  lemma OutputExtends(log: seq<Entry>, out: seq<nat>, at: nat)
    requires OutputOk(log, out) && IsQueued(log, at)
    requires log[at].idr || (out != [] && Unbroken(log, out[|out| - 1], at))
    ensures OutputOk(log, out + [at])
  {
    var more := out + [at];
    forall i | 0 <= i < |more| ensures IsQueued(log, more[i]) && Linked(log, more, i) {
      if i < |out| { assert Linked(log, out, i); }
    }
  }

  lemma OutputPrefix(log: seq<Entry>, out: seq<nat>, prefix: seq<nat>)
    requires OutputOk(log, out) && prefix <= out
    ensures OutputOk(log, prefix)
  {
    forall i | 0 <= i < |prefix| ensures IsQueued(log, prefix[i]) && Linked(log, prefix, i) {
      assert Linked(log, out, i);
    }
  }

  lemma TailOfLast(log: seq<Entry>)
    requires log != []
    ensures Tail(log, |log| - 1)
  {
  }

  lemma TakeKeepsRun(r: Run)
    requires RunOk(r)
    ensures RunOk(Step(r, Take))
  {
    PopKeepsInv(r.s);
    var t := Step(r, Take);
    hide Inv, OutputOk;
    if r.queued != [] {
      assert r.queued == [r.queued[0]] + r.queued[1..];
      assert Output(t) == Output(r);
    }
  }

  lemma ClearKeepsRun(r: Run)
    requires RunOk(r)
    ensures RunOk(Step(r, Clear))
  {
    hide OutputOk, Inv;
    FreshInv();
    LogGrows(r.log, Cleared, Output(r));
    OutputPrefix(r.log + [Cleared], Output(r), r.popped);
    assert Output(Step(r, Clear)) == r.popped;
  }

  lemma {:induction false} EveryRunOk(ops: seq<Op>)
    ensures RunOk(After(ops))
  {
    if ops == [] {
      FreshInv();
    } else {
      var r := After(ops[..|ops| - 1]);
      EveryRunOk(ops[..|ops| - 1]);
      match ops[|ops| - 1] {
        case Push(f, memory) => PushKeepsRun(r, f, memory);
        case Take => TakeKeepsRun(r);
        case Clear => ClearKeepsRun(r);
      }
    }
  }

  /** Going back from a popped picture through unbroken links always ends at a popped IDR. */
  lemma {:induction false} PoppedChain(ops: seq<Op>, i: nat) returns (j: nat)
    requires i < |After(ops).popped|
    ensures var r := After(ops);
            && j <= i && IsQueued(r.log, r.popped[j]) && r.log[r.popped[j]].idr
            && forall m :: j < m <= i ==> IsQueued(r.log, r.popped[m]) && Unbroken(r.log, r.popped[m - 1], r.popped[m])
    decreases i
  {
    EveryRunOk(ops);
    var r := After(ops);
    assert Output(r)[i] == r.popped[i];
    assert Linked(r.log, Output(r), i);
    if r.log[r.popped[i]].idr {
      j := i;
    } else {
      assert Output(r)[i - 1] == r.popped[i - 1];
      j := PoppedChain(ops, i - 1);
    }
  }

  // --------------------------------------------------------- the wait bound

  predicate IsWait(e: Entry) {
    e.Offered? && e.verdict == Waiting
  }

  /** How many Waiting answers in a row end the log. */
  function TrailingWaits(log: seq<Entry>): nat {
    if log == [] || !IsWait(log[|log| - 1]) then 0 else 1 + TrailingWaits(log[..|log| - 1])
  }

  lemma {:induction false} WindowCounts(log: seq<Entry>, n: nat)
    requires n <= |log| && forall k :: |log| - n <= k < |log| ==> IsWait(log[k])
    ensures TrailingWaits(log) >= n
  {
    if n > 0 {
      WindowCounts(log[..|log| - 1], n - 1);
    }
  }

  lemma WaitsNeverExceed(s: State, f: Frame, memory: Memory)
    requires s.waiting < WAIT_AUS
    ensures var (t, verdict) := Ingested(s, f, memory);
            && t.waiting < WAIT_AUS
            && (verdict == Waiting ==> t.waiting >= s.waiting + 1)
  {
    hide ScanAnnexbSpec, TotalBytes;
    var scan := ScanAnnexbSpec(f.data);
    if scan.Ok? && scan.info.startsWithCode {
      var s1 := NoteSequence(s, f.sequence);
      if CachedSets(s1, scan.info, memory).Some? { CachedSetsKeep(s1, scan.info, memory); }
    }
  }

  lemma {:induction false} WaitsBounded(ops: seq<Op>)
    ensures TrailingWaits(After(ops).log) <= After(ops).s.waiting < WAIT_AUS
    ensures forall i {:trigger Window(After(ops).log, i)} :: 0 <= i <= |After(ops).log| - WAIT_AUS ==>
        Window(After(ops).log, i)
  {
    if ops != [] {
      var before := ops[..|ops| - 1];
      WaitsBounded(before);
      var r, t := After(before), After(ops);
      match ops[|ops| - 1] {
        case Push(f, memory) =>
          WaitsNeverExceed(r.s, f, memory);
          EntryShape(f, Ingested(r.s, f, memory).1);
          assert t.log[..|t.log| - 1] == r.log;
          NewWindow(r.log, t.log);
        case Take =>
        case Clear =>
          assert t.log[..|t.log| - 1] == r.log;
          NewWindow(r.log, t.log);
      }
    }
  }

  /** Among eight lines from i on, one is not a plain Waiting answer. */
  predicate Window(log: seq<Entry>, i: nat) {
    i + WAIT_AUS <= |log| && exists k :: i <= k < i + WAIT_AUS && !IsWait(log[k])
  }

  lemma NewWindow(log: seq<Entry>, more: seq<Entry>)
    requires |more| == |log| + 1 && log <= more && TrailingWaits(more) < WAIT_AUS
    requires forall i {:trigger Window(log, i)} :: 0 <= i <= |log| - WAIT_AUS ==> Window(log, i)
    ensures forall i {:trigger Window(more, i)} :: 0 <= i <= |more| - WAIT_AUS ==> Window(more, i)
  {
    forall i | 0 <= i <= |more| - WAIT_AUS ensures Window(more, i) {
      if i + WAIT_AUS <= |log| {
        assert Window(log, i);
        var k :| i <= k < i + WAIT_AUS && !IsWait(log[k]);
        assert !IsWait(more[k]);
      } else if forall k :: i <= k < |more| ==> IsWait(more[k]) {
        WindowCounts(more, WAIT_AUS);
      }
    }
  }

  /** Eight answers in a row that neither queue nor recover include a SampleError. */
  lemma EightAnswers(ops: seq<Op>, i: nat)
    requires i + WAIT_AUS <= |After(ops).log|
    requires forall k :: i <= k < i + WAIT_AUS ==>
               After(ops).log[k].Offered? && After(ops).log[k].verdict in {Waiting, SampleError}
    ensures exists k :: i <= k < i + WAIT_AUS && After(ops).log[k].Offered? && After(ops).log[k].verdict == SampleError
  {
    WaitsBounded(ops);
    var log := After(ops).log;
    assert Window(log, i);
    var k :| i <= k < i + WAIT_AUS && !IsWait(log[k]);
    assert log[k].verdict == SampleError;
  }
}
