// Annex-B and AVC framing of H.264 access units: the start-code scanner, the
// length-prefixed (AVC) scanner, and the conversion between the two.
module H264Annexb {
  import opened Bytes

  type Nal = seq<Byte>

  const START_CODE: seq<Byte> := [0, 0, 0, 1]

  datatype Info = Info(startsWithCode: bool, hasVcl: bool, hasSps: bool, hasPps: bool, hasIdr: bool,
                       canSeed: bool, nalCount: nat, sps: Nal, pps: Nal)

  const EMPTY_INFO := Info(false, false, false, false, false, false, 0, [], [])

  datatype Scan = Ok(info: Info) | Invalid

  // ------------------------------------------------------------------ one NAL

  predicate Acceptable(nal: Nal) {
    |nal| > 0 && nal[0] & 0x80 == 0 && nal[0] & 0x1f != 0
  }

  function NalType(nal: Nal): int
    requires |nal| > 0
  {
    (nal[0] & 0x1f) as int
  }

  /** scan_nal plus the caller's nal_count++: what one accepted NAL adds to the summary. */
  function NoteNal(info: Info, nal: Nal): Info
    requires Acceptable(nal)
  {
    var t := NalType(nal);
    var vcl := info.(hasVcl := info.hasVcl || 1 <= t <= 5, nalCount := info.nalCount + 1);
    if t == 7 then vcl.(hasSps := true, sps := nal)
    else if t == 8 then vcl.(hasPps := true, pps := nal)
    else if t == 5 then vcl.(hasIdr := true, canSeed := vcl.canSeed || (vcl.hasSps && vcl.hasPps))
    else vcl
  }

  predicate AllAcceptable(nals: seq<Nal>) {
    forall i :: 0 <= i < |nals| ==> Acceptable(nals[i])
  }

  function NoteAll(info: Info, nals: seq<Nal>): Info
    requires AllAcceptable(nals)
    decreases |nals|
  {
    if nals == [] then info else NoteAll(NoteNal(info, nals[0]), nals[1..])
  }

  /** Some NAL of the list has a type between lo and hi. */
  predicate HasType(nals: seq<Nal>, lo: int, hi: int) {
    exists i :: 0 <= i < |nals| && nals[i] != [] && lo <= NalType(nals[i]) <= hi
  }

  lemma HasTypeCons(nals: seq<Nal>, lo: int, hi: int)
    requires AllAcceptable(nals) && nals != []
    ensures HasType(nals, lo, hi) <==> lo <= NalType(nals[0]) <= hi || HasType(nals[1..], lo, hi)
  {
    var tail := nals[1..];
    forall i | 0 <= i < |tail| ensures tail[i] == nals[i + 1] {}
    if i :| 0 <= i < |nals| && nals[i] != [] && lo <= NalType(nals[i]) <= hi {
      if i > 0 { assert tail[i - 1] == nals[i]; }
    }
  }

  /** The flags say which types occur, the count how many NALs, and each view is one of them. */
  lemma {:induction false} NoteAllMeaning(info: Info, nals: seq<Nal>)
    requires AllAcceptable(nals)
    ensures var r := NoteAll(info, nals);
            && r.startsWithCode == info.startsWithCode
            && r.nalCount == info.nalCount + |nals|
            && (r.hasVcl <==> info.hasVcl || HasType(nals, 1, 5))
            && (r.hasSps <==> info.hasSps || HasType(nals, 7, 7))
            && (r.hasPps <==> info.hasPps || HasType(nals, 8, 8))
            && (r.hasIdr <==> info.hasIdr || HasType(nals, 5, 5))
            && (r.sps == info.sps || (r.sps in nals && NalType(r.sps) == 7))
            && (r.pps == info.pps || (r.pps in nals && NalType(r.pps) == 8))
            && (HasType(nals, 7, 7) ==> r.sps in nals && NalType(r.sps) == 7)
            && (HasType(nals, 8, 8) ==> r.pps in nals && NalType(r.pps) == 8)
    decreases |nals|
  {
    if nals != [] {
      var tail := nals[1..];
      NoteAllMeaning(NoteNal(info, nals[0]), tail);
      assert forall n :: n in tail ==> n in nals;
      HasTypeCons(nals, 1, 5);
      HasTypeCons(nals, 7, 7);
      HasTypeCons(nals, 8, 8);
      HasTypeCons(nals, 5, 5);
    }
  }

  /** An IDR anywhere after both parameter sets are known makes the AU a decoder seed. */
  lemma {:induction false} IdrAfterSetsSeeds(info: Info, nals: seq<Nal>)
    requires AllAcceptable(nals)
    requires info.hasSps && info.hasPps
    ensures NoteAll(info, nals).canSeed <==> info.canSeed || HasType(nals, 5, 5)
    decreases |nals|
  {
    if nals != [] {
      HasTypeCons(nals, 5, 5);
      IdrAfterSetsSeeds(NoteNal(info, nals[0]), nals[1..]);
    }
  }

  lemma {:induction false} NoteAllAppend(info: Info, a: seq<Nal>, b: seq<Nal>)
    requires AllAcceptable(a) && AllAcceptable(b)
    ensures AllAcceptable(a + b)
    ensures NoteAll(info, a + b) == NoteAll(NoteAll(info, a), b)
    decreases |a|
  {
    if a == [] {
      assert a + b == b;
    } else {
      assert (a + b)[1..] == a[1..] + b;
      NoteAllAppend(NoteNal(info, a[0]), a[1..], b);
    }
  }

  // ------------------------------------------------------------- start codes

  /** Length of the start code at pos: 3, 4, or 0 when there is none. */
  function PrefixLen(data: seq<Byte>, pos: nat): (n: nat) {
    if pos + 3 <= |data| && data[pos] == 0 && data[pos + 1] == 0 && data[pos + 2] == 1 then 3
    else if pos + 4 <= |data| && data[pos] == 0 && data[pos + 1] == 0 && data[pos + 2] == 0 && data[pos + 3] == 1 then 4
    else 0
  }

  /** The first position at or after pos that holds a start code; |data| when there is none. */
  function FirstPrefix(data: seq<Byte>, pos: nat): (p: nat)
    requires pos <= |data|
    ensures pos <= p <= |data|
    ensures p < |data| ==> p + 3 <= p + PrefixLen(data, p) <= |data|
    decreases |data| - pos
  {
    if pos + 3 > |data| then |data|
    else if PrefixLen(data, pos) > 0 then pos
    else FirstPrefix(data, pos + 1)
  }

  /** What "first" means: nothing earlier, and a start code there unless the buffer ends. */
  ghost predicate IsFirst(data: seq<Byte>, pos: nat, p: nat) {
    && pos <= p <= |data|
    && (forall q :: pos <= q < p ==> PrefixLen(data, q) == 0)
    && (p < |data| ==> PrefixLen(data, p) > 0)
  }

  lemma {:induction false} FirstPrefixFirst(data: seq<Byte>, pos: nat)
    requires pos <= |data|
    ensures IsFirst(data, pos, FirstPrefix(data, pos))
    decreases |data| - pos
  {
    if pos + 3 <= |data| && PrefixLen(data, pos) == 0 {
      FirstPrefixFirst(data, pos + 1);
    }
  }

  lemma FirstPrefixIs(data: seq<Byte>, pos: nat, p: nat)
    requires pos <= |data| && IsFirst(data, pos, p)
    ensures FirstPrefix(data, pos) == p
  {
    FirstPrefixFirst(data, pos);
  }

  predicate CodeFree(nal: Nal) {
    FirstPrefix(nal, 0) == |nal|
  }

  /** The NAL payloads an Annex-B buffer holds from pos on, in order. */
  function Split(data: seq<Byte>, pos: nat): seq<Nal>
    requires pos <= |data|
    decreases |data| - pos
  {
    var p := FirstPrefix(data, pos);
    if p >= |data| then []
    else
      var start := p + PrefixLen(data, p);
      var end := FirstPrefix(data, start);
      [data[start..end]] + Split(data, end)
  }

  function Nals(data: seq<Byte>): seq<Nal> {
    Split(data, 0)
  }

  function ScanAnnexbSpec(data: seq<Byte>): Scan {
    var nals := Nals(data);
    if nals == [] || !AllAcceptable(nals) then Invalid
    else Ok(NoteAll(Opening(data), nals))
  }

  method FindPrefix(data: seq<Byte>, from: nat) returns (found: bool, prefixPos: nat, prefixLen: nat)
    requires from <= |data|
    ensures found <==> FirstPrefix(data, from) < |data|
    ensures found ==> prefixPos == FirstPrefix(data, from) && prefixLen == PrefixLen(data, prefixPos)
  {
    var pos := from;
    prefixPos, prefixLen := |data|, 0;
    while pos + 3 <= |data|
      invariant from <= pos <= |data|
      invariant forall q :: from <= q < pos ==> PrefixLen(data, q) == 0
    {
      var n := PrefixLen(data, pos);
      if n > 0 {
        FirstPrefixIs(data, from, pos);
        return true, pos, n;
      }
      pos := pos + 1;
    }
    FirstPrefixIs(data, from, |data|);
    found := false;
  }

  /** The summary before any NAL, once the first start code has been found. */
  function Opening(data: seq<Byte>): Info {
    EMPTY_INFO.(startsWithCode := FirstPrefix(data, 0) == 0)
  }

  lemma NoteOneMore(info: Info, done: seq<Nal>, nal: Nal)
    requires AllAcceptable(done) && Acceptable(nal)
    ensures AllAcceptable(done + [nal])
    ensures NoteAll(info, done + [nal]) == NoteNal(NoteAll(info, done), nal)
  {
    NoteAllAppend(info, done, [nal]);
    assert [nal][1..] == [];
  }

  /** native_h264_scan_annexb: two prefix searches per NAL, stopping at the first bad one. */
  method ScanAnnexb(data: seq<Byte>) returns (r: Scan)
    ensures r == ScanAnnexbSpec(data)
  {
    hide Split, FirstPrefix, PrefixLen, NoteAll, NoteNal, Acceptable;
    var info := EMPTY_INFO;
    var pos := 0;
    ghost var done: seq<Nal> := [];
    var found, prefixPos, prefixLen := FindPrefix(data, pos);
    NoteNothing(Opening(data));
    while found
      invariant pos <= |data|
      invariant found <==> FirstPrefix(data, pos) < |data|
      invariant found ==> prefixPos == FirstPrefix(data, pos) && prefixLen == PrefixLen(data, prefixPos)
      invariant Nals(data) == done + Split(data, pos)
      invariant AllAcceptable(done)
      invariant |done| == info.nalCount
      invariant done == [] ==> pos == 0 && info == EMPTY_INFO
      invariant done != [] ==> info == NoteAll(Opening(data), done)
      decreases |data| - pos
    {
      if info.nalCount == 0 {
        info := info.(startsWithCode := prefixPos == 0);
      }
      var nalStart := prefixPos + prefixLen;
      var nextPos := |data|;
      var more, nextPrefixPos, nextPrefixLen := FindPrefix(data, nalStart);
      if more { nextPos := nextPrefixPos; }
      var nal := data[nalStart..nextPos];
      SplitStep(data, pos, prefixPos, nalStart, nextPos);
      assert Nals(data)[|done|] == nal;
      if nalStart >= nextPos || !Acceptable(nal) {
        EmptyUnacceptable(nal);
        return Invalid;
      }
      NoteOneMore(Opening(data), done, nal);
      NoteCounts(info, nal);
      info := NoteNal(info, nal);
      done := done + [nal];
      pos := nextPos;
      found, prefixPos, prefixLen := FindPrefix(data, pos);
    }
    SplitNone(data, pos);
    assert Nals(data) == done;
    r := if info.nalCount == 0 then Invalid else Ok(info);
  }

  lemma NoteNothing(info: Info)
    ensures NoteAll(info, []) == info
  {
  }

  lemma NoteCounts(info: Info, nal: Nal)
    requires Acceptable(nal)
    ensures NoteNal(info, nal).nalCount == info.nalCount + 1
  {
  }

  lemma EmptyUnacceptable(nal: Nal)
    ensures nal == [] ==> !Acceptable(nal)
  {
  }

  // ------------------------------------------------- what the scanner returns

  lemma SliceCodeFree(data: seq<Byte>, start: nat, end: nat)
    requires start <= end <= |data|
    requires FirstPrefix(data, start) >= end
    ensures CodeFree(data[start..end])
  {
    FirstPrefixFirst(data, start);
    var nal := data[start..end];
    forall q | 0 <= q < |nal| ensures PrefixLen(nal, q) == 0 {
      assert PrefixLen(data, start + q) == 0;
    }
    FirstPrefixIs(nal, 0, |nal|);
  }

  /** No NAL the scanner reports contains a start code. */
  lemma {:induction false} SplitCodeFree(data: seq<Byte>, pos: nat)
    requires pos <= |data|
    ensures forall i :: 0 <= i < |Split(data, pos)| ==> CodeFree(Split(data, pos)[i])
    decreases |data| - pos
  {
    var p := FirstPrefix(data, pos);
    if p < |data| {
      var start := p + PrefixLen(data, p);
      var end := FirstPrefix(data, start);
      SliceCodeFree(data, start, end);
      SplitCodeFree(data, end);
    }
  }

  /** Writing a start code before a code-free payload and scanning gives the payload back. */
  lemma SingleNal(nal: Nal)
    requires CodeFree(nal)
    ensures Nals(START_CODE + nal) == [nal]
    ensures FirstPrefix(START_CODE + nal, 0) == 0
  {
    var data := START_CODE + nal;
    assert PrefixLen(data, 0) == 4;
    FirstPrefixFirst(nal, 0);
    forall q | 4 <= q < |data| ensures PrefixLen(data, q) == 0 {
      assert PrefixLen(nal, q - 4) == 0;
    }
    FirstPrefixIs(data, 0, 0);
    FirstPrefixIs(data, 4, |data|);
    SplitStep(data, 0, 0, 4, |data|);
    assert data[4..|data|] == nal;
  }

  // -------------------------------------------------- scanning a concatenation

  /** b opens with a 3-byte code and a ends in 00: that zero becomes part of a 4-byte code. */
  predicate ZeroAbsorbed(a: seq<Byte>, b: seq<Byte>) {
    |a| > 0 && a[|a| - 1] == 0 && PrefixLen(b, 0) == 3
  }

  function TrimLast(nals: seq<Nal>): seq<Nal> {
    if nals == [] || nals[|nals| - 1] == [] then nals
    else
      var last := nals[|nals| - 1];
      nals[..|nals| - 1] + [last[..|last| - 1]]
  }

  lemma NoStraddle(a: seq<Byte>, b: seq<Byte>, q: nat)
    requires PrefixLen(b, 0) > 0
    requires q < Edge(a, b)
    ensures PrefixLen(a + b, q) == PrefixLen(a, q)
  {
    var ab := a + b;
    assert forall k :: 0 <= k < |a| ==> ab[k] == a[k];
    assert forall k :: 0 <= k < |b| ==> ab[|a| + k] == b[k];
  }

  lemma ShiftedPrefixLen(a: seq<Byte>, b: seq<Byte>, q: nat)
    ensures PrefixLen(a + b, |a| + q) == PrefixLen(b, q)
  {
    var ab := a + b;
    if q + 3 <= |b| {
      assert ab[|a| + q] == b[q] && ab[|a| + q + 1] == b[q + 1] && ab[|a| + q + 2] == b[q + 2];
      if q + 4 <= |b| { assert ab[|a| + q + 3] == b[q + 3]; }
    }
  }

  lemma ShiftedPrefix(a: seq<Byte>, b: seq<Byte>, pos: nat)
    requires pos <= |b|
    ensures FirstPrefix(a + b, |a| + pos) == |a| + FirstPrefix(b, pos)
  {
    var ab := a + b;
    var p := FirstPrefix(b, pos);
    FirstPrefixFirst(b, pos);
    forall q | |a| + pos <= q < |a| + p ensures PrefixLen(ab, q) == 0 {
      ShiftedPrefixLen(a, b, q - |a|);
    }
    ShiftedPrefixLen(a, b, p);
    FirstPrefixIs(ab, |a| + pos, |a| + p);
  }

  /** One step of Split, with its positions named; nothing is left when no start code is. */
  lemma SplitStep(data: seq<Byte>, pos: nat, p: nat, start: nat, end: nat)
    requires pos <= |data| && p == FirstPrefix(data, pos) < |data|
    requires start == p + PrefixLen(data, p) && end == FirstPrefix(data, start)
    ensures Split(data, pos) == [data[start..end]] + Split(data, end)
  {
  }

  lemma SplitNone(data: seq<Byte>, pos: nat)
    requires pos <= |data| && FirstPrefix(data, pos) == |data|
    ensures Split(data, pos) == []
  {
  }

  lemma ShiftedSlice(a: seq<Byte>, b: seq<Byte>, start: nat, end: nat)
    requires start <= end <= |b|
    ensures (a + b)[|a| + start..|a| + end] == b[start..end]
  {
  }

  lemma {:induction false} ShiftedSplit(a: seq<Byte>, b: seq<Byte>, pos: nat)
    requires pos <= |b|
    ensures Split(a + b, |a| + pos) == Split(b, pos)
    decreases |b| - pos
  {
    hide Split, PrefixLen;
    ShiftedPrefix(a, b, pos);
    var p := FirstPrefix(b, pos);
    if p == |b| {
      SplitNone(b, pos);
      SplitNone(a + b, |a| + pos);
    } else {
      ShiftedPrefixLen(a, b, p);
      var start := p + PrefixLen(b, p);
      ShiftedPrefix(a, b, start);
      var end := FirstPrefix(b, start);
      ShiftedSplit(a, b, end);
      ShiftedSlice(a, b, start, end);
      SplitStep(b, pos, p, start, end);
      SplitStep(a + b, |a| + pos, |a| + p, |a| + start, |a| + end);
    }
  }

  lemma EdgePrefixLen(a: seq<Byte>, b: seq<Byte>)
    requires PrefixLen(b, 0) > 0
    ensures ZeroAbsorbed(a, b) ==> PrefixLen(a + b, |a| - 1) == 4
    ensures PrefixLen(a + b, |a|) == PrefixLen(b, 0)
  {
    var ab := a + b;
    ShiftedPrefixLen(a, b, 0);
    if ZeroAbsorbed(a, b) {
      assert ab[|a| - 1] == a[|a| - 1] && ab[|a|] == b[0] && ab[|a| + 1] == b[1] && ab[|a| + 2] == b[2];
    }
  }

  lemma CodeBeforeEdge(a: seq<Byte>, b: seq<Byte>, p: nat)
    requires p < |a| && PrefixLen(a, p) > 0
    ensures p + PrefixLen(a, p) <= |a| && a[p + PrefixLen(a, p) - 1] == 1
    ensures ZeroAbsorbed(a, b) ==> p + PrefixLen(a, p) <= |a| - 1
  {
  }

  lemma BoundaryPrefix(a: seq<Byte>, b: seq<Byte>, pos: nat)
    requires PrefixLen(b, 0) > 0
    requires pos <= Edge(a, b)
    ensures FirstPrefix(a + b, pos) == (if FirstPrefix(a, pos) < |a| then FirstPrefix(a, pos) else Edge(a, b))
    ensures FirstPrefix(a, pos) < |a| ==> FirstPrefix(a, pos) < Edge(a, b)
  {
    var edge := Edge(a, b);
    var ab := a + b;
    EdgePrefixLen(a, b);
    var f := FirstPrefix(a, pos);
    FirstPrefixFirst(a, pos);
    if f < |a| { CodeBeforeEdge(a, b, f); }
    var want := if f < |a| then f else edge;
    forall q | pos <= q < want ensures PrefixLen(ab, q) == 0 {
      NoStraddle(a, b, q);
    }
    if f < |a| { NoStraddle(a, b, f); }
    FirstPrefixIs(ab, pos, want);
  }

  function Edge(a: seq<Byte>, b: seq<Byte>): nat {
    if ZeroAbsorbed(a, b) then |a| - 1 else |a|
  }

  function LeftNals(a: seq<Byte>, b: seq<Byte>, pos: nat): seq<Nal>
    requires pos <= |a|
  {
    if ZeroAbsorbed(a, b) then TrimLast(Split(a, pos)) else Split(a, pos)
  }

  lemma TrimPrepend(nal: Nal, rest: seq<Nal>)
    requires rest != []
    ensures TrimLast([nal] + rest) == [nal] + TrimLast(rest)
  {
  }

  /** Scanning a concatenation at a start code gives both NAL lists in order; a single
    * trailing zero of the left part is lost exactly when ZeroAbsorbed holds. */
  lemma {:induction false} SplitConcat(a: seq<Byte>, b: seq<Byte>, pos: nat)
    requires PrefixLen(b, 0) > 0
    requires pos <= Edge(a, b)
    ensures Split(a + b, pos) == LeftNals(a, b, pos) + Nals(b)
    decreases |a| - pos
  {
    hide Split, PrefixLen, TrimLast;
    var ab := a + b;
    BoundaryPrefix(a, b, pos);
    var p := FirstPrefix(a, pos);
    if p >= |a| {
      SplitFromEdge(a, b);
      SameStart(ab, pos, Edge(a, b));
      SplitNone(a, pos);
      TrimNothing();
    } else {
      NoStraddle(a, b, p);
      CodeBeforeEdge(a, b, p);
      var start := p + PrefixLen(a, p);
      BoundaryPrefix(a, b, start);
      var end := FirstPrefix(a, start);
      SplitStep(a, pos, p, start, end);
      if end < |a| {
        SplitConcat(a, b, end);
        SplitStep(ab, pos, p, start, end);
        assert ab[start..end] == a[start..end];
        SplitSome(a, end);
        TrimPrepend(a[start..end], Split(a, end));
      } else {
        SplitFromEdge(a, b);
        SplitStep(ab, pos, p, start, Edge(a, b));
        LastNal(a, b, start);
        SplitNone(a, |a|);
        assert Split(a, pos) == [a[start..|a|]];
        assert Split(ab, pos) == [ab[start..Edge(a, b)]] + Nals(b);
      }
    }
  }

  lemma SplitSome(data: seq<Byte>, pos: nat)
    requires pos <= |data| && FirstPrefix(data, pos) < |data|
    ensures Split(data, pos) != []
  {
  }

  lemma TrimNothing()
    ensures TrimLast([]) == []
  {
  }

  lemma LastNal(a: seq<Byte>, b: seq<Byte>, start: nat)
    requires start <= Edge(a, b)
    ensures [(a + b)[start..Edge(a, b)]] == if ZeroAbsorbed(a, b) then TrimLast([a[start..|a|]]) else [a[start..|a|]]
  {
    hide PrefixLen, FirstPrefix;
    var nal := a[start..|a|];
    assert (a + b)[start..Edge(a, b)] == a[start..Edge(a, b)];
    if ZeroAbsorbed(a, b) {
      assert ([nal])[..0] + [nal[..|nal| - 1]] == [nal[..|nal| - 1]];
      assert nal[..|nal| - 1] == a[start..|a| - 1];
    }
  }

  lemma SameStart(data: seq<Byte>, from: nat, to: nat)
    requires from <= to <= |data| && FirstPrefix(data, from) == to
    ensures Split(data, from) == Split(data, to)
  {
    FirstPrefixFirst(data, from);
    FirstPrefixIs(data, to, to);
  }

  lemma SplitFromEdge(a: seq<Byte>, b: seq<Byte>)
    requires PrefixLen(b, 0) > 0
    ensures Split(a + b, Edge(a, b)) == Nals(b)
  {
    hide Split;
    var ab := a + b;
    EdgePrefixLen(a, b);
    FirstPrefixIs(ab, Edge(a, b), Edge(a, b));
    FirstPrefixIs(b, 0, 0);
    var start := PrefixLen(b, 0);
    ShiftedPrefix(a, b, start);
    var end := FirstPrefix(b, start);
    ShiftedSlice(a, b, start, end);
    ShiftedSplit(a, b, end);
    SplitStep(b, 0, 0, start, end);
    SplitStep(ab, Edge(a, b), Edge(a, b), |a| + start, |a| + end);
  }

  function Types(nals: seq<Nal>): seq<int>
    requires AllAcceptable(nals)
  {
    seq(|nals|, i requires 0 <= i < |nals| => NalType(nals[i]))
  }

  /** Losing the absorbed zero changes no NAL header, so the concatenation is accepted and keeps every type in order. */
  lemma ConcatTypes(a: seq<Byte>, b: seq<Byte>)
    requires PrefixLen(b, 0) > 0
    requires AllAcceptable(Nals(a)) && AllAcceptable(Nals(b))
    ensures AllAcceptable(Nals(a + b))
    ensures Types(Nals(a + b)) == Types(Nals(a)) + Types(Nals(b))
  {
    hide Split, FirstPrefix, TrimLast;
    SplitConcat(a, b, 0);
    var left := Nals(a);
    if ZeroAbsorbed(a, b) && left != [] {
      LastEndsWithData(a, 0);
      TrimKeepsTypes(left);
    } else {
      TrimNothing();
    }
    var both := if ZeroAbsorbed(a, b) then TrimLast(left) else left;
    assert Nals(a + b) == both + Nals(b);
    TypesAppend(both, Nals(b));
  }

  lemma TypesAppend(a: seq<Nal>, b: seq<Nal>)
    requires AllAcceptable(a) && AllAcceptable(b)
    ensures AllAcceptable(a + b) && Types(a + b) == Types(a) + Types(b)
  {
  }

  lemma TrimKeepsTypes(nals: seq<Nal>)
    requires AllAcceptable(nals) && nals != []
    requires var last := nals[|nals| - 1]; last[|last| - 1] == 0
    ensures AllAcceptable(TrimLast(nals)) && Types(TrimLast(nals)) == Types(nals)
  {
    var last := nals[|nals| - 1];
    assert |last| > 1;
    var cut := last[..|last| - 1];
    assert Acceptable(cut) && NalType(cut) == NalType(last);
  }

  /** The last NAL runs to the end of the buffer. */
  lemma {:induction false} LastEndsWithData(data: seq<Byte>, pos: nat)
    requires pos <= |data|
    requires Split(data, pos) != []
    ensures var last := Split(data, pos)[|Split(data, pos)| - 1];
            last != [] ==> last[|last| - 1] == data[|data| - 1]
    decreases |data| - pos
  {
    var p := FirstPrefix(data, pos);
    var start := p + PrefixLen(data, p);
    var end := FirstPrefix(data, start);
    SplitStep(data, pos, p, start, end);
    if end < |data| {
      LastEndsWithData(data, end);
    } else {
      assert Split(data, end) == [];
    }
  }

  // --------------------------------------------------------------- AVC framing

  function Be32(data: seq<Byte>, pos: nat): (n: nat)
    requires pos + 4 <= |data|
    ensures n < U32_SPAN
  {
    var b0, b1, b2, b3 := data[pos] as int, data[pos + 1] as int, data[pos + 2] as int, data[pos + 3] as int;
    b0 * 0x100_0000 + b1 * 0x1_0000 + b2 * 0x100 + b3
  }

  /** The NALs of a length-prefixed buffer; None as soon as a length or a header is unacceptable. */
  function AvcSplit(data: seq<Byte>, pos: nat): (r: Option<seq<Nal>>)
    requires pos <= |data|
    ensures r.Some? ==> AllAcceptable(r.value)
    decreases |data| - pos
  {
    if pos == |data| then Some([])
    else if |data| - pos < 4 then None
    else
      var n := Be32(data, pos);
      if n == 0 || n > |data| - (pos + 4) then None
      else
        var nal := data[pos + 4..pos + 4 + n];
        var rest := AvcSplit(data, pos + 4 + n);
        if !Acceptable(nal) || rest.None? then None else Some([nal] + rest.value)
  }

  function ScanAvcSpec(data: seq<Byte>): Scan {
    match AvcSplit(data, 0)
    case None => Invalid
    case Some(nals) => if nals == [] then Invalid else Ok(NoteAll(EMPTY_INFO, nals))
  }

  /** native_h264_scan_au: fully validated AVC first, then Annex-B. */
  function ScanAuSpec(data: seq<Byte>): Scan {
    if ScanAvcSpec(data).Ok? then ScanAvcSpec(data) else ScanAnnexbSpec(data)
  }

  function ToAnnexb(nals: seq<Nal>): seq<Byte> {
    if nals == [] then [] else START_CODE + nals[0] + ToAnnexb(nals[1..])
  }

  lemma {:induction false} ToAnnexbAppend(a: seq<Nal>, nal: Nal)
    ensures ToAnnexb(a + [nal]) == ToAnnexb(a) + START_CODE + nal
  {
    if a == [] {
      assert a + [nal] == [nal];
      assert [nal][1..] == [];
    } else {
      assert (a + [nal])[1..] == a[1..] + [nal];
      ToAnnexbAppend(a[1..], nal);
    }
  }

  lemma {:induction false} ToAnnexbLength(data: seq<Byte>, pos: nat)
    requires pos <= |data| && AvcSplit(data, pos).Some?
    ensures |ToAnnexb(AvcSplit(data, pos).value)| == |data| - pos
    decreases |data| - pos
  {
    if pos < |data| {
      var n := Be32(data, pos);
      ToAnnexbLength(data, pos + 4 + n);
      var rest := AvcSplit(data, pos + 4 + n).value;
      assert AvcSplit(data, pos).value[1..] == rest;
    }
  }

  /** One step of AvcSplit: a usable length field and header, then the rest. */
  predicate AvcHead(data: seq<Byte>, pos: nat)
    requires pos < |data|
  {
    && |data| - pos >= 4
    && 0 < Be32(data, pos) <= |data| - (pos + 4)
    && Acceptable(data[pos + 4..pos + 4 + Be32(data, pos)])
  }

  lemma AvcStep(data: seq<Byte>, pos: nat)
    requires pos < |data|
    ensures !AvcHead(data, pos) ==> AvcSplit(data, pos).None?
    ensures AvcHead(data, pos) ==>
              var next := pos + 4 + Be32(data, pos);
              && AvcSplit(data, pos).Some? == AvcSplit(data, next).Some?
              && (AvcSplit(data, next).Some? ==>
                    AvcSplit(data, pos).value == [data[pos + 4..next]] + AvcSplit(data, next).value)
  {
  }

  lemma AvcEnd(data: seq<Byte>)
    ensures AvcSplit(data, |data|) == Some([])
  {
  }

  /** done is what has been read up to pos; the verdict and the remaining NALs are those of the rest. */
  ghost predicate AvcProgress(data: seq<Byte>, pos: nat, done: seq<Nal>) {
    && pos <= |data| && AllAcceptable(done)
    && (AvcSplit(data, 0).Some? <==> AvcSplit(data, pos).Some?)
    && (AvcSplit(data, pos).Some? ==> AvcSplit(data, 0).value == done + AvcSplit(data, pos).value)
  }

  lemma AvcAdvance(data: seq<Byte>, pos: nat, done: seq<Nal>)
    requires pos < |data| && AvcHead(data, pos) && AvcProgress(data, pos, done)
    ensures var next := pos + 4 + Be32(data, pos);
            AvcProgress(data, next, done + [data[pos + 4..next]])
  {
    hide AvcSplit, Be32, Acceptable;
    AvcStep(data, pos);
    var next := pos + 4 + Be32(data, pos);
    var nal := data[pos + 4..next];
    if AvcSplit(data, next).Some? {
      var rest := AvcSplit(data, next).value;
      assert done + ([nal] + rest) == (done + [nal]) + rest;
    }
  }

  /** native_h264_avc_annexb_size: summary and converted size in one pass. */
  method AvcAnnexbSize(data: seq<Byte>) returns (r: Scan, outLen: nat)
    ensures r == ScanAvcSpec(data)
    ensures r.Ok? ==> outLen == |data|
  {
    hide AvcSplit, Be32, Acceptable, NoteAll, NoteNal;
    var info := EMPTY_INFO;
    var pos := 0;
    outLen := 0;
    ghost var done: seq<Nal> := [];
    NoteNothing(EMPTY_INFO);
    while pos < |data|
      invariant outLen == pos
      invariant AvcProgress(data, pos, done)
      invariant info == NoteAll(EMPTY_INFO, done) && info.nalCount == |done|
    {
      AvcStep(data, pos);
      if |data| - pos < 4 { return Invalid, outLen; }
      var n := Be32(data, pos);
      if n == 0 || n > |data| - (pos + 4) { return Invalid, outLen; }
      var nal := data[pos + 4..pos + 4 + n];
      if !Acceptable(nal) { return Invalid, outLen; }
      AvcAdvance(data, pos, done);
      NoteOneMore(EMPTY_INFO, done, nal);
      NoteCounts(info, nal);
      info := NoteNal(info, nal);
      done := done + [nal];
      outLen := outLen + 4 + n;
      pos := pos + 4 + n;
    }
    AvcEnd(data);
    assert AvcSplit(data, 0).value == done;
    r := if info.nalCount == 0 then Invalid else Ok(info);
  }

  datatype Conversion = Converted | Rejected | OutputTooSmall

  /** native_h264_avc_to_annexb: a rejected or oversized input leaves the output untouched. */
  method AvcToAnnexb(data: seq<Byte>, out: array<Byte>) returns (r: Conversion, outLen: nat)
    modifies out
    ensures r.Rejected? <==> ScanAvcSpec(data).Invalid?
    ensures r.OutputTooSmall? <==> ScanAvcSpec(data).Ok? && |data| > out.Length
    ensures !r.Converted? ==> outLen == 0 && out[..] == old(out[..])
    ensures r.Converted? ==> outLen == |data| <= out.Length
    ensures r.Converted? ==> out[..] == ToAnnexb(AvcSplit(data, 0).value) + old(out[outLen..])
  {
    hide AvcSplit, Be32, Acceptable, NoteAll, ToAnnexb;
    outLen := 0;
    var scan, needed := AvcAnnexbSize(data);
    if scan.Invalid? { return Rejected, 0; }
    if needed > out.Length { return OutputTooSmall, 0; }
    var pos := 0;
    ghost var done: seq<Nal> := [];
    NoBytes();
    while pos < |data|
      invariant pos == outLen <= |data| <= out.Length
      invariant AvcSplit(data, 0).Some? && AvcProgress(data, pos, done)
      invariant out[..] == ToAnnexb(done) + old(out[..])[outLen..]
      invariant |ToAnnexb(done)| == outLen
    {
      AvcStep(data, pos);
      var n := Be32(data, pos);
      var nal := data[pos + 4..pos + 4 + n];
      AvcAdvance(data, pos, done);
      ToAnnexbAppend(done, nal);
      CopyInto(out, outLen, START_CODE);
      CopyInto(out, outLen + 4, nal);
      TwoCopies(ToAnnexb(done), START_CODE, nal, old(out[..])[outLen..]);
      done := done + [nal];
      outLen := outLen + 4 + n;
      pos := pos + 4 + n;
    }
    AvcEnd(data);
    assert AvcSplit(data, 0).value == done;
    r := Converted;
  }

  lemma NoBytes()
    ensures ToAnnexb([]) == []
  {
  }

  function Overwrite(buffer: seq<Byte>, at: nat, block: seq<Byte>): (r: seq<Byte>)
    requires at + |block| <= |buffer|
    ensures |r| == |buffer|
  {
    buffer[..at] + block + buffer[at + |block|..]
  }

  lemma TwoCopies(before: seq<Byte>, code: seq<Byte>, nal: seq<Byte>, rest: seq<Byte>)
    requires |code| + |nal| <= |rest|
    ensures Overwrite(Overwrite(before + rest, |before|, code), |before| + |code|, nal)
            == (before + code + nal) + rest[|code| + |nal|..]
  {
  }

  /** memcpy of a whole block. */
  method CopyInto(out: array<Byte>, at: nat, block: seq<Byte>)
    requires at + |block| <= out.Length
    modifies out
    ensures out[..] == Overwrite(old(out[..]), at, block)
  {
    forall i | 0 <= i < |block| {
      out[at + i] := block[i];
    }
  }

  // ---------------------------------------------------- meaning is preserved

  lemma {:induction false} RoundTripNals(nals: seq<Nal>)
    requires forall i :: 0 <= i < |nals| ==> CodeFree(nals[i])
    ensures Nals(ToAnnexb(nals)) == nals
    ensures nals != [] ==> PrefixLen(ToAnnexb(nals), 0) == 4
  {
    if nals != [] {
      var first := START_CODE + nals[0];
      var rest := ToAnnexb(nals[1..]);
      RoundTripNals(nals[1..]);
      SingleNal(nals[0]);
      assert ToAnnexb(nals) == first + rest;
      if nals[1..] == [] {
        assert first + rest == first;
        assert nals == [nals[0]];
      } else {
        SplitConcat(first, rest, 0);
        assert nals == [nals[0]] + nals[1..];
      }
    }
  }

  /** Converting and rescanning returns the same NAL list exactly when no NAL carries a start code of its own. */
  lemma ConversionKeepsNals(data: seq<Byte>)
    requires AvcSplit(data, 0).Some?
    ensures var nals := AvcSplit(data, 0).value;
            Nals(ToAnnexb(nals)) == nals <==> forall i :: 0 <= i < |nals| ==> CodeFree(nals[i])
  {
    var nals := AvcSplit(data, 0).value;
    SplitCodeFree(ToAnnexb(nals), 0);
    if forall i :: 0 <= i < |nals| ==> CodeFree(nals[i]) {
      RoundTripNals(nals);
    }
  }

  /** The Annex-B summary of the converted AU is the AVC summary of the original. */
  lemma ConversionKeepsSummary(data: seq<Byte>)
    requires ScanAvcSpec(data).Ok?
    requires forall i :: 0 <= i < |AvcSplit(data, 0).value| ==> CodeFree(AvcSplit(data, 0).value[i])
    ensures ScanAnnexbSpec(ToAnnexb(AvcSplit(data, 0).value)) == Ok(ScanAvcSpec(data).info.(startsWithCode := true))
  {
    var nals := AvcSplit(data, 0).value;
    RoundTripNals(nals);
    FirstPrefixIs(ToAnnexb(nals), 0, 0);
    StartFlagOnly(EMPTY_INFO, nals);
  }

  lemma {:induction false} StartFlagOnly(info: Info, nals: seq<Nal>)
    requires AllAcceptable(nals)
    ensures NoteAll(info.(startsWithCode := true), nals) == NoteAll(info, nals).(startsWithCode := true)
    decreases |nals|
  {
    if nals != [] {
      StartFlagOnly(NoteNal(info, nals[0]), nals[1..]);
    }
  }

  /** The condition is not idle: an AVC NAL that embeds 00 00 01 comes back as two NALs. */
  lemma EmbeddedCodeSplits()
    ensures var nal: Nal := [0x65, 0, 0, 1, 0x41];
            && AvcSplit([0, 0, 0, 5] + nal, 0) == Some([nal])
            && Nals(ToAnnexb([nal])) == [[0x65], [0x41]]
  {
    var nal: Nal := [0x65, 0, 0, 1, 0x41];
    OneAvcNal();
    assert ToAnnexb([nal]) == START_CODE + nal by {
      hide Split, FirstPrefix;
      ToAnnexbAppend([], nal);
      assert [] + [nal] == [nal];
    }
    TwoPieces();
  }

  lemma OneAvcNal()
    ensures AvcSplit([0, 0, 0, 5] + [0x65, 0, 0, 1, 0x41], 0) == Some([[0x65, 0, 0, 1, 0x41]])
  {
    hide AvcSplit, Split, FirstPrefix;
    var nal: Nal := [0x65, 0, 0, 1, 0x41];
    var data: seq<Byte> := [0, 0, 0, 5] + nal;
    assert Be32(data, 0) == 5;
    assert data[4..9] == nal;
    assert Acceptable(nal);
    AvcStep(data, 0);
    AvcEnd(data);
    assert [data[4..9]] + [] == [nal];
  }

  lemma TwoPieces()
    ensures Nals(START_CODE + [0x65, 0, 0, 1, 0x41]) == [[0x65], [0x41]]
  {
    hide Split, FirstPrefix;
    var out := START_CODE + [0x65, 0, 0, 1, 0x41];
    FirstPrefixIs(out, 0, 0);
    FirstPrefixIs(out, 4, 5);
    FirstPrefixIs(out, 5, 5);
    FirstPrefixIs(out, 8, 9);
    SplitStep(out, 0, 0, 4, 5);
    SplitStep(out, 5, 5, 8, 9);
    SplitNone(out, 9);
    assert out[4..5] == [0x65] && out[8..9] == [0x41];
  }
}
