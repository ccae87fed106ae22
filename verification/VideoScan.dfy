// The verdict the ingest path reaches on an access unit before routing it.
module VideoScan {
  import opened Bytes
  import opened H264Annexb

  datatype Codec = H264 | H265

  datatype Verdict = Malformed | Plain | Seed

  datatype HevcSets = HevcSets(vps: bool, sps: bool, pps: bool, seed: bool)

  predicate HevcAcceptable(nal: Nal) {
    |nal| >= 2 && nal[0] & 0x80 == 0 && nal[1] & 7 != 0
  }

  function HevcNote(s: HevcSets, nal: Nal): HevcSets
    requires HevcAcceptable(nal)
  {
    var t := ((nal[0] >> 1) & 0x3f) as int;
    if t == 32 then s.(vps := true)
    else if t == 33 then s.(sps := true)
    else if t == 34 then s.(pps := true)
    else if 16 <= t <= 21 then s.(seed := s.seed || (s.vps && s.sps && s.pps))
    else s
  }

  function HevcFold(s: HevcSets, nals: seq<Nal>): HevcSets
    requires forall i :: 0 <= i < |nals| ==> HevcAcceptable(nals[i])
    decreases |nals|
  {
    if nals == [] then s else HevcFold(HevcNote(s, nals[0]), nals[1..])
  }

  function HevcVerdict(data: seq<Byte>): Verdict {
    var nals := Nals(data);
    if nals == [] || exists i :: 0 <= i < |nals| && !HevcAcceptable(nals[i]) then Malformed
    else if HevcFold(HevcSets(false, false, false, false), nals).seed then Seed else Plain
  }

  function ScanVerdict(codec: Codec, data: seq<Byte>): Verdict {
    match codec
    case H265 => HevcVerdict(data)
    case H264 =>
      var scan := ScanAuSpec(data);
      if scan.Invalid? then Malformed else if scan.info.canSeed then Seed else Plain
  }
}
