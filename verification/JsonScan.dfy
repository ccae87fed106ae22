// The scanner's loops, each against its recursive specification.
module JsonScan {
  import opened Bytes
  import opened NativeJson

  method SkipBlank(s: seq<Octet>, start: nat) returns (p: nat)
    requires start <= |s|
    ensures p == Skip(s, start)
  {
    p := start;
    while Blank(At(s, p))
      invariant p <= |s| && Skip(s, p) == Skip(s, start)
      decreases |s| - p
    {
      p := p + 1;
    }
  }

  /** The value of n hexadecimal digits. */
  function HexRun(s: seq<Octet>, p: nat, n: nat): Option<nat> {
    if n == 0 then Some(0)
    else
      match (HexRun(s, p, n - 1), Hex(At(s, p + n - 1)))
      case (Some(v), Some(d)) => Some(v * 16 + d)
      case _ => None
  }

  lemma HexRunFour(s: seq<Octet>, p: nat, n: nat)
    requires n <= 4
    ensures HexRun(s, p, 4) == Hex4(s, p)
    ensures HexRun(s, p, n).None? ==> Hex4(s, p).None?
  {
    assert HexRun(s, p, 1) == Hex(At(s, p));
    assert HexRun(s, p, 2).Some? ==> HexRun(s, p, 1).Some?;
    assert HexRun(s, p, 3).Some? ==> HexRun(s, p, 2).Some?;
    assert HexRun(s, p, 4).Some? ==> HexRun(s, p, 3).Some?;
  }

  method ReadHex4(s: seq<Octet>, start: nat) returns (code: Option<nat>)
    ensures code == Hex4(s, start)
  {
    hide Hex, Hex4;
    var value := 0;
    var i := 0;
    while i < 4
      invariant i <= 4 && HexRun(s, start, i) == Some(value)
    {
      HexRunFour(s, start, i + 1);
      var digit := Hex(At(s, start + i));
      if digit.None? { return None; }
      value := value * 16 + digit.value;
      i := i + 1;
    }
    HexRunFour(s, start, 4);
    return Some(value);
  }

  /** One character of a string body. */
  method ReadUnit(s: seq<Octet>, p: nat) returns (u: Option<Piece>)
    requires p < |s|
    ensures u == Unit(s, p)
  {
    var c := At(s, p);
    if c < 0x20 { return None; }
    if c != 0x5c { return Some(Piece(p + 1, [c])); }
    if At(s, p + 1) != 0x75 {
      var e := Escape(At(s, p + 1));
      if e.None? { return None; }
      return Some(Piece(p + 2, [e.value]));
    }
    var q := p + 2;
    var code := ReadHex4(s, q);
    if code.None? || code.value == 0 { return None; }
    q := q + 4;
    var point := code.value;
    if 0xd800 <= point <= 0xdbff {
      if At(s, q) != 0x5c || At(s, q + 1) != 0x75 { return None; }
      q := q + 2;
      var low := ReadHex4(s, q);
      if low.None? || low.value < 0xdc00 || low.value > 0xdfff { return None; }
      q := q + 4;
      point := 0x10000 + (point - 0xd800) * 1024 + (low.value - 0xdc00);
    } else if 0xdc00 <= point <= 0xdfff {
      return None;
    }
    return Some(Piece(q, Utf8(point)));
  }

  /** read_string: with a buffer it must hold the decoded text and its terminator, without one only the end counts. */
  method ReadString(s: seq<Octet>, start: nat, out: array?<nat>) returns (end: Option<nat>)
    requires start <= |s|
    modifies if out == null then {} else {out}
    ensures out == null ==> end == End(Text(s, start))
    ensures out != null ==> end == Bounded(Text(s, start), out.Length)
    ensures out != null && end.Some? ==>
      var said := Text(s, start).value.bytes;
      |said| < out.Length && out[..|said|] == said && out[|said|] == 0
  {
    hide Unit, Utf8;
    if At(s, start) != 0x22 { return None; }
    var p := start + 1;
    var written := 0;
    ghost var said: seq<nat> := [];
    NothingRead(Body(s, p));
    while At(s, p) != 0 && At(s, p) != 0x22
      invariant p <= |s| && written == |said|
      invariant out != null ==> written <= out.Length && out[..written] == said
      invariant Body(s, start + 1) == Prefixed(said, Body(s, p))
      decreases |s| - p
    {
      var u := ReadUnit(s, p);
      if u.None? { return None; }
      var count := |u.value.bytes|;
      PrefixTwice(said, u.value.bytes, Body(s, u.value.next));
      if out != null {
        if written >= out.Length || count >= out.Length - written { return None; }
        forall i | 0 <= i < count { out[written + i] := u.value.bytes[i]; }
      }
      written := written + count;
      said := said + u.value.bytes;
      p := u.value.next;
    }
    if At(s, p) != 0x22 { return None; }
    assert said + [] == said;
    if out != null {
      if written >= out.Length { return None; }
      out[written] := 0;
    }
    return Some(p + 1);
  }

  /** A body whose first characters have been read already. */
  function Prefixed(said: seq<nat>, rest: Option<Piece>): Option<Piece> {
    if rest.None? then None else Some(Piece(rest.value.next, said + rest.value.bytes))
  }

  lemma NothingRead(rest: Option<Piece>)
    ensures Prefixed([], rest) == rest
  {
    if rest.Some? { assert [] + rest.value.bytes == rest.value.bytes; }
  }

  lemma PrefixTwice(said: seq<nat>, more: seq<nat>, rest: Option<Piece>)
    ensures Prefixed(said, Prefixed(more, rest)) == Prefixed(said + more, rest)
  {
    if rest.Some? { assert said + (more + rest.value.bytes) == said + more + rest.value.bytes; }
  }

  method SkipDigits(s: seq<Octet>, start: nat) returns (p: nat)
    requires start <= |s|
    ensures p == Digits(s, start)
  {
    p := start;
    while Digit(At(s, p))
      invariant p <= |s| && Digits(s, p) == Digits(s, start)
      decreases |s| - p
    {
      p := p + 1;
    }
  }

  method NumberEnd(s: seq<Octet>, start: nat) returns (end: Option<nat>)
    requires start <= |s|
    ensures end == Number(s, start)
  {
    hide Digits;
    var p := start;
    if At(s, p) == 0x2d { p := p + 1; }
    if At(s, p) == 0x30 {
      p := p + 1;
    } else {
      if At(s, p) < 0x31 || At(s, p) > 0x39 { return None; }
      p := SkipDigits(s, p);
    }
    if At(s, p) == 0x2e {
      p := p + 1;
      if !Digit(At(s, p)) { return None; }
      p := SkipDigits(s, p);
    }
    if At(s, p) == 0x65 || At(s, p) == 0x45 {
      p := p + 1;
      if At(s, p) == 0x2b || At(s, p) == 0x2d { p := p + 1; }
      if !Digit(At(s, p)) { return None; }
      p := SkipDigits(s, p);
    }
    return Some(p);
  }

  method ScalarEnd(s: seq<Octet>, p: nat) returns (end: Option<nat>)
    requires p <= |s|
    ensures end == Scalar(s, p)
  {
    if Starts(s, p, TRUE) { return Some(p + 4); }
    if Starts(s, p, FALSE) { return Some(p + 5); }
    if Starts(s, p, NULL) { return Some(p + 4); }
    end := NumberEnd(s, p);
  }

  /** value_end. */
  method ValueEnd(s: seq<Octet>, start: nat, depth: nat) returns (end: Option<nat>)
    requires start <= |s|
    ensures end == Value(s, start, depth)
    decreases MAX_DEPTH + 1 - depth
  {
    hide Skip, Scalar, Text, AfterKey, Blank, Starts;
    var p := SkipBlank(s, start);
    if depth > MAX_DEPTH { return None; }
    if At(s, p) == 0x22 {
      end := ReadString(s, p, null);
      return;
    }
    if At(s, p) != 0x7b && At(s, p) != 0x5b {
      end := ScalarEnd(s, p);
      return;
    }
    var object_ := At(s, p) == 0x7b;
    var close := Close(object_);
    p := SkipBlank(s, p + 1);
    if At(s, p) == close { return Some(p + 1); }
    ghost var first := p;
    while true
      invariant p <= |s| && Items(s, first, object_, depth) == Items(s, p, object_, depth)
      decreases |s| - p
    {
      var v := p;
      if object_ {
        var key := KeyEnd(s, p);
        if key.None? { return None; }
        v := key.value;
      }
      var e := ValueEnd(s, v, depth + 1);
      if e.None? { return None; }
      var q := SkipBlank(s, e.value);
      if At(s, q) == close { return Some(q + 1); }
      if At(s, q) != 0x2c { return None; }
      p := SkipBlank(s, q + 1);
    }
  }

  /** A member's key and the colon behind it. */
  method KeyEnd(s: seq<Octet>, p: nat) returns (end: Option<nat>)
    requires p <= |s|
    ensures end == AfterKey(s, p)
  {
    hide Body, Skip;
    var key := ReadString(s, p, null);
    if key.None? { return None; }
    var q := SkipBlank(s, key.value);
    if At(s, q) != 0x3a { return None; }
    return Some(q + 1);
  }

  method ValidateObject(s: seq<Octet>) returns (ok: bool)
    ensures ok == Valid(s)
  {
    hide Value, Skip;
    var p := SkipBlank(s, 0);
    if At(s, p) != 0x7b { return false; }
    var e := ValueEnd(s, p, 0);
    if e.None? { return false; }
    var q := SkipBlank(s, e.value);
    return At(s, q) == 0;
  }

  /** strcmp against the terminated text in the field buffer. */
  method SameName(field: array<nat>, ghost said: seq<nat>, key: seq<nat>) returns (same: bool)
    requires |said| < field.Length && field[..|said|] == said && field[|said|] == 0
    requires (forall i :: 0 <= i < |said| ==> said[i] != 0) && forall i :: 0 <= i < |key| ==> key[i] != 0
    ensures same == (said == key)
  {
    var i := 0;
    while i < |key|
      invariant i <= |key| && i <= |said| && said[..i] == key[..i]
    {
      assert i < |said| ==> field[i] == said[i];
      if field[i] != key[i] { return false; }
      i := i + 1;
    }
    assert i < |said| ==> field[i] == said[i];
    return field[i] == 0;
  }

  /** native_json_find_value: with a 64-byte field buffer, and once more without it when a name does not fit. */
  method FindValue(s: seq<Octet>, key: seq<nat>) returns (at: Option<nat>)
    requires forall i :: 0 <= i < |key| ==> key[i] != 0
    ensures at == Find(s, key)
  {
    hide Value, Skip, Text;
    var p := SkipBlank(s, 0);
    if At(s, p) != 0x7b { return None; }
    p := SkipBlank(s, p + 1);
    ghost var first := p;
    while At(s, p) != 0 && At(s, p) != 0x7d
      invariant p <= |s| && FindFrom(s, first, key) == FindFrom(s, p, key)
      decreases |s| - p
    {
      var field := new nat[FIELD](_ => 0);
      var end := ReadString(s, p, field);
      var matches := false;
      if end.Some? {
        TextHasNoZero(s, p);
        matches := SameName(field, Text(s, p).value.bytes, key);
      } else {
        end := ReadString(s, p, null);
      }
      if end.None? { return None; }
      var q := SkipBlank(s, end.value);
      if At(s, q) != 0x3a { return None; }
      var v := SkipBlank(s, q + 1);
      if matches { return Some(v); }
      var e := ValueEnd(s, v, 0);
      if e.None? { return None; }
      var t := SkipBlank(s, e.value);
      if At(s, t) != 0x2c { return None; }
      p := SkipBlank(s, t + 1);
    }
    return None;
  }

  lemma TextHasNoZero(s: seq<Octet>, p: nat)
    requires p <= |s| && Text(s, p).Some?
    ensures forall i :: 0 <= i < |Text(s, p).value.bytes| ==> Text(s, p).value.bytes[i] != 0
  {
    BodyHasNoZero(s, p + 1);
  }

  lemma {:induction false} BodyHasNoZero(s: seq<Octet>, p: nat)
    requires p <= |s| && Body(s, p).Some?
    ensures forall i :: 0 <= i < |Body(s, p).value.bytes| ==> Body(s, p).value.bytes[i] != 0
    decreases |s| - p
  {
    hide Utf8;
    if At(s, p) != 0x22 { BodyHasNoZero(s, Unit(s, p).value.next); }
  }
}
