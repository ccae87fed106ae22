// The JSON object scanner: one recursive scan that validates, one flat scan that
// looks a key up, and the string reader both share.
module NativeJson {
  import opened Bytes

  /** A byte of a C string; 0 only ever ends it. */
  type Octet = x: int | 1 <= x < 256 witness 1

  const MAX_DEPTH := 32
  const FIELD := 64

  /** What a pointer into the string reads. */
  function At(s: seq<Octet>, p: nat): (r: nat)
    ensures r == 0 <==> p >= |s|
  {
    if p < |s| then s[p] else 0
  }

  predicate Blank(c: nat) {
    c == 0x20 || c == 9 || c == 13 || c == 10
  }

  function Skip(s: seq<Octet>, p: nat): (r: nat)
    requires p <= |s|
    ensures p <= r <= |s| && !Blank(At(s, r))
    ensures !Blank(At(s, p)) ==> r == p
    decreases |s| - p
  {
    if Blank(At(s, p)) then Skip(s, p + 1) else p
  }

  // ---------------------------------------------------------------- strings

  function Hex(c: nat): (r: Option<nat>)
    ensures r.Some? ==> r.value < 16 && c != 0
  {
    if 0x30 <= c <= 0x39 then Some(c - 0x30)
    else if 0x61 <= c <= 0x66 then Some(c - 0x61 + 10)
    else if 0x41 <= c <= 0x46 then Some(c - 0x41 + 10)
    else None
  }

  /** Four hexadecimal digits. */
  function Hex4(s: seq<Octet>, p: nat): (r: Option<nat>)
    ensures r.Some? ==> p + 4 <= |s| && r.value < 0x10000
  {
    var a, b, c, d := Hex(At(s, p)), Hex(At(s, p + 1)), Hex(At(s, p + 2)), Hex(At(s, p + 3));
    if a.None? || b.None? || c.None? || d.None? then None
    else Some(((a.value * 16 + b.value) * 16 + c.value) * 16 + d.value)
  }

  /** UTF-8 as section 3 of RFC 3629 lays it out. */
  function Utf8(code: nat): (r: seq<nat>)
    requires 0 < code < 0x110000
    ensures 1 <= |r| <= 4 && forall i :: 0 <= i < |r| ==> 0 < r[i] < 256
  {
    if code < 0x80 then [code]
    else if code < 0x800 then [0xc0 + code / 64, 0x80 + code % 64]
    else if code < 0x10000 then [0xe0 + code / 4096, 0x80 + code / 64 % 64, 0x80 + code % 64]
    else [0xf0 + code / 262144, 0x80 + code / 4096 % 64, 0x80 + code / 64 % 64, 0x80 + code % 64]
  }

  /** The code point a UTF-8 sequence stands for. */
  function FromUtf8(b: seq<int>): int
    requires 1 <= |b| <= 4
  {
    match |b|
    case 1 => b[0]
    case 2 => (b[0] - 0xc0) * 64 + (b[1] - 0x80)
    case 3 => ((b[0] - 0xe0) * 64 + (b[1] - 0x80)) * 64 + (b[2] - 0x80)
    case _ => (((b[0] - 0xf0) * 64 + (b[1] - 0x80)) * 64 + (b[2] - 0x80)) * 64 + (b[3] - 0x80)
  }

  /** Decoding gives back every code point that was encoded, so escapes of different characters differ. */
  lemma Utf8RoundTrip(code: nat)
    requires 0 < code < 0x110000
    ensures FromUtf8(Utf8(code)) == code
  {
    if code >= 0x10000 {
      Sextets(code);
      assert Utf8(code)[1] == 0x80 + code / 4096 % 64 && Utf8(code)[2] == 0x80 + code / 64 % 64;
    } else if code >= 0x800 {
      Sextets(code);
    }
  }

  lemma Sextets(x: nat)
    ensures x == x / 64 * 64 + x % 64
    ensures x / 64 == x / 4096 * 64 + x / 64 % 64
    ensures x / 4096 == x / 262144 * 64 + x / 4096 % 64
  {
    Quotient(x, 64);
    Quotient(x, 4096);
  }

  lemma Quotient(x: nat, n: nat)
    requires n == 64 || n == 4096
    ensures x / (n * 64) == x / n / 64
  {
  }

  datatype Piece = Piece(next: nat, bytes: seq<nat>)

  /** The part of an escape behind the u: one code unit, or a surrogate pair. */
  function Unicode(s: seq<Octet>, p: nat): (r: Option<Piece>)
    ensures r.Some? ==> p < r.value.next <= |s|
  {
    match Hex4(s, p)
    case None => None
    case Some(code) =>
      if code == 0 || 0xdc00 <= code <= 0xdfff then None
      else if 0xd800 <= code <= 0xdbff then
        if At(s, p + 4) != 0x5c || At(s, p + 5) != 0x75 then None
        else
          match Hex4(s, p + 6)
          case None => None
          case Some(low) =>
            if low < 0xdc00 || low > 0xdfff then None
            else Some(Piece(p + 10, Utf8(0x10000 + (code - 0xd800) * 1024 + (low - 0xdc00))))
      else Some(Piece(p + 4, Utf8(code)))
  }

  function Escape(c: nat): Option<nat> {
    if c == 0x22 || c == 0x5c || c == 0x2f then Some(c)
    else if c == 0x62 then Some(8)
    else if c == 0x66 then Some(12)
    else if c == 0x6e then Some(10)
    else if c == 0x72 then Some(13)
    else if c == 0x74 then Some(9)
    else None
  }

  /** One character of a string body, decoded. */
  function Unit(s: seq<Octet>, p: nat): (r: Option<Piece>)
    requires p < |s|
    ensures r.Some? ==> p < r.value.next <= |s|
  {
    var c := At(s, p);
    if c < 0x20 then None
    else if c != 0x5c then Some(Piece(p + 1, [c]))
    else if At(s, p + 1) == 0x75 then Unicode(s, p + 2)
    else
      match Escape(At(s, p + 1))
      case None => None
      case Some(b) => Some(Piece(p + 2, [b]))
  }

  /** The rest of a string body, up to and with the closing quote. */
  function Body(s: seq<Octet>, p: nat): (r: Option<Piece>)
    requires p <= |s|
    ensures r.Some? ==> p < r.value.next <= |s|
    decreases |s| - p
  {
    if At(s, p) == 0 then None
    else if At(s, p) == 0x22 then Some(Piece(p + 1, []))
    else
      match Unit(s, p)
      case None => None
      case Some(u) =>
        match Body(s, u.next)
        case None => None
        case Some(rest) => Some(Piece(rest.next, u.bytes + rest.bytes))
  }

  /** A string: where it ends and what it says. */
  function Text(s: seq<Octet>, p: nat): (r: Option<Piece>)
    requires p <= |s|
    ensures r.Some? ==> p < r.value.next <= |s|
  {
    if At(s, p) != 0x22 then None else Body(s, p + 1)
  }

  /** What read_string returns with a buffer of cap bytes: it must hold the text and its terminator. */
  function Bounded(piece: Option<Piece>, cap: nat): Option<nat> {
    if piece.Some? && |piece.value.bytes| < cap then Some(piece.value.next) else None
  }

  function End(piece: Option<Piece>): Option<nat> {
    if piece.Some? then Some(piece.value.next) else None
  }

  // ---------------------------------------------------------------- numbers

  predicate Digit(c: nat) {
    0x30 <= c <= 0x39
  }

  function Digits(s: seq<Octet>, p: nat): (r: nat)
    requires p <= |s|
    ensures p <= r <= |s| && !Digit(At(s, r))
    decreases |s| - p
  {
    if Digit(At(s, p)) then Digits(s, p + 1) else p
  }

  function Fraction(s: seq<Octet>, p: nat): (r: Option<nat>)
    requires p <= |s|
    ensures r.Some? ==> p <= r.value <= |s|
  {
    if At(s, p) != 0x2e then Some(p) else if !Digit(At(s, p + 1)) then None else Some(Digits(s, p + 1))
  }

  function Exponent(s: seq<Octet>, p: nat): (r: Option<nat>)
    requires p <= |s|
    ensures r.Some? ==> p <= r.value <= |s|
  {
    if At(s, p) != 0x65 && At(s, p) != 0x45 then Some(p)
    else
      var q := if At(s, p + 1) == 0x2b || At(s, p + 1) == 0x2d then p + 2 else p + 1;
      if !Digit(At(s, q)) then None else Some(Digits(s, q))
  }

  /** number_end. */
  function Number(s: seq<Octet>, p: nat): (r: Option<nat>)
    requires p <= |s|
    ensures r.Some? ==> p < r.value <= |s|
  {
    var q := if At(s, p) == 0x2d then p + 1 else p;
    if !Digit(At(s, q)) then None
    else
      var whole := if At(s, q) == 0x30 then q + 1 else Digits(s, q);
      match Fraction(s, whole)
      case None => None
      case Some(f) => Exponent(s, f)
  }

  // ----------------------------------------------------------------- values

  const TRUE: seq<nat> := [0x74, 0x72, 0x75, 0x65]
  const FALSE: seq<nat> := [0x66, 0x61, 0x6c, 0x73, 0x65]
  const NULL: seq<nat> := [0x6e, 0x75, 0x6c, 0x6c]

  predicate Starts(s: seq<Octet>, p: nat, word: seq<nat>) {
    p + |word| <= |s| && forall i :: 0 <= i < |word| ==> s[p + i] == word[i]
  }

  function Scalar(s: seq<Octet>, p: nat): (r: Option<nat>)
    requires p <= |s|
    ensures r.Some? ==> p < r.value <= |s|
  {
    if Starts(s, p, TRUE) then Some(p + 4)
    else if Starts(s, p, FALSE) then Some(p + 5)
    else if Starts(s, p, NULL) then Some(p + 4)
    else Number(s, p)
  }

  /** Where an object member's value starts: behind its key and colon. */
  function AfterKey(s: seq<Octet>, p: nat): (r: Option<nat>)
    requires p <= |s|
    ensures r.Some? ==> p < r.value <= |s|
  {
    match Text(s, p)
    case None => None
    case Some(key) =>
      var q := Skip(s, key.next);
      if At(s, q) != 0x3a then None else Some(q + 1)
  }

  /** value_end. */
  function Value(s: seq<Octet>, start: nat, depth: nat): (r: Option<nat>)
    requires start <= |s|
    ensures r.Some? ==> start < r.value <= |s|
    decreases MAX_DEPTH + 1 - depth, 1, 0
  {
    var p := Skip(s, start);
    if depth > MAX_DEPTH then None
    else if At(s, p) == 0x22 then End(Text(s, p))
    else if At(s, p) == 0x7b then Container(s, p + 1, true, depth)
    else if At(s, p) == 0x5b then Container(s, p + 1, false, depth)
    else Scalar(s, p)
  }

  function Close(object_: bool): nat {
    if object_ then 0x7d else 0x5d
  }

  function Container(s: seq<Octet>, start: nat, object_: bool, depth: nat): (r: Option<nat>)
    requires start <= |s| && depth <= MAX_DEPTH
    ensures r.Some? ==> start < r.value <= |s|
    decreases MAX_DEPTH + 1 - depth, 0, |s| - start + 1
  {
    var p := Skip(s, start);
    if At(s, p) == Close(object_) then Some(p + 1) else Items(s, p, object_, depth)
  }

  /** The members or elements of a container from p on, up to and with its closing bracket. */
  function Items(s: seq<Octet>, p: nat, object_: bool, depth: nat): (r: Option<nat>)
    requires p <= |s| && depth <= MAX_DEPTH
    ensures r.Some? ==> p < r.value <= |s|
    decreases MAX_DEPTH + 1 - depth, 0, |s| - p
  {
    match if object_ then AfterKey(s, p) else Some(p)
    case None => None
    case Some(v) =>
      match Value(s, v, depth + 1)
      case None => None
      case Some(e) =>
        var q := Skip(s, e);
        if At(s, q) == Close(object_) then Some(q + 1)
        else if At(s, q) != 0x2c then None
        else Items(s, Skip(s, q + 1), object_, depth)
  }

  /** native_json_validate_object. */
  predicate Valid(s: seq<Octet>) {
    var p := Skip(s, 0);
    && At(s, p) == 0x7b
    && match Value(s, p, 0)
       case None => false
       case Some(e) => At(s, Skip(s, e)) == 0
  }

  // ----------------------------------------------------------------- lookup

  /** The loop of native_json_find_value from p on. */
  function FindFrom(s: seq<Octet>, p: nat, key: seq<nat>): (r: Option<nat>)
    requires p <= |s|
    decreases |s| - p
  {
    if At(s, p) == 0 || At(s, p) == 0x7d then None
    else
      match Text(s, p)
      case None => None
      case Some(name) =>
        var q := Skip(s, name.next);
        if At(s, q) != 0x3a then None
        else
          var v := Skip(s, q + 1);
          if |name.bytes| < FIELD && name.bytes == key then Some(v)
          else
            match Value(s, v, 0)
            case None => None
            case Some(e) =>
              var t := Skip(s, e);
              if At(s, t) != 0x2c then None else FindFrom(s, Skip(s, t + 1), key)
  }

  function Find(s: seq<Octet>, key: seq<nat>): Option<nat> {
    var p := Skip(s, 0);
    if At(s, p) != 0x7b then None else FindFrom(s, Skip(s, p + 1), key)
  }

  // ------------------------------------------------- the reference: members

  datatype Member = Member(name: seq<nat>, at: nat)

  /** The immediate members of an object body that scans, in order, with the places of their values. */
  function Members(s: seq<Octet>, p: nat): (r: seq<Member>)
    requires p <= |s| && Items(s, p, true, 0).Some?
    decreases |s| - p
  {
    var v := AfterKey(s, p).value;
    var q := Skip(s, Value(s, v, 1).value);
    [Member(Text(s, p).value.bytes, Skip(s, v))] + (if At(s, q) == 0x2c then Members(s, Skip(s, q + 1)) else [])
  }

  function MembersOf(s: seq<Octet>): seq<Member>
    requires Valid(s)
  {
    var p := Skip(s, Skip(s, 0) + 1);
    if At(s, p) == 0x7d then [] else Members(s, p)
  }

  function First(members: seq<Member>, key: seq<nat>): Option<nat>
    decreases |members|
  {
    if members == [] then None
    else if members[0].name == key then Some(members[0].at)
    else First(members[1..], key)
  }

  /** A value that scans at some depth scans to the same end wherever more nesting is still allowed. */
  lemma {:induction false} DepthOnlyLimits(s: seq<Octet>, p: nat, depth: nat, less: nat)
    requires p <= |s| && less <= depth && Value(s, p, depth).Some?
    ensures Value(s, p, less) == Value(s, p, depth)
    decreases MAX_DEPTH + 1 - depth, 1, 0
  {
    var q := Skip(s, p);
    hide Scalar, Text;
    if At(s, q) == 0x7b || At(s, q) == 0x5b {
      var object_ := At(s, q) == 0x7b;
      var r := Skip(s, q + 1);
      if At(s, r) != Close(object_) { ItemsOnlyLimited(s, r, object_, depth, less); }
    }
  }

  lemma {:induction false} ItemsOnlyLimited(s: seq<Octet>, p: nat, object_: bool, depth: nat, less: nat)
    requires p <= |s| && less <= depth <= MAX_DEPTH && Items(s, p, object_, depth).Some?
    ensures Items(s, p, object_, less) == Items(s, p, object_, depth)
    decreases MAX_DEPTH + 1 - depth, 0, |s| - p
  {
    hide AfterKey, Value, Skip, Container, Scalar;
    var v := if object_ then AfterKey(s, p).value else p;
    DepthOnlyLimits(s, v, depth + 1, less + 1);
    var q := Skip(s, Value(s, v, depth + 1).value);
    if At(s, q) == 0x2c && At(s, q) != Close(object_) { ItemsOnlyLimited(s, Skip(s, q + 1), object_, depth, less); }
  }

  lemma SkipTwice(s: seq<Octet>, p: nat, depth: nat)
    requires p <= |s|
    ensures Value(s, Skip(s, p), depth) == Value(s, p, depth)
  {
    assert Skip(s, Skip(s, p)) == Skip(s, p);
  }

  /** One turn of the lookup loop over a member that scans. */
  lemma FindOne(s: seq<Octet>, p: nat, key: seq<nat>, e: nat)
    requires p <= |s| && AfterKey(s, p).Some? && |key| < FIELD
    requires Value(s, Skip(s, AfterKey(s, p).value), 0) == Some(e)
    ensures Text(s, p).Some? && e <= |s|
    ensures FindFrom(s, p, key) ==
      if Text(s, p).value.bytes == key then Some(Skip(s, AfterKey(s, p).value))
      else if At(s, Skip(s, e)) != 0x2c then None
      else FindFrom(s, Skip(s, Skip(s, e) + 1), key)
  {
    KeyOpens(s, p);
    hide Body, Unit, Utf8, Value, Skip, Text;
  }

  /** A member of a body that scans, and what follows it. */
  lemma MembersOne(s: seq<Octet>, p: nat) returns (v: nat, e: nat)
    requires p <= |s| && Items(s, p, true, 0).Some?
    ensures AfterKey(s, p) == Some(v) && v <= |s| && Value(s, v, 1) == Some(e) && e <= |s| && Text(s, p).Some?
    ensures var q := Skip(s, e);
            && (At(s, q) == 0x2c ==> Items(s, Skip(s, q + 1), true, 0).Some?)
            && Members(s, p) == [Member(Text(s, p).value.bytes, Skip(s, v))]
                                + (if At(s, q) == 0x2c then Members(s, Skip(s, q + 1)) else [])
  {
    hide Body, Unit, Value, Skip;
    KeyOpens(s, p);
    v := AfterKey(s, p).value;
    e := Value(s, v, 1).value;
  }

  lemma {:induction false} FindIsFirst(s: seq<Octet>, p: nat, key: seq<nat>)
    requires p <= |s| && Items(s, p, true, 0).Some? && |key| < FIELD
    ensures FindFrom(s, p, key) == First(Members(s, p), key)
    decreases |s| - p
  {
    hide Body, Unit, Utf8, Value, Skip, Text, Items, Members, FindFrom, First, AfterKey;
    var v, e := MembersOne(s, p);
    var q := Skip(s, e);
    DepthOnlyLimits(s, v, 1, 0);
    SkipTwice(s, v, 0);
    FindOne(s, p, key, e);
    var m := Member(Text(s, p).value.bytes, Skip(s, v));
    if At(s, q) == 0x2c {
      FindIsFirst(s, Skip(s, q + 1), key);
      FirstOf(m, Members(s, Skip(s, q + 1)), key);
    } else {
      FirstOf(m, [], key);
    }
  }

  lemma KeyOpens(s: seq<Octet>, p: nat)
    requires p <= |s| && AfterKey(s, p).Some?
    ensures Text(s, p).Some? && At(s, p) == 0x22
  {
    hide Body, Skip;
  }

  lemma FirstOf(m: Member, rest: seq<Member>, key: seq<nat>)
    ensures First([m] + rest, key) == if m.name == key then Some(m.at) else First(rest, key)
    ensures rest == [] ==> First(rest, key) == None
  {
    assert ([m] + rest)[1..] == rest;
  }

  /** On every text the validator accepts, the lookup of a key of under 64 bytes finds the first immediate
    * member whose decoded name is that key, and nothing exactly when there is none. */
  lemma LookupAgrees(s: seq<Octet>, key: seq<nat>)
    requires Valid(s) && |key| < FIELD
    ensures Find(s, key) == First(MembersOf(s), key)
    ensures Find(s, key).None? <==> forall i :: 0 <= i < |MembersOf(s)| ==> MembersOf(s)[i].name != key
  {
    var p := Skip(s, Skip(s, 0) + 1);
    if At(s, p) != 0x7d { FindIsFirst(s, p, key); }
    FirstMeans(MembersOf(s), key);
    hide Items, FindFrom, Members;
  }

  lemma {:induction false} FirstMeans(members: seq<Member>, key: seq<nat>)
    ensures First(members, key).None? <==> forall i :: 0 <= i < |members| ==> members[i].name != key
    decreases |members|
  {
    if members != [] && members[0].name != key {
      FirstMeans(members[1..], key);
      assert forall i :: 0 < i < |members| ==> members[i] == members[1..][i - 1];
    }
  }
}
