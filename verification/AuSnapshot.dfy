// The seed/delta cache of one background video stream: a byte buffer plus an
// entry table, and the value it stands for.
module AuSnapshot {
  import opened Bytes

  const MAX_BYTES := 8 * 1024 * 1024
  const MAX_AUS := 512

  datatype Au = Au(data: seq<Byte>, pts: nat)

  /** The cache as a value: whether appends are taken, whether a seed is held, and the AUs held. */
  datatype Snap = Snap(armed: bool, seeded: bool, aus: seq<Au>)

  const DISARMED := Snap(false, false, [])
  const ARMED_EMPTY := Snap(true, false, [])

  function Used(aus: seq<Au>): nat {
    if aus == [] then 0 else Used(aus[..|aus| - 1]) + |aus[|aus| - 1].data|
  }

  predicate Ready(s: Snap) {
    s.armed && s.seeded && |s.aus| > 0
  }

  /** One append: the new cache, and false exactly when this call voided it or it was not armed. */
  function Append(s: Snap, au: Au, valid: bool, seed: bool): (Snap, bool) {
    if !s.armed then (s, false)
    else if !valid || au.data == [] then (if s.seeded then (DISARMED, false) else (s, true))
    else
      var base := if seed then [] else s.aus;
      if !seed && !s.seeded then (s, true)
      else if |au.data| > MAX_BYTES - Used(base) || |base| >= MAX_AUS then (DISARMED, false)
      else (Snap(true, true, base + [au]), true)
  }

  // ---------------------------------------------------------------- the class

  datatype Entry = Entry(offset: nat, len: nat, pts: nat)

  /** The first count entries lay their AUs end to end from offset 0 up to used. */
  ghost predicate Tiles(entries: seq<Entry>, count: nat, used: nat) {
    if count == 0 then used == 0
    else
      && count <= |entries|
      && entries[count - 1].offset + entries[count - 1].len == used
      && Tiles(entries, count - 1, entries[count - 1].offset)
  }

  ghost function Held(buf: seq<Byte>, entries: seq<Entry>, count: nat, used: nat): (r: seq<Au>)
    requires Tiles(entries, count, used) && used <= |buf|
    ensures |r| == count
  {
    if count == 0 then []
    else
      var e := entries[count - 1];
      Held(buf, entries, count - 1, e.offset) + [Au(buf[e.offset..used], e.pts)]
  }

  lemma {:induction false} HeldUsed(buf: seq<Byte>, entries: seq<Entry>, count: nat, used: nat)
    requires Tiles(entries, count, used) && used <= |buf|
    ensures Used(Held(buf, entries, count, used)) == used
  {
    if count > 0 {
      var before := entries[count - 1].offset;
      HeldUsed(buf, entries, count - 1, before);
      UsedAppend(Held(buf, entries, count - 1, before), Au(buf[before..used], entries[count - 1].pts));
    }
  }

  lemma UsedAppend(aus: seq<Au>, au: Au)
    ensures Used(aus + [au]) == Used(aus) + |au.data|
  {
    assert (aus + [au])[..|aus|] == aus;
  }

  /** What the cache holds depends only on its own entries and its used bytes. */
  lemma {:induction false} HeldFrame(buf: seq<Byte>, after: seq<Byte>, entries: seq<Entry>,
          table: seq<Entry>, count: nat, used: nat)
    requires Tiles(entries, count, used) && used <= |buf| && used <= |after|
    requires after[..used] == buf[..used]
    requires count <= |entries| && count <= |table| && table[..count] == entries[..count]
    ensures Tiles(table, count, used) && Held(after, table, count, used) == Held(buf, entries, count, used)
  {
    if count > 0 {
      var e := entries[count - 1];
      assert table[count - 1] == table[..count][count - 1] == e;
      assert after[..e.offset] == after[..used][..e.offset];
      assert buf[..e.offset] == buf[..used][..e.offset];
      assert after[e.offset..used] == after[..used][e.offset..];
      assert buf[e.offset..used] == buf[..used][e.offset..];
      HeldFrame(buf, after, entries, table, count - 1, e.offset);
    }
  }

  /** Writing the next AU behind the used bytes and adding its entry appends it and moves nothing. */
  lemma HeldAppend(buf: seq<Byte>, after: seq<Byte>, entries: seq<Entry>, count: nat, used: nat, au: Au)
    requires Tiles(entries, count, used) && count < |entries| && used + |au.data| <= |buf| == |after|
    requires after[..used] == buf[..used] && after[used..used + |au.data|] == au.data
    ensures var table := entries[count := Entry(used, |au.data|, au.pts)];
            && Tiles(table, count + 1, used + |au.data|)
            && Held(after, table, count + 1, used + |au.data|) == Held(buf, entries, count, used) + [au]
  {
    HeldFrame(buf, after, entries, entries[count := Entry(used, |au.data|, au.pts)], count, used);
  }

  class Snapshot {
    var buf: array<Byte>
    var used: nat
    var entries: array<Entry>
    var count: nat
    var armed: bool
    var seeded: bool

    ghost predicate Valid()
      reads this, entries
    {
      && entries.Length == MAX_AUS
      && Tiles(entries[..], count, used)
      && used <= buf.Length
      && (armed ==> buf.Length == MAX_BYTES)
      && (!armed ==> count == 0 && !seeded)
    }

    ghost function Value(): Snap
      requires Valid()
      reads this, entries, buf
    {
      Snap(armed, seeded, Held(buf[..], entries[..], count, used))
    }

    constructor ()
      ensures Valid() && fresh(buf) && fresh(entries) && Value() == DISARMED
    {
      buf := new Byte[0];
      entries := new Entry[MAX_AUS](_ => Entry(0, 0, 0));
      used, count, armed, seeded := 0, 0, false, false;
    }

    method Reset()
      requires Valid()
      modifies this
      ensures Valid() && entries == old(entries) && fresh(buf) && Value() == DISARMED
    {
      buf := new Byte[0];
      used, count, armed, seeded := 0, 0, false, false;
    }

    method Arm(memory: bool) returns (ok: bool)
      requires Valid()
      modifies this
      ensures Valid() && entries == old(entries) && fresh(buf)
      ensures ok == memory && Value() == if memory then ARMED_EMPTY else DISARMED
    {
      Reset();
      if !memory { return false; }
      buf := new Byte[MAX_BYTES];
      armed := true;
      return true;
    }

    /** The two writes of an append that fits. */
    method Store(au: Au)
      requires Valid() && armed && count < MAX_AUS && |au.data| <= MAX_BYTES - used
      modifies this`used, this`count, buf, entries
      ensures Valid() && Value() == old(Value()).(aus := old(Value()).aus + [au])
    {
      ghost var bytes, table := buf[..], entries[..];
      forall i | 0 <= i < |au.data| { buf[used + i] := au.data[i]; }
      entries[count] := Entry(used, |au.data|, au.pts);
      HeldAppend(bytes, buf[..], table, count, used, au);
      assert entries[..] == table[count := Entry(used, |au.data|, au.pts)];
      used := used + |au.data|;
      count := count + 1;
    }

    method AppendAu(au: Au, valid: bool, seed: bool) returns (ok: bool)
      requires Valid()
      modifies this, buf, entries
      ensures Valid() && entries == old(entries) && (buf == old(buf) || fresh(buf))
      ensures Value() == Append(old(Value()), au, valid, seed).0
      ensures ok == Append(old(Value()), au, valid, seed).1
    {
      hide Tiles, Held, Used;
      if !armed { return false; }
      HeldUsed(buf[..], entries[..], count, used);
      if !valid || |au.data| == 0 {
        if !seeded { return true; }
        Reset();
        return false;
      }
      if seed {
        NothingHeld(buf[..], entries[..]);
        used, count, seeded := 0, 0, true;
      } else if !seeded {
        return true;
      }
      if |au.data| > MAX_BYTES - used || count >= MAX_AUS {
        Reset();
        return false;
      }
      Store(au);
      return true;
    }
  }

  lemma NothingHeld(buf: seq<Byte>, entries: seq<Entry>)
    ensures Tiles(entries, 0, 0) && Held(buf, entries, 0, 0) == [] && Used([]) == 0
  {
  }

  // ------------------------------------------------- the cache is the stream

  /** An AU together with its scan verdict. */
  datatype Item = Item(au: Au, valid: bool, seed: bool)

  predicate WellScanned(items: seq<Item>) {
    forall i :: 0 <= i < |items| ==> (items[i].seed ==> items[i].valid)
  }

  function AppendAll(s: Snap, items: seq<Item>): Snap {
    if items == [] then s
    else
      var last := items[|items| - 1];
      Append(AppendAll(s, items[..|items| - 1]), last.au, last.valid, last.seed).0
  }

  function AusOf(items: seq<Item>): seq<Au> {
    seq(|items|, i requires 0 <= i < |items| => items[i].au)
  }

  /** Position k holds a seed and no later position does. */
  predicate NewestSeed(items: seq<Item>, k: nat) {
    k < |items| && items[k].seed && forall i :: k < i < |items| ==> !items[i].seed
  }

  /** A ready cache holds exactly the AUs appended from the newest seed on, all valid, none missing. */
  lemma {:induction false} ReadyIsSuffix(items: seq<Item>) returns (k: nat)
    requires WellScanned(items)
    requires AppendAll(ARMED_EMPTY, items).seeded
    ensures NewestSeed(items, k)
    ensures AppendAll(ARMED_EMPTY, items).aus == AusOf(items[k..])
    ensures AppendAll(ARMED_EMPTY, items).armed && Ready(AppendAll(ARMED_EMPTY, items))
    ensures forall i :: k <= i < |items| ==> items[i].valid
  {
    var n := |items| - 1;
    var before := items[..n];
    var last := items[n];
    var s := AppendAll(ARMED_EMPTY, before);
    assert AppendAll(ARMED_EMPTY, items) == Append(s, last.au, last.valid, last.seed).0;
    if s.seeded { var _ := ReadyIsSuffix(before); }
    if last.seed {
      k := n;
      assert AusOf(items[n..]) == [last.au];
    } else {
      assert s.seeded && last.valid;
      k := ReadyIsSuffix(before);
      assert items[k..] == before[k..] + [last];
      assert AusOf(items[k..]) == AusOf(before[k..]) + [last.au];
    }
  }

  /** A decoder: any state type and step in which a seed forgets what came before. */
  function Decode<D>(step: (D, Item) -> D, d: D, items: seq<Item>): D {
    if items == [] then d else step(Decode(step, d, items[..|items| - 1]), items[|items| - 1])
  }

  ghost predicate SeedResets<D(!new)>(step: (D, Item) -> D) {
    forall d: D, e: D, item: Item :: item.seed ==> step(d, item) == step(e, item)
  }

  /** Replaying from the newest seed leaves any decoder as if it had decoded the whole stream. */
  lemma {:induction false} ReplayEqualsStream<D(!new)>(step: (D, Item) -> D, d: D, e: D, items: seq<Item>, k: nat)
    requires SeedResets(step)
    requires k < |items| && items[k].seed
    ensures Decode(step, d, items[k..]) == Decode(step, e, items)
    decreases |items|
  {
    var n := |items| - 1;
    if k == n {
      assert items[k..] == [items[n]];
    } else {
      ReplayEqualsStream(step, d, e, items[..n], k);
      assert items[k..][..n - k] == items[..n][k..];
    }
  }

  /** The two together: a ready cache is as good as the stream it was filled from. */
  lemma ReadyCacheDecodes<D(!new)>(step: (D, Item) -> D, d: D, e: D, items: seq<Item>) returns (k: nat)
    requires SeedResets(step) && WellScanned(items)
    requires AppendAll(ARMED_EMPTY, items).seeded
    ensures k < |items| && AppendAll(ARMED_EMPTY, items).aus == AusOf(items[k..])
    ensures Decode(step, d, items[k..]) == Decode(step, e, items)
  {
    k := ReadyIsSuffix(items);
    ReplayEqualsStream(step, d, e, items, k);
  }
}
