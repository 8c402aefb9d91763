/** The prefixed-tag vertex encoding of include/bw_graph/common/ptv_codec.h: an id takes one to four
 * bytes, and the two top bits of the first byte say how many. A slot, an entry reserved for a later
 * insert, always takes four bytes. Ids are 32-bit words and bytes are 8-bit words, so every shift,
 * mask and truncation below is the one of the source. */
module Ptv {

  type Byte = bv8
  type Id = bv32

  /** The thirty bits that a four-byte entry has room for. */
  function Cut(id: Id): Id {
    id & 0x3FFF_FFFF
  }

  function EncodedSize(id: Id): (n: nat)
    ensures 1 <= n <= 4
  {
    if id < 0x40 then 1
    else if id < 0x4000 then 2
    else if id < 0x40_0000 then 3
    else 4
  }

  function Low(id: Id): Byte {
    (id & 0xFF) as Byte
  }

  function Encode(id: Id): (bytes: seq<Byte>)
    ensures |bytes| == EncodedSize(id)
  {
    if id < 0x40 then [Low(id)]
    else if id < 0x4000 then [Low(0x40 | (id >> 8)), Low(id)]
    else if id < 0x40_0000 then [Low(0x80 | (id >> 16)), Low(id >> 8), Low(id)]
    else EncodeSlot(id)
  }

  function EncodeSlot(id: Id): (bytes: seq<Byte>)
    ensures |bytes| == 4
  {
    [Low(0xC0 | (id >> 24)), Low(id >> 16), Low(id >> 8), Low(id)]
  }

  /** How many bytes the entry starting with `first` takes. */
  function Width(first: Byte): (n: nat)
    ensures 1 <= n <= 4
  {
    var tag := (first >> 6) & 0x3;
    if tag == 0 then 1 else if tag == 1 then 2 else if tag == 2 then 3 else 4
  }

  /** A whole entry starts at `at`: what a reader of the buffer relies on. */
  predicate EntryAt(data: seq<Byte>, at: nat) {
    at < |data| && at + Width(data[at]) <= |data|
  }

  function Read(data: seq<Byte>, at: nat): (r: (Id, nat))
    requires EntryAt(data, at)
    ensures r.1 == Width(data[at])
  {
    var top := (data[at] & 0x3F) as Id;
    match Width(data[at])
    case 1 => (top, 1)
    case 2 => ((top << 8) | data[at + 1] as Id, 2)
    case 3 => ((top << 16) | (data[at + 1] as Id << 8) | data[at + 2] as Id, 3)
    case _ => ((top << 24) | (data[at + 1] as Id << 16) | (data[at + 2] as Id << 8) | data[at + 3] as Id, 4)
  }

  // ---------------------------------------------------------------------------
  // One entry

  /** An entry written at its shortest or, for a slot, at full width. */
  datatype Entry = Entry(id: Id, slot: bool) {
    function Bytes(): (bytes: seq<Byte>)
      ensures 1 <= |bytes| <= 4
    {
      if slot then EncodeSlot(id) else Encode(id)
    }
  }

  lemma FourBytes(id: Id)
    ensures Width(Low(0xC0 | (id >> 24))) == 4
    ensures ((Low(0xC0 | (id >> 24)) & 0x3F) as Id << 24) | (Low(id >> 16) as Id << 16)
            | (Low(id >> 8) as Id << 8) | Low(id) as Id == Cut(id)
  {
  }

  lemma ThreeBytes(id: Id)
    requires id < 0x40_0000
    ensures Width(Low(0x80 | (id >> 16))) == 3
    ensures ((Low(0x80 | (id >> 16)) & 0x3F) as Id << 16) | (Low(id >> 8) as Id << 8) | Low(id) as Id == id
  {
  }

  lemma TwoBytes(id: Id)
    requires id < 0x4000
    ensures Width(Low(0x40 | (id >> 8))) == 2
    ensures ((Low(0x40 | (id >> 8)) & 0x3F) as Id << 8) | Low(id) as Id == id
  {
  }

  lemma OneByte(id: Id)
    requires id < 0x40
    ensures Width(Low(id)) == 1
    ensures (Low(id) & 0x3F) as Id == id
  {
  }

  lemma RoomForSmall(id: Id)
    ensures id < 0x40_0000 ==> Cut(id) == id
    ensures Cut(id) == id <==> id < 0x4000_0000
  {
  }

  lemma ReadsFour(id: Id)
    ensures EntryAt(EncodeSlot(id), 0)
    ensures Read(EncodeSlot(id), 0) == (Cut(id), 4)
  {
    hide Low, Width;
    FourBytes(id);
  }

  lemma EncodeThree(id: Id)
    requires 0x4000 <= id < 0x40_0000
    ensures Encode(id) == [Low(0x80 | (id >> 16)), Low(id >> 8), Low(id)]
  {
    hide Low;
  }

  lemma EncodeTwo(id: Id)
    requires 0x40 <= id < 0x4000
    ensures Encode(id) == [Low(0x40 | (id >> 8)), Low(id)]
  {
    hide Low;
  }

  lemma ReadThree(a: Byte, b: Byte, c: Byte)
    requires Width(a) == 3
    ensures EntryAt([a, b, c], 0)
    ensures Read([a, b, c], 0) == (((a & 0x3F) as Id << 16) | (b as Id << 8) | c as Id, 3)
  {
    hide Width;
  }

  lemma ReadTwo(a: Byte, b: Byte)
    requires Width(a) == 2
    ensures EntryAt([a, b], 0)
    ensures Read([a, b], 0) == (((a & 0x3F) as Id << 8) | b as Id, 2)
  {
    hide Width;
  }

  lemma ReadsThree(id: Id)
    requires 0x4000 <= id < 0x40_0000
    ensures EntryAt(Encode(id), 0)
    ensures Read(Encode(id), 0) == (id, 3)
  {
    hide Low, Width, Encode, Read, EntryAt;
    ThreeBytes(id);
    EncodeThree(id);
    ReadThree(Low(0x80 | (id >> 16)), Low(id >> 8), Low(id));
  }

  lemma ReadsTwo(id: Id)
    requires 0x40 <= id < 0x4000
    ensures EntryAt(Encode(id), 0)
    ensures Read(Encode(id), 0) == (id, 2)
  {
    hide Low, Width, Encode, Read, EntryAt;
    TwoBytes(id);
    EncodeTwo(id);
    ReadTwo(Low(0x40 | (id >> 8)), Low(id));
  }

  lemma ReadsOne(id: Id)
    requires id < 0x40
    ensures EntryAt(Encode(id), 0)
    ensures Read(Encode(id), 0) == (id, 1)
  {
    hide Low, Width;
    OneByte(id);
  }

  lemma WideIsSlot(id: Id)
    requires id >= 0x40_0000
    ensures Encode(id) == EncodeSlot(id)
  {
    hide Low;
  }

  lemma ReadsShort(id: Id)
    ensures EntryAt(Encode(id), 0)
    ensures Read(Encode(id), 0) == (Cut(id), |Encode(id)|)
  {
    hide EntryAt, Read, EncodeSlot, Encode, Cut;
    RoomForSmall(id);
    if id >= 0x40_0000 {
      WideIsSlot(id);
      ReadsFour(id);
    } else if id >= 0x4000 {
      ReadsThree(id);
    } else if id >= 0x40 {
      ReadsTwo(id);
    } else {
      ReadsOne(id);
    }
  }

  /** The form of an entry: as few bytes as the limits of six, fourteen and twenty-two bits
   *  allow, their number less one in the two top bits of the first, the low bits of the id in
   *  the last. */
  lemma Format(id: Id)
    ensures |Encode(id)| == if id < 64 then 1 else if id < 16_384 then 2 else if id < 4_194_304 then 3 else 4
    ensures Encode(id)[0] >> 6 == if id < 64 then 0 else if id < 16_384 then 1 else if id < 4_194_304 then 2 else 3
    ensures Encode(id)[|Encode(id)| - 1] == (id & 0xFF) as Byte
    ensures EncodeSlot(id)[0] >> 6 == 3 && EncodeSlot(id)[3] == (id & 0xFF) as Byte
  {
  }

  /** An entry on its own. */
  lemma ReadsAlone(e: Entry)
    ensures EntryAt(e.Bytes(), 0)
    ensures Read(e.Bytes(), 0) == (Cut(e.id), |e.Bytes()|)
  {
    hide EntryAt, Read, EncodeSlot, Encode, EncodedSize, Cut;
    ReadsFour(e.id);
    ReadsShort(e.id);
  }

  /** Reading depends only on the bytes of the entry. */
  lemma ReadLocal(before: seq<Byte>, bytes: seq<Byte>, after: seq<Byte>)
    requires EntryAt(bytes, 0)
    ensures EntryAt(before + bytes + after, |before|)
    ensures Read(before + bytes + after, |before|) == Read(bytes, 0)
  {
    hide Width;
    var data := before + bytes + after;
    assert forall k :: 0 <= k < |bytes| ==> data[|before| + k] == bytes[k];
  }

  /** Wherever an entry is written, and whatever stands before and after it, reading there gives
   *  the id cut to thirty bits and the entry's own size. */
  lemma ReadsBack(before: seq<Byte>, e: Entry, after: seq<Byte>)
    ensures EntryAt(before + e.Bytes() + after, |before|)
    ensures Read(before + e.Bytes() + after, |before|) == (Cut(e.id), |e.Bytes()|)
  {
    ReadsAlone(e);
    ReadLocal(before, e.Bytes(), after);
  }

  lemma JoinedFits(a: Byte, b: Byte, c: Byte, d: Byte)
    ensures (a & 0x3F) as Id < 0x40
    ensures (((a & 0x3F) as Id) << 8) | b as Id < 0x4000
    ensures (((a & 0x3F) as Id) << 16) | (b as Id << 8) | c as Id < 0x40_0000
    ensures (((a & 0x3F) as Id) << 24) | (b as Id << 16) | (c as Id << 8) | d as Id < 0x4000_0000
  {
  }

  /** What is read from `width` bytes needs no more than these. */
  lemma ReadFits(data: seq<Byte>, at: nat)
    requires EntryAt(data, at)
    ensures
      var (id, width) := Read(data, at);
      && (width == 1 ==> id < 0x40) && (width == 2 ==> id < 0x4000) && (width == 3 ==> id < 0x40_0000)
      && id < 0x4000_0000
  {
    hide Width;
    var byte := i requires at <= i => if i < |data| then data[i] else 0;
    JoinedFits(byte(at), byte(at + 1), byte(at + 2), byte(at + 3));
  }

  /** No bytes at all name an id in fewer than `Encode` takes. */
  lemma Shortest(data: seq<Byte>, at: nat)
    requires EntryAt(data, at)
    ensures EncodedSize(Read(data, at).0) <= Read(data, at).1
  {
    hide Read, Width;
    ReadFits(data, at);
    assert 1 <= Read(data, at).1 <= 4;
  }

  predicate SlotIsEmpty(bytes: seq<Byte>)
    requires |bytes| == 4
  {
    bytes == [0xC0, 0, 0, 0]
  }

  /** A slot looks empty exactly if the id in it is zero as far as thirty bits tell: so an
   *  inserted vertex 0 is taken for a free slot. */
  lemma EmptySlot(id: Id)
    ensures SlotIsEmpty(EncodeSlot(id)) <==> Cut(id) == 0
  {
  }

  // ---------------------------------------------------------------------------
  // Streams

  function EncodeAll(entries: seq<Entry>): seq<Byte> {
    if entries == [] then [] else entries[0].Bytes() + EncodeAll(entries[1..])
  }

  /** What a stream keeps of the ids written to it. */
  function Kept(entries: seq<Entry>): (ids: seq<Id>)
    ensures |ids| == |entries|
  {
    seq(|entries|, i requires 0 <= i < |entries| => Cut(entries[i].id))
  }

  /** `count` whole entries stand from `at` on. */
  predicate Readable(data: seq<Byte>, at: nat, count: nat)
    decreases count
  {
    count == 0 || (EntryAt(data, at) && Readable(data, at + Width(data[at]), count - 1))
  }

  function ReadAll(data: seq<Byte>, at: nat, count: nat): (ids: seq<Id>)
    requires Readable(data, at, count)
    ensures |ids| == count
    decreases count
  {
    if count == 0 then [] else [Read(data, at).0] + ReadAll(data, at + Width(data[at]), count - 1)
  }

  /** The bytes written for `entries` stand from `at` on. */
  predicate HoldsAt(data: seq<Byte>, at: nat, bytes: seq<Byte>) {
    at + |bytes| <= |data| && data[at..at + |bytes|] == bytes
  }

  lemma HoldsParts(data: seq<Byte>, at: nat, first: seq<Byte>, rest: seq<Byte>)
    requires HoldsAt(data, at, first + rest)
    ensures HoldsAt(data, at, first) && HoldsAt(data, at + |first|, rest)
  {
    var all := data[at..at + |first + rest|];
    assert all[..|first|] == first && all[|first|..] == rest;
  }

  lemma ReadsBackAt(data: seq<Byte>, at: nat, e: Entry)
    requires HoldsAt(data, at, e.Bytes())
    ensures EntryAt(data, at) && Read(data, at) == (Cut(e.id), |e.Bytes()|)
  {
    hide EntryAt, Read, Entry.Bytes, Cut, Width;
    assert data == data[..at] + e.Bytes() + data[at + |e.Bytes()|..];
    ReadsBack(data[..at], e, data[at + |e.Bytes()|..]);
  }

  lemma {:induction false} StreamAt(data: seq<Byte>, at: nat, entries: seq<Entry>)
    requires HoldsAt(data, at, EncodeAll(entries))
    ensures Readable(data, at, |entries|) && ReadAll(data, at, |entries|) == Kept(entries)
    decreases |entries|
  {
    hide Read, EntryAt, Entry.Bytes, HoldsAt, Width, Cut;
    if entries != [] {
      HoldsParts(data, at, entries[0].Bytes(), EncodeAll(entries[1..]));
      ReadsBackAt(data, at, entries[0]);
      StreamAt(data, at + |entries[0].Bytes()|, entries[1..]);
      assert Kept(entries) == [Cut(entries[0].id)] + Kept(entries[1..]);
    }
  }

  /** A stream reads back entry by entry, whatever bytes stand before and after it. */
  lemma StreamReadsBack(before: seq<Byte>, entries: seq<Entry>, after: seq<Byte>)
    ensures Readable(before + EncodeAll(entries) + after, |before|, |entries|)
    ensures ReadAll(before + EncodeAll(entries) + after, |before|, |entries|) == Kept(entries)
  {
    hide EncodeAll, Readable, ReadAll, Kept, Cut;
    StreamAt(before + EncodeAll(entries) + after, |before|, entries);
  }

  /** Nothing is lost exactly if every id fits thirty bits. */
  lemma StreamIsExact(ids: seq<Id>, entries: seq<Entry>)
    requires |entries| == |ids| && forall i :: 0 <= i < |ids| ==> entries[i].id == ids[i]
    ensures Kept(entries) == ids <==> forall i :: 0 <= i < |ids| ==> ids[i] < 0x4000_0000
  {
    forall i | 0 <= i < |ids|
      ensures Kept(entries)[i] == ids[i] <==> ids[i] < 0x4000_0000
    {
      RoomForSmall(ids[i]);
    }
  }

  lemma EncodeFirst(e: Entry, rest: seq<Entry>)
    ensures EncodeAll([e] + rest) == e.Bytes() + EncodeAll(rest)
  {
    hide Entry.Bytes;
    assert ([e] + rest)[1..] == rest;
  }

  lemma EncodeNone()
    ensures EncodeAll([]) == []
  {
  }

  lemma {:induction false} EncodeAllConcat(a: seq<Entry>, b: seq<Entry>)
    ensures EncodeAll(a + b) == EncodeAll(a) + EncodeAll(b)
  {
    hide Entry.Bytes, EncodeAll;
    if a == [] {
      EncodeNone();
      assert a + b == b;
    } else {
      EncodeAllConcat(a[1..], b);
      EncodeFirst(a[0], a[1..]);
      EncodeFirst(a[0], a[1..] + b);
      assert a == [a[0]] + a[1..] && a + b == [a[0]] + (a[1..] + b);
    }
  }

  /** The buffer with `bytes` written at `at`. */
  function Splice(data: seq<Byte>, at: nat, bytes: seq<Byte>): (r: seq<Byte>)
    requires at + |bytes| <= |data|
    ensures |r| == |data|
  {
    data[..at] + bytes + data[at + |bytes|..]
  }

  /** Filling a slot moves no other entry: all of them read as before and the slot reads as the
   *  new id. */
  lemma SlotFills(before: seq<Entry>, was: Id, id: Id, rest: seq<Entry>, after: seq<Byte>)
    ensures |EncodeAll(before + [Entry(was, true)] + rest)| == |EncodeAll(before + [Entry(id, true)] + rest)|
    ensures
      var at := |EncodeAll(before)|;
      var data := EncodeAll(before + [Entry(was, true)] + rest) + after;
      at + 4 <= |data| && Splice(data, at, EncodeSlot(id)) == EncodeAll(before + [Entry(id, true)] + rest) + after
  {
    hide EncodeSlot, EncodeAll, Splice;
    SlotBetween(before, was, rest);
    SlotBetween(before, id, rest);
    SpliceMiddle(EncodeAll(before), EncodeSlot(was), EncodeSlot(id), EncodeAll(rest) + after);
    assert EncodeAll(before) + EncodeSlot(was) + (EncodeAll(rest) + after)
        == EncodeAll(before) + EncodeSlot(was) + EncodeAll(rest) + after;
    assert EncodeAll(before) + EncodeSlot(id) + (EncodeAll(rest) + after)
        == EncodeAll(before) + EncodeSlot(id) + EncodeAll(rest) + after;
  }

  lemma SlotBetween(before: seq<Entry>, id: Id, rest: seq<Entry>)
    ensures EncodeAll(before + [Entry(id, true)] + rest)
         == EncodeAll(before) + EncodeSlot(id) + EncodeAll(rest)
  {
    hide EncodeSlot, EncodeAll;
    EncodeAllConcat(before + [Entry(id, true)], rest);
    EncodeAllConcat(before, [Entry(id, true)]);
    SlotAlone(id);
  }

  lemma SpliceMiddle(before: seq<Byte>, was: seq<Byte>, bytes: seq<Byte>, after: seq<Byte>)
    requires |was| == |bytes|
    ensures Splice(before + was + after, |before|, bytes) == before + bytes + after
  {
  }

  lemma SlotAlone(id: Id)
    ensures EncodeAll([Entry(id, true)]) == EncodeSlot(id)
  {
    hide EncodeSlot, Encode;
    assert EncodeAll([Entry(id, true)]) == Entry(id, true).Bytes() + EncodeAll([]);
  }

  // ---------------------------------------------------------------------------
  // Buffers

  method Write(buf: array<Byte>, at: nat, id: Id) returns (size: nat)
    requires at + EncodedSize(id) <= buf.Length
    modifies buf
    ensures size == |Encode(id)|
    ensures buf[..] == Splice(old(buf[..]), at, Encode(id))
  {
    hide Low;
    size := EncodedSize(id);
    if size == 1 {
      buf[at] := Low(id);
    } else if size == 2 {
      buf[at] := Low(0x40 | (id >> 8));
      buf[at + 1] := Low(id);
    } else if size == 3 {
      buf[at] := Low(0x80 | (id >> 16));
      buf[at + 1] := Low(id >> 8);
      buf[at + 2] := Low(id);
    } else {
      WriteSlot(buf, at, id);
    }
  }

  method WriteSlot(buf: array<Byte>, at: nat, id: Id)
    requires at + 4 <= buf.Length
    modifies buf
    ensures buf[..] == Splice(old(buf[..]), at, EncodeSlot(id))
  {
    hide Low;
    buf[at] := Low(0xC0 | (id >> 24));
    buf[at + 1] := Low(id >> 16);
    buf[at + 2] := Low(id >> 8);
    buf[at + 3] := Low(id);
  }

  function Entries(ids: seq<Id>, slots: nat): (entries: seq<Entry>)
    ensures |entries| == |ids| + slots
  {
    Shorts(ids) + Slots(slots)
  }

  function Shorts(ids: seq<Id>): (entries: seq<Entry>)
    ensures |entries| == |ids|
  {
    seq(|ids|, i requires 0 <= i < |ids| => Entry(ids[i], false))
  }

  function Slots(slots: nat): (entries: seq<Entry>)
    ensures |entries| == slots
  {
    seq(slots, i => Entry(0, true))
  }

  lemma ShortsSnoc(ids: seq<Id>, i: nat)
    requires i < |ids|
    ensures EncodeAll(Shorts(ids[..i + 1])) == EncodeAll(Shorts(ids[..i])) + Encode(ids[i])
  {
    hide EncodeSlot, Encode;
    assert Shorts(ids[..i + 1]) == Shorts(ids[..i]) + [Entry(ids[i], false)];
    EncodeAllConcat(Shorts(ids[..i]), [Entry(ids[i], false)]);
    assert EncodeAll([Entry(ids[i], false)]) == Entry(ids[i], false).Bytes() + EncodeAll([]);
  }

  lemma NoShorts(ids: seq<Id>)
    ensures EncodeAll(Shorts(ids[..0])) == []
  {
  }

  lemma SlotsSnoc(s: nat)
    ensures EncodeAll(Slots(s + 1)) == EncodeAll(Slots(s)) + EncodeSlot(0)
  {
    hide EncodeSlot, Encode;
    assert Slots(s + 1) == Slots(s) + [Entry(0, true)];
    EncodeAllConcat(Slots(s), [Entry(0, true)]);
    SlotAlone(0);
  }

  lemma {:induction false} ShortsPrefix(ids: seq<Id>, i: nat)
    requires i <= |ids|
    ensures |EncodeAll(Shorts(ids[..i]))| <= |EncodeAll(Shorts(ids))|
    decreases |ids| - i
  {
    if i == |ids| {
      assert ids[..i] == ids;
    } else {
      ShortsSnoc(ids, i);
      ShortsPrefix(ids, i + 1);
    }
  }

  lemma {:induction false} SlotsSize(s: nat)
    ensures |EncodeAll(Slots(s))| == 4 * s
  {
    hide EncodeSlot, Encode;
    if s == 0 {
      assert Slots(0) == [];
    } else {
      SlotsSnoc(s - 1);
      SlotsSize(s - 1);
    }
  }

  /** The neighbour bytes of one vertex on a compressed page: the size is added up first, then
   *  the ids are written one after another, and the free slots behind them. */
  method PackNeighbors(ids: seq<Id>, slots: nat) returns (buf: array<Byte>)
    ensures fresh(buf) && buf[..] == EncodeAll(Entries(ids, slots))
  {
    hide EncodeSlot, Encode, EncodedSize, EncodeAll, Shorts, Slots;
    var size := SizeOf(ids);
    SlotsSize(slots);
    buf := new Byte[size + slots * 4];
    var written := WriteIds(buf, ids);
    ghost var shorts := EncodeAll(Shorts(ids));
    assert EncodeAll(Slots(0)) == [] by { SlotsSize(0); }
    var s := 0;
    while s < slots
      invariant 0 <= s <= slots && written == size + 4 * s
      invariant buf[..written] == shorts + EncodeAll(Slots(s))
    {
      ghost var was := buf[..];
      WriteSlot(buf, written, 0);
      SlotsSnoc(s);
      assert buf[..written + 4] == was[..written] + EncodeSlot(0);
      written := written + 4;
      s := s + 1;
    }
    EncodeAllConcat(Shorts(ids), Slots(slots));
    assert buf[..] == buf[..written];
  }

  method SizeOf(ids: seq<Id>) returns (size: nat)
    ensures size == |EncodeAll(Shorts(ids))|
  {
    hide EncodeSlot, Encode, EncodedSize, EncodeAll;
    size := 0;
    NoShorts(ids);
    for i := 0 to |ids|
      invariant size == |EncodeAll(Shorts(ids[..i]))|
    {
      ShortsSnoc(ids, i);
      size := size + EncodedSize(ids[i]);
    }
    assert ids[..|ids|] == ids;
  }

  method WriteIds(buf: array<Byte>, ids: seq<Id>) returns (written: nat)
    requires |EncodeAll(Shorts(ids))| <= buf.Length
    modifies buf
    ensures written == |EncodeAll(Shorts(ids))| && buf[..written] == EncodeAll(Shorts(ids))
  {
    hide EncodeSlot, Encode, EncodedSize, EncodeAll;
    written := 0;
    NoShorts(ids);
    for i := 0 to |ids|
      invariant written == |EncodeAll(Shorts(ids[..i]))| <= buf.Length
      invariant buf[..written] == EncodeAll(Shorts(ids[..i]))
    {
      ShortsSnoc(ids, i);
      ShortsPrefix(ids, i + 1);
      ghost var was := buf[..];
      var size := Write(buf, written, ids[i]);
      assert buf[..written + size] == was[..written] + Encode(ids[i]);
      written := written + size;
    }
    assert ids[..|ids|] == ids;
  }

  // ---------------------------------------------------------------------------
  // Reading lazily

  class NeighborIter {
    const data: seq<Byte>
    var ptr: nat
    var remaining: nat

    /** The bytes behind the pointer hold what is still to be read. */
    predicate Valid()
      reads this
    {
      Readable(data, ptr, remaining)
    }

    /** What the iterator is still going to yield. */
    function Ahead(): (ids: seq<Id>)
      reads this
      requires Valid()
      ensures |ids| == remaining
    {
      ReadAll(data, ptr, remaining)
    }

    constructor (data: seq<Byte>, at: nat, count: nat)
      requires Readable(data, at, count)
      ensures Valid() && Ahead() == ReadAll(data, at, count)
    {
      this.data := data;
      ptr := at;
      remaining := count;
    }

    method Next() returns (id: Id)
      requires Valid() && remaining > 0
      modifies this
      ensures Valid() && old(Ahead()) == [id] + Ahead()
    {
      hide Read, Width, EntryAt;
      var entry := ReadHere();
      id := entry.0;
      ptr := ptr + entry.1;
      remaining := remaining - 1;
    }

    /** The dereference: the head of what is ahead, with nothing consumed. */
    method ReadHere() returns (entry: (Id, nat))
      requires Valid() && remaining > 0
      ensures entry == Read(data, ptr) && entry.0 == Ahead()[0]
    {
      hide Read, Width;
      entry := Read(data, ptr);
    }

    method Advance()
      requires Valid() && remaining > 0
      modifies this
      ensures Valid() && Ahead() == old(Ahead())[1..]
    {
      hide Read, Width, EntryAt;
      var entry := ReadHere();
      ptr := ptr + entry.1;
      remaining := remaining - 1;
    }
  }

  /** A range loop over `count` entries of a buffer. */
  method Collect(data: seq<Byte>, at: nat, count: nat) returns (ids: seq<Id>)
    requires Readable(data, at, count)
    ensures ids == ReadAll(data, at, count)
  {
    hide Readable, ReadAll;
    var it := new NeighborIter(data, at, count);
    ids := [];
    while it.remaining > 0
      invariant it.Valid() && ids + it.Ahead() == ReadAll(data, at, count)
      decreases it.remaining
    {
      var id := it.Next();
      ids := ids + [id];
    }
  }

  /** A packed vertex reads back as its list if all ids fit, be it without its slots or with
   *  them. */
  lemma PackedReadsBack(ids: seq<Id>, slots: nat, before: seq<Byte>, after: seq<Byte>)
    requires forall i :: 0 <= i < |ids| ==> ids[i] < 0x4000_0000
    ensures
      var data := before + EncodeAll(Entries(ids, slots)) + after;
      && Readable(data, |before|, |ids|) && ReadAll(data, |before|, |ids|) == ids
      && Readable(data, |before|, |ids| + slots)
      && ReadAll(data, |before|, |ids| + slots) == ids + seq(slots, i => 0)
  {
    hide EncodeAll, Readable, ReadAll;
    var data := before + EncodeAll(Entries(ids, slots)) + after;
    EncodeAllConcat(Shorts(ids), Slots(slots));
    StreamReadsBack(before, Shorts(ids), EncodeAll(Slots(slots)) + after);
    assert before + EncodeAll(Shorts(ids)) + (EncodeAll(Slots(slots)) + after) == data;
    StreamIsExact(ids, Shorts(ids));
    StreamReadsBack(before, Entries(ids, slots), after);
    StreamIsExact(ids + seq(slots, i => 0), Entries(ids, slots));
  }

}
