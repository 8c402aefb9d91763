/** Stored neighbour lists of giant vertices (src/external.cc).
 *
 * A list is sorted, turned into differences, and written four differences at a time by a group
 * codec; up to three left over are written as base-128 varints.  The group codec is a library's, so
 * it is a parameter here, with the one property the source relies on: it is self-delimiting.
 */
module NeighborCodec {

  const BYTE := 256
  const WORD := 0x1_0000_0000
  const DEGREE_BYTES := 8

  type Byte = b: int | 0 <= b < BYTE
  type Word = w: int | 0 <= w < WORD

  // ---------------------------------------------------------------------------
  // The group codec

  datatype Group = Group(values: seq<Word>, bytes: nat) | Overrun

  datatype GroupCodec = GroupCodec(encode: (Word, Word, Word, Word) -> seq<Byte>, decode: seq<Byte> -> Group)

  /** Decoding gives back the four values and their length, whatever follows. */
  ghost predicate SelfDelimiting(codec: GroupCodec) {
    forall a, b, c, d, rest ::
      codec.decode(codec.encode(a, b, c, d) + rest) == Group([a, b, c, d], |codec.encode(a, b, c, d)|)
  }

  // ---------------------------------------------------------------------------
  // Differences

  /** The first value and then each value less its predecessor, on 32 bits. */
  function Deltas(ns: seq<Word>): (ds: seq<Word>)
    ensures |ds| == |ns|
  {
    if ns == [] then []
    else if |ns| == 1 then ns
    else Deltas(ns[..|ns| - 1]) + [(ns[|ns| - 1] - ns[|ns| - 2]) % WORD]
  }

  /** The running sums, on 32 bits. */
  function Sums(ds: seq<Word>): (ns: seq<Word>)
    ensures |ns| == |ds|
  {
    if |ds| <= 1 then ds
    else
      var init := Sums(ds[..|ds| - 1]);
      init + [(init[|init| - 1] + ds[|ds| - 1]) % WORD]
  }

  /** The differences one by one, and the sums one by one. */
  lemma {:induction false} DeltaAt(ns: seq<Word>, i: nat)
    requires i < |ns|
    ensures i == 0 ==> Deltas(ns)[i] == ns[0]
    ensures i > 0 ==> Deltas(ns)[i] == (ns[i] as int - ns[i - 1] as int) % 0x1_0000_0000
  {
    if i < |ns| - 1 {
      DeltaAt(ns[..|ns| - 1], i);
    }
  }

  lemma {:induction false} SumAt(ds: seq<Word>, i: nat)
    requires i < |ds|
    ensures i == 0 ==> Sums(ds)[i] == ds[0]
    ensures i > 0 ==> Sums(ds)[i] == (Sums(ds)[i - 1] as int + ds[i] as int) % 0x1_0000_0000
  {
    if i < |ds| - 1 {
      SumAt(ds[..|ds| - 1], i);
    }
  }

  /** Summing undoes differencing on every list, sorted or not: the wrap-arounds cancel. */
  lemma {:induction false} SumsOfDeltas(ns: seq<Word>)
    ensures Sums(Deltas(ns)) == ns
  {
    if |ns| > 1 {
      var init, last := ns[..|ns| - 1], ns[|ns| - 1];
      SumsOfDeltas(init);
      assert Deltas(ns)[..|ns| - 1] == Deltas(init);
      assert init[|init| - 1] == ns[|ns| - 2];
    }
  }

  // ---------------------------------------------------------------------------
  // Varints

  function Varint(w: nat): (bytes: seq<Byte>)
    ensures |bytes| >= 1
  {
    if w >= 128 then [w % 128 + 128] + Varint(w / 128) else [w]
  }

  datatype Parsed = Parsed(value: nat, bytes: nat) | Cut

  /** A varint of at most `room` bytes at the head of `data`. */
  function ReadVarint(data: seq<Byte>, room: nat): (p: Parsed)
    ensures p.Parsed? ==> 1 <= p.bytes <= |data|
    decreases room
  {
    if room == 0 || data == [] then Cut
    else if data[0] < 128 then Parsed(data[0], 1)
    else
      match ReadVarint(data[1..], room - 1)
      case Cut => Cut
      case Parsed(v, n) => Parsed(data[0] - 128 + 128 * v, n + 1)
  }

  function Pow128(k: nat): (p: nat)
    ensures p >= 1
  {
    if k == 0 then 1 else 128 * Pow128(k - 1)
  }

  /** Dividing in two steps. */
  lemma DivideTwice(w: nat, base: nat, p: nat, m: nat)
    requires (base == 128 || base == 256) && p >= 1 && m == base * p
    ensures w / m == w / base / p
  {
    var q, r := Split(w / base, p);
    Combined(w, base, p, m, w / base, w % base, q, r);
    QuotientIs(w, m, q, base * r + w % base);
  }

  lemma Split(n: nat, p: nat) returns (q: nat, r: nat)
    requires p >= 1
    ensures q == n / p && r < p && n == p * q + r
  {
    q, r := n / p, n % p;
  }

  lemma Combined(w: nat, base: nat, p: nat, m: nat, d: nat, s: nat, q: nat, r: nat)
    requires (base == 128 || base == 256) && m == base * p
    requires w == base * d + s && s < base && d == p * q + r && r < p
    ensures w == m * q + (base * r + s) && base * r + s < m
  {
    assert m * q == base * (p * q);
  }

  lemma Multiples(m: nat, k: int)
    ensures k >= 1 ==> m * k >= m
    ensures k <= -1 ==> m * k + m <= 0
  {
  }

  lemma QuotientIs(w: nat, m: nat, q: nat, rest: nat)
    requires m >= 1 && w == m * q + rest && rest < m
    ensures w / m == q
  {
    var d, e := Split(w, m);
    var k: int := d - q;
    assert m * k + m * q == m * d;
    Multiples(m, k);
  }

  /** Byte i holds the i-th group of seven bits, low groups first, and all bytes but the last
   *  have the high bit set; no byte is spent on leading zeros. */
  lemma {:induction false} VarintFormat(w: nat, i: nat)
    requires i < |Varint(w)|
    ensures Varint(w)[i] == w / Pow128(i) % 128 + if i + 1 < |Varint(w)| then 128 else 0
    ensures w < Pow128(|Varint(w)|) && (|Varint(w)| > 1 ==> w >= Pow128(|Varint(w)| - 1))
    decreases w
  {
    if w >= 128 {
      var rest := Varint(w / 128);
      VarintFormat(w / 128, if i > 0 then i - 1 else 0);
      if i > 0 {
        assert Varint(w)[i] == rest[i - 1];
        DivideTwice(w, 128, Pow128(i - 1), Pow128(i));
      }
      if |rest| == 1 {
        assert Pow128(1) == 128 * Pow128(0);
      }
    }
  }

  /** What was written is read, whatever follows, if it fits the room. */
  lemma {:induction false} VarintReadsBack(w: nat, rest: seq<Byte>, room: nat)
    requires room >= 1 && w < Pow128(room)
    ensures ReadVarint(Varint(w) + rest, room) == Parsed(w, |Varint(w)|)
    decreases w
  {
    if w >= 128 {
      assert Pow128(1) == 128;
      VarintReadsBack(w / 128, rest, room - 1);
      assert (Varint(w) + rest)[1..] == Varint(w / 128) + rest;
    }
  }

  /** Five bytes are enough for a word. */
  lemma WordFitsFive(w: Word)
    ensures w < Pow128(5)
  {
    assert Pow128(5) == 128 * 128 * 128 * 128 * 128;
  }

  lemma VarintMore(bytes: seq<Byte>, value: nat)
    requires value >= 128
    ensures bytes + Varint(value) == bytes + [value % 128 + 128] + Varint(value / 128)
  {
  }

  lemma LastByte(value: nat)
    requires value < 128
    ensures Varint(value) == [value % 128]
  {
  }

  /** Encoding one leftover value. */
  method WriteVarint(w: Word) returns (bytes: seq<Byte>)
    ensures bytes == Varint(w)
  {
    hide Varint;
    bytes := [];
    var value := w;
    while value >= 128
      invariant 0 <= value < WORD && Varint(w) == bytes + Varint(value)
      decreases value
    {
      VarintMore(bytes, value);
      bytes := bytes + [value % 128 + 128];
      value := value / 128;
    }
    LastByte(value);
    bytes := bytes + [value % 128];
  }

  /** What the reader has after `k` continuation bytes worth `acc`, with `p` still to come. */
  function Joined(acc: nat, k: nat, p: Parsed): Parsed {
    if p.Cut? then Cut else Parsed(acc + Pow128(k) * p.value, k + p.bytes)
  }

  lemma JoinedStep(acc: nat, k: nat, data: seq<Byte>, room: nat)
    requires room >= 1 && data != [] && data[0] >= 128
    ensures Joined(acc, k, ReadVarint(data, room))
         == Joined(acc + Pow128(k) * (data[0] - 128), k + 1, ReadVarint(data[1..], room - 1))
  {
    var p := ReadVarint(data[1..], room - 1);
    if p.Parsed? {
      Distribute(Pow128(k), data[0] - 128, p.value);
    }
  }

  lemma Distribute(p: nat, a: nat, v: nat)
    ensures p * (a + 128 * v) == p * a + (128 * p) * v
  {
  }

  lemma ScaleStep(scale: nat, acc: nat, low: nat)
    requires acc < scale && low < 128
    ensures acc + scale * low < 128 * scale
  {
    assert scale * low <= scale * 127;
  }

  /** From `at` to `next` the loop has seen continuation bytes worth `acc`. */
  ghost predicate Midway(data: seq<Byte>, at: nat, next: nat, acc: int, scale: int) {
    && at <= next < |data| && next - at <= 4
    && 0 <= acc < scale == Pow128(next - at)
    && ReadVarint(data[next..], 5 - (next - at)).Parsed?
    && Joined(acc, next - at, ReadVarint(data[next..], 5 - (next - at))) == ReadVarint(data[at..], 5)
  }

  lemma MidwayStep(data: seq<Byte>, at: nat, next: nat, acc: int, scale: int)
    requires Midway(data, at, next, acc, scale) && data[next] >= 128
    ensures Midway(data, at, next + 1, acc + scale * (data[next] - 128), 128 * scale)
  {
    hide Joined;
    var room := 5 - (next - at);
    JoinedStep(acc, next - at, data[next..], room);
    assert data[next..][1..] == data[next + 1..];
    ScaleStep(scale, acc, data[next] - 128);
  }

  lemma MidwayStart(data: seq<Byte>, at: nat)
    requires at <= |data| && ReadVarint(data[at..], 5).Parsed?
    ensures Midway(data, at, at, 0, 1)
  {
  }

  lemma MidwayEnd(data: seq<Byte>, at: nat, next: nat, acc: int, scale: int)
    requires Midway(data, at, next, acc, scale) && data[next] < 128
    ensures ReadVarint(data[at..], 5).Parsed?
    ensures ReadVarint(data[at..], 5).value == acc + scale * data[next]
    ensures ReadVarint(data[at..], 5).bytes == next + 1 - at
  {
  }

  /** Decoding one leftover value; a fifth byte loses its high bits to the 32-bit shift. */
  method DecodeVarint(data: seq<Byte>, at: nat) returns (value: Word, next: nat)
    requires at <= |data| && ReadVarint(data[at..], 5).Parsed?
    ensures var p := ReadVarint(data[at..], 5);
            value == p.value % WORD && next == at + p.bytes <= |data|
  {
    hide ReadVarint;
    var acc, scale := 0, 1;
    next := at;
    MidwayStart(data, at);
    while data[next] >= 128
      invariant Midway(data, at, next, acc, scale)
      decreases |data| - next
    {
      MidwayStep(data, at, next, acc, scale);
      acc, scale := acc + scale * (data[next] - 128), 128 * scale;
      next := next + 1;
    }
    MidwayEnd(data, at, next, acc, scale);
    value := (acc + scale * data[next]) % WORD;
    next := next + 1;
  }

  // ---------------------------------------------------------------------------
  // The payload: groups of four, then varints

  function Tail(ds: seq<Word>): seq<Byte> {
    if ds == [] then [] else Varint(ds[0]) + Tail(ds[1..])
  }

  function Payload(codec: GroupCodec, ds: seq<Word>): seq<Byte> {
    if |ds| >= 4 then codec.encode(ds[0], ds[1], ds[2], ds[3]) + Payload(codec, ds[4..]) else Tail(ds)
  }

  /** The payload group by group: four values go to the group codec, up to three left over at
   *  the end become varints. */
  lemma {:induction false} PayloadFormat(codec: GroupCodec, groups: seq<Word>, left: seq<Word>)
    requires |groups| % 4 == 0 && |left| < 4
    ensures Payload(codec, groups + left) == Payload(codec, groups) + Payload(codec, left)
    ensures |groups| == 4 ==> Payload(codec, groups) == codec.encode(groups[0], groups[1], groups[2], groups[3])
    ensures |left| == 0 ==> Payload(codec, left) == []
    ensures |left| == 1 ==> Payload(codec, left) == Varint(left[0])
    ensures |left| == 2 ==> Payload(codec, left) == Varint(left[0]) + Varint(left[1])
    ensures |left| == 3 ==> Payload(codec, left) == Varint(left[0]) + Varint(left[1]) + Varint(left[2])
    decreases |groups|
  {
    hide Varint;
    TailFormat(left);
    if groups == [] {
      assert groups + left == left;
      TailFormat([]);
    } else {
      assert (groups + left)[4..] == groups[4..] + left;
      PayloadFormat(codec, groups[4..], left);
      if |groups| == 4 {
        TailFormat([]);
        assert groups[4..] == [];
      }
    }
  }

  lemma TailFormat(left: seq<Word>)
    requires |left| < 4
    ensures |left| == 0 ==> Tail(left) == []
    ensures |left| == 1 ==> Tail(left) == Varint(left[0])
    ensures |left| == 2 ==> Tail(left) == Varint(left[0]) + Varint(left[1])
    ensures |left| == 3 ==> Tail(left) == Varint(left[0]) + Varint(left[1]) + Varint(left[2])
  {
    hide Varint, Tail;
    if |left| == 0 {
      NoTail(left);
    } else if |left| == 1 {
      TailOne(left);
    } else if |left| == 2 {
      TailTwo(left);
    } else {
      TailThree(left);
    }
  }

  lemma NoTail(left: seq<Word>)
    requires left == []
    ensures Tail(left) == []
  {
  }

  lemma TailMore(left: seq<Word>)
    requires left != []
    ensures Tail(left) == Varint(left[0]) + Tail(left[1..])
  {
  }

  lemma TailOne(left: seq<Word>)
    requires |left| == 1
    ensures Tail(left) == Varint(left[0])
  {
    hide Varint, Tail;
    TailMore(left);
    NoTail(left[1..]);
  }

  lemma TailTwo(left: seq<Word>)
    requires |left| == 2
    ensures Tail(left) == Varint(left[0]) + Varint(left[1])
  {
    hide Varint, Tail;
    TailMore(left);
    TailOne(left[1..]);
  }

  lemma TailThree(left: seq<Word>)
    requires |left| == 3
    ensures Tail(left) == Varint(left[0]) + Varint(left[1]) + Varint(left[2])
  {
    hide Varint, Tail;
    TailMore(left);
    TailTwo(left[1..]);
  }

  datatype Values = Values(values: seq<Word>) | PastEnd

  function Before(front: seq<Word>, vs: Values): Values {
    if vs.PastEnd? then PastEnd else Values(front + vs.values)
  }

  function ReadTail(data: seq<Byte>, count: nat): (vs: Values)
    ensures vs.Values? ==> |vs.values| == count
  {
    if count == 0 then Values([])
    else
      match ReadVarint(data, 5)
      case Cut => PastEnd
      case Parsed(v, n) => Before([v % WORD], ReadTail(data[n..], count - 1))
  }

  function ReadPayload(codec: GroupCodec, data: seq<Byte>, count: nat): (vs: Values)
    ensures vs.Values? ==> |vs.values| == count
    decreases count
  {
    if count < 4 then ReadTail(data, count)
    else
      match codec.decode(data)
      case Overrun => PastEnd
      case Group(four, n) =>
        if |four| != 4 || n > |data| then PastEnd else Before(four, ReadPayload(codec, data[n..], count - 4))
  }

  lemma ReadNone(data: seq<Byte>)
    ensures ReadTail(data, 0) == Values([])
  {
  }

  lemma TailStep(first: seq<Byte>, w: Word, data: seq<Byte>, count: nat)
    requires ReadVarint(first + data, 5) == Parsed(w, |first|)
    ensures ReadTail(first + data, count + 1) == Before([w], ReadTail(data, count))
  {
    hide ReadVarint;
    assert (first + data)[|first|..] == data;
  }

  lemma {:induction false} TailReadsBack(ds: seq<Word>, rest: seq<Byte>)
    ensures ReadTail(Tail(ds) + rest, |ds|) == Values(ds)
  {
    hide ReadVarint, ReadTail, Varint, Pow128;
    if ds == [] {
      ReadNone(Tail(ds) + rest);
    } else {
      var first, behind := Varint(ds[0]), Tail(ds[1..]) + rest;
      WordFitsFive(ds[0]);
      VarintReadsBack(ds[0], behind, 5);
      TailStep(first, ds[0], behind, |ds| - 1);
      assert Tail(ds) + rest == first + behind;
      TailReadsBack(ds[1..], rest);
      assert ds == [ds[0]] + ds[1..];
    }
  }

  lemma {:induction false} PayloadReadsBack(codec: GroupCodec, ds: seq<Word>, rest: seq<Byte>)
    requires SelfDelimiting(codec)
    ensures ReadPayload(codec, Payload(codec, ds) + rest, |ds|) == Values(ds)
    decreases |ds|
  {
    hide ReadTail, Tail;
    if |ds| < 4 {
      TailReadsBack(ds, rest);
    } else {
      var first := codec.encode(ds[0], ds[1], ds[2], ds[3]);
      var behind := Payload(codec, ds[4..]) + rest;
      assert Payload(codec, ds) + rest == first + behind;
      assert codec.decode(first + behind) == Group([ds[0], ds[1], ds[2], ds[3]], |first|);
      PayloadReadsBack(codec, ds[4..], rest);
      assert (first + behind)[|first|..] == behind;
      assert ds == [ds[0], ds[1], ds[2], ds[3]] + ds[4..];
    }
  }

  /** compress_neighbors. */
  method Compress(codec: GroupCodec, ns: seq<Word>) returns (out: seq<Byte>)
    ensures out == Payload(codec, Deltas(ns))
  {
    hide Varint;
    if ns == [] {
      assert Payload(codec, []) == [] by { assert Tail([]) == []; }
      return [];
    }
    var deltas := Difference(ns);
    out := [];
    var pos := 0;
    while pos + 4 <= |deltas|
      invariant 0 <= pos <= |deltas|
      invariant Payload(codec, deltas) == out + Payload(codec, deltas[pos..])
    {
      var end := codec.encode(deltas[pos], deltas[pos + 1], deltas[pos + 2], deltas[pos + 3]);
      assert deltas[pos..][4..] == deltas[pos + 4..];
      out := out + end;
      pos := pos + 4;
    }
    out := WriteTail(deltas, pos, out);
  }

  /** The differences of a non-empty list, front to back. */
  method Difference(ns: seq<Word>) returns (deltas: seq<Word>)
    requires ns != []
    ensures deltas == Deltas(ns)
  {
    deltas := [ns[0]];
    assert ns[..1] == [ns[0]];
    for i := 1 to |ns|
      invariant deltas == Deltas(ns[..i])
    {
      assert ns[..i + 1][..i] == ns[..i];
      deltas := deltas + [(ns[i] - ns[i - 1]) % WORD];
    }
    assert ns[..|ns|] == ns;
  }

  /** The values left over after the groups. */
  method WriteTail(deltas: seq<Word>, start: nat, prefix: seq<Byte>) returns (out: seq<Byte>)
    requires start <= |deltas|
    ensures out == prefix + Tail(deltas[start..])
  {
    hide Varint;
    out := prefix;
    var pos := start;
    while pos < |deltas|
      invariant start <= pos <= |deltas|
      invariant out + Tail(deltas[pos..]) == prefix + Tail(deltas[start..])
    {
      var bytes := WriteVarint(deltas[pos]);
      assert deltas[pos..][1..] == deltas[pos + 1..];
      assert Tail(deltas[pos..]) == bytes + Tail(deltas[pos + 1..]);
      out := out + bytes;
      pos := pos + 1;
    }
    assert Tail(deltas[pos..]) == [];
  }

  /** decompress_neighbors: the data must hold `degree` values. */
  method Decompress(codec: GroupCodec, data: seq<Byte>, degree: nat) returns (ns: seq<Word>)
    requires ReadPayload(codec, data, degree).Values?
    ensures ns == Sums(ReadPayload(codec, data, degree).values)
  {
    hide Sums, ReadTail;
    if degree == 0 {
      assert ReadPayload(codec, data, 0).values == [];
      ns := Accumulate([]);
      return;
    }
    var deltas, at, decoded := [], 0, 0;
    assert data[at..] == data;
    while decoded + 4 <= degree
      invariant 0 <= at <= |data| && 0 <= decoded <= degree
      invariant Before(deltas, ReadPayload(codec, data[at..], degree - decoded)) == ReadPayload(codec, data, degree)
    {
      var g := codec.decode(data[at..]);
      assert data[at..][g.bytes..] == data[at + g.bytes..];
      deltas := deltas + g.values;
      at := at + g.bytes;
      decoded := decoded + 4;
    }
    deltas := DecodeTail(data, at, deltas, degree - decoded);
    ns := Accumulate(deltas);
  }

  method DecodeTail(data: seq<Byte>, start: nat, front: seq<Word>, count: nat) returns (deltas: seq<Word>)
    requires start <= |data| && ReadTail(data[start..], count).Values?
    ensures Values(deltas) == Before(front, ReadTail(data[start..], count))
  {
    hide ReadVarint;
    deltas := front;
    var at, decoded := start, 0;
    while decoded < count
      invariant 0 <= at <= |data| && 0 <= decoded <= count
      invariant Before(deltas, ReadTail(data[at..], count - decoded)) == Before(front, ReadTail(data[start..], count))
    {
      var value, next := DecodeVarint(data, at);
      assert data[at..][next - at..] == data[next..];
      deltas := deltas + [value];
      at := next;
      decoded := decoded + 1;
    }
  }

  /** Undoing the differences, front to back. */
  method Accumulate(deltas: seq<Word>) returns (ns: seq<Word>)
    ensures ns == Sums(deltas)
  {
    if deltas == [] {
      return [];
    }
    var current := deltas[0];
    ns := [current];
    assert deltas[..1] == [deltas[0]];
    for i := 1 to |deltas|
      invariant ns == Sums(deltas[..i]) && current == ns[i - 1]
    {
      assert deltas[..i + 1][..i] == deltas[..i];
      current := (current + deltas[i]) % WORD;
      ns := ns + [current];
    }
    assert deltas[..|deltas|] == deltas;
  }

  // ---------------------------------------------------------------------------
  // Sorting

  predicate IsSorted(ns: seq<Word>) {
    forall i, j :: 0 <= i < j < |ns| ==> ns[i] <= ns[j]
  }

  function Place(x: Word, ns: seq<Word>): seq<Word> {
    if ns == [] || x <= ns[0] then [x] + ns else [ns[0]] + Place(x, ns[1..])
  }

  /** std::sort on integers, as a function. */
  function Sort(ns: seq<Word>): seq<Word> {
    if ns == [] then [] else Place(ns[0], Sort(ns[1..]))
  }

  lemma {:induction false} PlaceAdds(x: Word, ns: seq<Word>)
    ensures multiset(Place(x, ns)) == multiset(ns) + multiset{x}
  {
    if ns != [] && x > ns[0] {
      PlaceAdds(x, ns[1..]);
      assert ns == [ns[0]] + ns[1..];
    }
  }

  lemma {:induction false} PlaceKeepsOrder(x: Word, ns: seq<Word>)
    requires IsSorted(ns)
    ensures IsSorted(Place(x, ns))
  {
    if ns != [] && x > ns[0] {
      PlaceKeepsOrder(x, ns[1..]);
      PlaceAdds(x, ns[1..]);
      LowestFirst(ns[0], x, ns[1..], Place(x, ns[1..]));
    }
  }

  lemma LowestFirst(low: Word, x: Word, ns: seq<Word>, placed: seq<Word>)
    requires low <= x && (forall y :: y in ns ==> low <= y)
    requires IsSorted(placed) && multiset(placed) == multiset(ns) + multiset{x}
    ensures IsSorted([low] + placed)
  {
    forall i | 0 <= i < |placed|
      ensures low <= placed[i]
    {
      var y := placed[i];
      assert (multiset(ns) + multiset{x})[y] > 0;
      assert y in multiset(ns) || y == x;
      assert y in ns || y == x;
    }
  }

  lemma {:induction false} SortSorts(ns: seq<Word>)
    ensures IsSorted(Sort(ns)) && multiset(Sort(ns)) == multiset(ns)
  {
    if ns != [] {
      SortSorts(ns[1..]);
      PlaceAdds(ns[0], Sort(ns[1..]));
      PlaceKeepsOrder(ns[0], Sort(ns[1..]));
      assert ns == [ns[0]] + ns[1..];
    }
  }

  lemma SortedAscends(ns: seq<Word>)
    ensures |Sort(ns)| == |ns| && forall i, j :: 0 <= i < j < |ns| ==> Sort(ns)[i] <= Sort(ns)[j]
  {
    hide Sort;
    SortSorts(ns);
    assert |multiset(Sort(ns))| == |multiset(ns)|;
  }

  lemma LeastIsFirst(ns: seq<Word>, y: Word)
    requires IsSorted(ns) && y in multiset(ns)
    ensures ns != [] && ns[0] <= y
  {
    assert y in ns;
  }

  lemma WithoutFirst(ns: seq<Word>)
    requires ns != []
    ensures ns[0] in multiset(ns) && multiset(ns[1..]) == multiset(ns) - multiset{ns[0]}
    ensures IsSorted(ns) ==> IsSorted(ns[1..])
  {
    assert ns == [ns[0]] + ns[1..];
  }

  /** There is only one sorted arrangement, so the sorting algorithm does not matter. */
  lemma {:induction false} SortedIsUnique(a: seq<Word>, b: seq<Word>)
    requires IsSorted(a) && IsSorted(b) && multiset(a) == multiset(b)
    ensures a == b
    decreases |a|
  {
    hide IsSorted;
    assert |multiset(a)| == |a| && |multiset(b)| == |b|;
    if a != [] {
      WithoutFirst(a);
      WithoutFirst(b);
      LeastIsFirst(a, b[0]);
      LeastIsFirst(b, a[0]);
      SortedIsUnique(a[1..], b[1..]);
      assert a == [a[0]] + a[1..] && b == [b[0]] + b[1..];
    }
  }

  // ---------------------------------------------------------------------------
  // Fixed-width little-endian numbers

  function Pow256(k: nat): (p: nat)
    ensures p >= 1
  {
    if k == 0 then 1 else 256 * Pow256(k - 1)
  }

  function Little(n: nat, k: nat): (bytes: seq<Byte>)
    ensures |bytes| == k
  {
    if k == 0 then [] else [n % BYTE] + Little(n / BYTE, k - 1)
  }

  function FromLittle(bytes: seq<Byte>): (n: nat) {
    if bytes == [] then 0 else bytes[0] + BYTE * FromLittle(bytes[1..])
  }

  /** Byte i is the i-th base-256 digit, low digits first. */
  lemma {:induction false} LittleFormat(n: nat, k: nat, i: nat)
    requires i < k
    ensures Little(n, k)[i] == n / Pow256(i) % 256
    decreases k
  {
    if i > 0 {
      LittleFormat(n / BYTE, k - 1, i - 1);
      DivideTwice(n, 256, Pow256(i - 1), Pow256(i));
    }
  }

  function FourBytes(a: int, b: int, c: int, d: int): int {
    a + 256 * b + 65536 * c + 16777216 * d
  }

  /** Four bytes as a number. */
  lemma FourLittle(bytes: seq<Byte>)
    requires |bytes| == 4
    ensures FromLittle(bytes) == FourBytes(bytes[0], bytes[1], bytes[2], bytes[3])
  {
    var behind := bytes[1..];
    assert behind[1..] == bytes[2..] && bytes[2..][1..] == bytes[3..] && bytes[3..][1..] == [];
    assert FromLittle(bytes[3..]) == bytes[3];
    assert FromLittle(bytes[2..]) == bytes[2] as int + 256 * bytes[3] as int;
    assert FromLittle(behind) == bytes[1] as int + 256 * bytes[2] as int + 65536 * bytes[3] as int;
  }

  lemma {:induction false} LittleReadsBack(n: nat, k: nat)
    requires n < Pow256(k)
    ensures FromLittle(Little(n, k)) == n
    decreases k
  {
    if k > 0 {
      LittleReadsBack(n / BYTE, k - 1);
      assert Little(n, k)[1..] == Little(n / BYTE, k - 1);
    }
  }

  // ---------------------------------------------------------------------------
  // Stored values

  datatype Error = MissingDegree | BadFlag | Overread

  datatype Result = Ok(ns: seq<Word>) | Err(error: Error)

  /** What serialize_neighbors stores: nothing, or a flag, the degree and the payload. */
  function Image(codec: GroupCodec, ns: seq<Word>): seq<Byte> {
    if ns == [] then [] else [1] + Little(|ns|, DEGREE_BYTES) + Payload(codec, Deltas(Sort(ns)))
  }

  method Serialize(codec: GroupCodec, ns: seq<Word>) returns (out: seq<Byte>)
    ensures out == Image(codec, ns)
    ensures out == [] <==> ns == []
    ensures ns != [] ==> |out| >= 9 && out[0] == 1 && forall i: nat :: i < 8 ==> out[1 + i] == |ns| / Pow256(i) % 256
  {
    if ns == [] {
      return [];
    }
    var sorted := Sort(ns);
    SortSorts(ns);
    assert |multiset(sorted)| == |multiset(ns)|;
    var compressed := Compress(codec, sorted);
    out := [1] + Little(|sorted|, DEGREE_BYTES) + compressed;
    forall i: nat | i < 8 ensures out[1 + i] == |ns| / Pow256(i) % 256 {
      LittleFormat(|sorted|, DEGREE_BYTES, i);
    }
  }

  /** `count` four-byte words as they lie in memory. */
  function RawWords(data: seq<Byte>, count: nat): (ns: seq<Word>)
    requires 4 * count <= |data|
    ensures |ns| == count
  {
    if count == 0 then [] else [FromLittle(data[..4]) % WORD] + RawWords(data[4..], count - 1)
  }

  /** Word k is made of bytes 4k to 4k + 3, low byte first. */
  lemma {:induction false} RawWordAt(data: seq<Byte>, count: nat, k: nat)
    requires k < count && 4 * count <= |data|
    ensures RawWords(data, count)[k] == FourBytes(data[4 * k], data[4 * k + 1], data[4 * k + 2], data[4 * k + 3])
    decreases count
  {
    if k > 0 {
      RawWordAt(data[4..], count - 1, k - 1);
    } else {
      FourLittle(data[..4]);
    }
  }

  function Raw(ns: seq<Word>): (bytes: seq<Byte>)
    ensures |bytes| == 4 * |ns|
  {
    if ns == [] then [] else Little(ns[0], 4) + Raw(ns[1..])
  }

  /** What deserialize_neighbors makes of any bytes; `Overread` stands for a payload that ends early. */
  function Parse(codec: GroupCodec, data: seq<Byte>): Result {
    if data == [] then Ok([])
    else if data[0] == 1 then
      if |data| < 1 + DEGREE_BYTES then Err(MissingDegree)
      else
        var degree := FromLittle(data[1..1 + DEGREE_BYTES]);
        match ReadPayload(codec, data[1 + DEGREE_BYTES..], degree)
        case PastEnd => Err(Overread)
        case Values(ds) => Ok(Sums(ds))
    else if data[0] == 0 then Ok(RawWords(data[1..], (|data| - 1) / 4))
    else Err(BadFlag)
  }

  /** The words behind the flag, four bytes each. */
  ghost predicate WordsOf(data: seq<Byte>, ns: seq<Word>) {
    && 4 * |ns| < |data|
    && (forall k: nat :: k < |ns| ==>
          ns[k] == FourBytes(data[4 * k + 1], data[4 * k + 2], data[4 * k + 3], data[4 * k + 4]))
  }

  lemma RawAreWordsOf(data: seq<Byte>)
    requires data != []
    ensures WordsOf(data, RawWords(data[1..], (|data| - 1) / 4))
  {
    hide RawWords, FourBytes;
    var rest, count := data[1..], (|data| - 1) / 4;
    forall k: nat | k < count
      ensures RawWords(rest, count)[k] == FourBytes(data[4 * k + 1], data[4 * k + 2], data[4 * k + 3], data[4 * k + 4])
    {
      RawWordAt(rest, count, k);
    }
  }

  method Deserialize(codec: GroupCodec, data: seq<Byte>) returns (r: Result)
    requires Parse(codec, data) != Err(Overread)
    ensures r == Parse(codec, data)
    ensures r == Err(MissingDegree) <==> data != [] && data[0] == 1 && |data| < 9
    ensures r == Err(BadFlag) <==> data != [] && data[0] != 0 && data[0] != 1
    ensures data == [] ==> r == Ok([])
    ensures data != [] && data[0] == 0 ==> r.Ok? && |r.ns| == (|data| - 1) / 4
    ensures data != [] && data[0] == 0 ==> WordsOf(data, r.ns)
  {
    hide ReadPayload, RawWords, FromLittle, WordsOf;
    if data == [] {
      return Ok([]);
    }
    var flag := data[0];
    if flag == 1 {
      if |data| < 1 + DEGREE_BYTES {
        return Err(MissingDegree);
      }
      var degree := FromLittle(data[1..1 + DEGREE_BYTES]);
      var ns := Decompress(codec, data[1 + DEGREE_BYTES..], degree);
      return Ok(ns);
    } else if flag == 0 {
      var count := (|data| - 1) / 4;
      RawAreWordsOf(data);
      return Ok(RawWords(data[1..], count));
    } else {
      return Err(BadFlag);
    }
  }

  /** Storing and loading a list gives its sorted arrangement, duplicates kept. */
  lemma RoundTrip(codec: GroupCodec, ns: seq<Word>)
    requires SelfDelimiting(codec) && |ns| < Pow256(DEGREE_BYTES)
    ensures Parse(codec, Image(codec, ns)) == Ok(Sort(ns))
    ensures IsSorted(Sort(ns)) && multiset(Sort(ns)) == multiset(ns)
    ensures forall i, j :: 0 <= i < j < |ns| ==> |Sort(ns)| == |ns| && Sort(ns)[i] <= Sort(ns)[j]
  {
    SortedAscends(ns);
    hide ReadPayload, Payload, Little, FromLittle, Sums, Deltas, IsSorted, Pow256, SelfDelimiting, RawWords;
    SortSorts(ns);
    if ns == [] {
      assert Sort(ns) == [];
    } else {
      assert |multiset(Sort(ns))| == |multiset(ns)|;
      var degree, payload := Little(|ns|, DEGREE_BYTES), Payload(codec, Deltas(Sort(ns)));
      var image := [1] + degree + payload;
      assert image[1..1 + DEGREE_BYTES] == degree && image[1 + DEGREE_BYTES..] == payload;
      LittleReadsBack(|ns|, DEGREE_BYTES);
      PayloadReadsBack(codec, Deltas(Sort(ns)), []);
      assert payload + [] == payload;
      SumsOfDeltas(Sort(ns));
    }
  }

  /** Two lists are stored alike exactly if they hold the same ids equally often. */
  lemma SameImage(codec: GroupCodec, a: seq<Word>, b: seq<Word>)
    requires SelfDelimiting(codec) && |a| < Pow256(DEGREE_BYTES) && |b| < Pow256(DEGREE_BYTES)
    ensures Image(codec, a) == Image(codec, b) <==> multiset(a) == multiset(b)
  {
    hide Parse, Image, Sort, SelfDelimiting, Pow256;
    RoundTrip(codec, a);
    RoundTrip(codec, b);
    if multiset(a) == multiset(b) {
      SortedIsUnique(Sort(a), Sort(b));
      ImageOfSorted(codec, a, b);
    }
  }

  lemma ImageOfSorted(codec: GroupCodec, a: seq<Word>, b: seq<Word>)
    requires Sort(a) == Sort(b) && multiset(a) == multiset(b)
    ensures Image(codec, a) == Image(codec, b)
  {
    hide Sort;
    assert |multiset(a)| == |a| && |multiset(b)| == |b|;
  }

  /** The uncompressed form loads as it stands; bytes short of a word at the end are dropped. */
  lemma RawReadsBack(codec: GroupCodec, ns: seq<Word>, spare: seq<Byte>)
    requires |spare| < 4
    ensures Parse(codec, [0] + Raw(ns) + spare) == Ok(ns)
  {
    hide RawWords, Raw;
    var data := [0] + Raw(ns) + spare;
    assert data[1..] == Raw(ns) + spare;
    RawWordsReadBack(ns, spare);
  }

  lemma {:induction false} RawWordsReadBack(ns: seq<Word>, spare: seq<Byte>)
    ensures RawWords(Raw(ns) + spare, |ns|) == ns
  {
    if ns != [] {
      hide Little, FromLittle;
      var behind := Raw(ns[1..]) + spare;
      assert Raw(ns) + spare == Little(ns[0], 4) + behind;
      assert (Little(ns[0], 4) + behind)[..4] == Little(ns[0], 4);
      assert (Little(ns[0], 4) + behind)[4..] == behind;
      assert Pow256(4) == 256 * 256 * 256 * 256;
      LittleReadsBack(ns[0], 4);
      RawWordsReadBack(ns[1..], spare);
      assert ns == [ns[0]] + ns[1..];
    }
  }

  // ---------------------------------------------------------------------------
  // The assumption on the group codec can be met

  /** Bytes a word needs. */
  function Need(w: Word): (n: nat)
    ensures 1 <= n <= 4 && w < Pow256(n)
  {
    assert Pow256(1) == 256 && Pow256(2) == 256 * 256 && Pow256(3) == 256 * 256 * 256;
    assert Pow256(4) == 256 * 256 * 256 * 256;
    if w < 0x100 then 1 else if w < 0x1_0000 then 2 else if w < 0x100_0000 then 3 else 4
  }

  function Fields(ws: seq<Word>): seq<Byte> {
    if ws == [] then [] else Little(ws[0], Need(ws[0])) + Fields(ws[1..])
  }

  function ReadFields(data: seq<Byte>, sizes: seq<nat>): Group {
    if sizes == [] then Group([], 0)
    else if sizes[0] > |data| then Overrun
    else
      match ReadFields(data[sizes[0]..], sizes[1..])
      case Overrun => Overrun
      case Group(ws, n) => Group([FromLittle(data[..sizes[0]]) % WORD] + ws, sizes[0] + n)
  }

  function Needs(ws: seq<Word>): (sizes: seq<nat>)
    ensures |sizes| == |ws|
  {
    seq(|ws|, i requires 0 <= i < |ws| => Need(ws[i]))
  }

  lemma {:induction false} FieldsReadBack(ws: seq<Word>, rest: seq<Byte>)
    ensures ReadFields(Fields(ws) + rest, Needs(ws)) == Group(ws, |Fields(ws)|)
    decreases |ws|
  {
    hide Little, FromLittle, Need, Pow256;
    if ws != [] {
      var first, behind := Little(ws[0], Need(ws[0])), Fields(ws[1..]) + rest;
      assert Fields(ws) + rest == first + behind;
      assert (first + behind)[..|first|] == first && (first + behind)[|first|..] == behind;
      LittleReadsBack(ws[0], Need(ws[0]));
      FieldsReadBack(ws[1..], rest);
      assert Needs(ws)[1..] == Needs(ws[1..]);
      assert ws == [ws[0]] + ws[1..];
    }
  }

  /** The usual layout: a byte of four two-bit sizes, then the values. */
  function PlainEncode(a: Word, b: Word, c: Word, d: Word): seq<Byte> {
    [Need(a) - 1 + 4 * (Need(b) - 1) + 16 * (Need(c) - 1) + 64 * (Need(d) - 1)] + Fields([a, b, c, d])
  }

  function PlainDecode(data: seq<Byte>): Group {
    if data == [] then Overrun
    else
      var key := data[0];
      match ReadFields(data[1..], [key % 4 + 1, key / 4 % 4 + 1, key / 16 % 4 + 1, key / 64 + 1])
      case Overrun => Overrun
      case Group(ws, n) => Group(ws, n + 1)
  }

  lemma KeyParts(a: nat, b: nat, c: nat, d: nat)
    requires a < 4 && b < 4 && c < 4 && d < 4
    ensures var key := a + 4 * b + 16 * c + 64 * d;
            key < BYTE && key % 4 == a && key / 4 % 4 == b && key / 16 % 4 == c && key / 64 == d
  {
  }

  lemma PlainReadsBack(a: Word, b: Word, c: Word, d: Word, rest: seq<Byte>)
    ensures PlainDecode(PlainEncode(a, b, c, d) + rest) == Group([a, b, c, d], |PlainEncode(a, b, c, d)|)
  {
    hide Fields, ReadFields, Need, Pow256;
    var ws := [a, b, c, d];
    FieldsReadBack(ws, rest);
    KeyParts(Need(a) - 1, Need(b) - 1, Need(c) - 1, Need(d) - 1);
    assert (PlainEncode(a, b, c, d) + rest)[1..] == Fields(ws) + rest;
    assert Needs(ws) == [Need(a), Need(b), Need(c), Need(d)];
  }

  lemma PlainIsSelfDelimiting()
    ensures SelfDelimiting(GroupCodec(PlainEncode, PlainDecode))
  {
    hide PlainEncode, PlainDecode;
    forall a, b, c, d, rest
      ensures PlainDecode(PlainEncode(a, b, c, d) + rest) == Group([a, b, c, d], |PlainEncode(a, b, c, d)|)
    {
      PlainReadsBack(a, b, c, d, rest);
    }
  }

}
