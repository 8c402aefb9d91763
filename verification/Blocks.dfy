/** Block-wise reduce, scan, pack and filter (include/bw_graph/common/sequence.h):
 * each equals its serial form for every n >= 1 and every associative operator. */
module Blocks {
  import opened Selection

  /** Items per block of reduce, scan and pack; items below which filter is serial. */
  const BLOCK_SIZE: nat := 4096
  const FILTER_BLOCK: nat := 2048

  // ---------------------------------------------------------------------------
  // Serial forms

  ghost predicate Associative<T(!new)>(f: (T, T) -> T) {
    forall a, b, c :: f(f(a, b), c) == f(a, f(b, c))
  }

  /** Fold from the left. */
  function Fold<T>(f: (T, T) -> T, zero: T, s: seq<T>): T {
    if s == [] then zero else f(Fold(f, zero, s[..|s| - 1]), s[|s| - 1])
  }

  /** reduce_serial. */
  function Reduced<T>(f: (T, T) -> T, s: seq<T>): T
    requires s != []
  {
    Fold(f, s[0], s[1..])
  }

  /** What scan_serial leaves at position i. */
  function ScanAt<T>(f: (T, T) -> T, zero: T, s: seq<T>, inclusive: bool, i: nat): T
    requires i < |s|
  {
    Fold(f, zero, s[..if inclusive then i + 1 else i])
  }

  /** The values whose flag is set, in order. */
  function Packed<T>(values: seq<T>, flags: seq<bool>): (r: seq<T>)
    requires |values| == |flags|
    ensures |r| <= |values|
  {
    if values == [] then []
    else Packed(values[..|values| - 1], flags[..|values| - 1])
         + if flags[|values| - 1] then [values[|values| - 1]] else []
  }

  /** The values at the set flags, each once and in order. */
  lemma {:induction false} PackedMeans<T>(values: seq<T>, flags: seq<bool>) returns (at: seq<nat>)
    requires |values| == |flags|
    ensures Picks(values, Packed(values, flags), at)
    ensures forall i :: i in at <==> 0 <= i < |flags| && flags[i]
  {
    hide Picks;
    at := [];
    PicksNothing(values);
    if values != [] {
      var last := |values| - 1;
      var before := PackedMeans(values[..last], flags[..last]);
      at := PicksSnoc(values[..last], Packed(values[..last], flags[..last]), before, values[last], flags[last]);
      assert values[..last] + [values[last]] == values;
    }
  }

  lemma {:induction false} FoldConcat<T>(f: (T, T) -> T, zero: T, a: seq<T>, b: seq<T>)
    ensures Fold(f, zero, a + b) == Fold(f, Fold(f, zero, a), b)
    decreases |b|
  {
    if b == [] {
      assert a + b == a;
    } else {
      assert (a + b)[..|a + b| - 1] == a + b[..|b| - 1];
      FoldConcat(f, zero, a, b[..|b| - 1]);
    }
  }

  lemma FoldLast<T>(f: (T, T) -> T, zero: T, s: seq<T>, i: nat)
    requires i < |s|
    ensures Fold(f, zero, s[..i + 1]) == f(Fold(f, zero, s[..i]), s[i])
  {
    var front := s[..i + 1];
    PrefixOfPrefix(s, i);
    assert front[|front| - 1] == s[i];
  }

  lemma PrefixOfPrefix<T>(s: seq<T>, i: nat)
    requires i < |s|
    ensures s[..i + 1][..i] == s[..i]
  {
  }

  /** Folding a block onto an accumulator is combining it with the reduced block. */
  lemma {:induction false} FoldReduced<T(!new)>(f: (T, T) -> T, zero: T, s: seq<T>)
    requires Associative(f) && s != []
    ensures Fold(f, zero, s) == f(zero, Reduced(f, s))
    decreases |s|
  {
    var last := |s| - 1;
    if last == 0 {
      assert s[..0] == [] && s[1..] == [];
    } else {
      FoldReduced(f, zero, s[..last]);
      assert s[1..][..last - 1] == s[..last][1..];
    }
  }

  lemma {:induction false} PackedConcat<T>(a: seq<T>, b: seq<T>, fa: seq<bool>, fb: seq<bool>)
    requires |a| == |fa| && |b| == |fb|
    ensures Packed(a + b, fa + fb) == Packed(a, fa) + Packed(b, fb)
    decreases |b|
  {
    if b == [] {
      assert a + b == a && fa + fb == fa;
    } else {
      var last := |b| - 1;
      assert (a + b)[..|a + b| - 1] == a + b[..last] && (fa + fb)[..|a + b| - 1] == fa + fb[..last];
      PackedConcat(a, b[..last], fa, fb[..last]);
    }
  }

  // ---------------------------------------------------------------------------
  // Blocks

  /** The least number of blocks that hold n items. */
  function NumBlocks(n: nat, size: nat): (l: nat)
    requires n >= 1 && size >= 1
    ensures l >= 1 && (l - 1) * size < n <= l * size
  {
    var q := (n - 1) / size;
    assert n - 1 == q * size + (n - 1) % size;
    1 + q
  }

  function Min(a: nat, b: nat): nat {
    if a < b then a else b
  }

  /** Where block i of n items starts; the end of block i is the start of block i + 1. */
  function Start(n: nat, size: nat, i: nat): nat {
    Min(i * size, n)
  }

  function Block<T>(s: seq<T>, size: nat, i: nat): seq<T>
    requires Start(|s|, size, i) <= Start(|s|, size, i + 1)
  {
    s[Start(|s|, size, i)..Start(|s|, size, i + 1)]
  }

  lemma StartStep(n: nat, size: nat, i: nat)
    ensures i * size + size == (i + 1) * size
    ensures Start(n, size, i) <= Start(n, size, i + 1) == Min(i * size + size, n)
    ensures Start(n, size, 0) == 0
  {
  }

  /** The blocks cover everything. */
  lemma BlocksCover(n: nat, size: nat)
    requires n >= 1 && size >= 1
    ensures Start(n, size, NumBlocks(n, size)) == n
  {
    hide NumBlocks;
  }

  lemma Monotone(i: nat, j: nat, size: nat)
    requires i <= j
    ensures i * size <= j * size
  {
  }

  /** None of them is empty. */
  lemma BlockNotEmpty(n: nat, size: nat, i: nat)
    requires n >= 1 && size >= 1 && i < NumBlocks(n, size)
    ensures Start(n, size, i) == i * size < Start(n, size, i + 1)
  {
    hide NumBlocks;
    Monotone(i, NumBlocks(n, size) - 1, size);
    StartStep(n, size, i);
  }

  lemma BlockSnoc<T>(s: seq<T>, size: nat, i: nat)
    ensures Start(|s|, size, i) <= Start(|s|, size, i + 1)
    ensures s[..Start(|s|, size, i + 1)] == s[..Start(|s|, size, i)] + Block(s, size, i)
  {
    StartStep(|s|, size, i);
  }

  // ---------------------------------------------------------------------------
  // Reduce

  method ReduceSerial<T>(s: seq<T>, f: (T, T) -> T) returns (r: T)
    requires s != []
    ensures r == Reduced(f, s)
  {
    r := s[0];
    for j := 1 to |s|
      invariant r == Fold(f, s[0], s[1..j])
    {
      assert s[1..j + 1][..j - 1] == s[1..j];
      r := f(r, s[j]);
    }
    assert s[1..|s|] == s[1..];
  }

  /** The totals of the blocks. */
  ghost predicate BlockTotals<T(!new)>(f: (T, T) -> T, s: seq<T>, size: nat, sums: seq<T>) {
    forall i :: 0 <= i < |sums| ==>
      Start(|s|, size, i) < Start(|s|, size, i + 1) && sums[i] == Reduced(f, Block(s, size, i))
  }

  lemma {:induction false} TotalsFold<T(!new)>(f: (T, T) -> T, zero: T, s: seq<T>, size: nat, sums: seq<T>)
    requires Associative(f) && BlockTotals(f, s, size, sums)
    ensures Fold(f, zero, sums) == Fold(f, zero, s[..Start(|s|, size, |sums|)])
    decreases |sums|
  {
    if sums != [] {
      var last := |sums| - 1;
      TotalsFold(f, zero, s, size, sums[..last]);
      BlockSnoc(s, size, last);
      var front := s[..Start(|s|, size, last)];
      FoldConcat(f, zero, front, Block(s, size, last));
      FoldReduced(f, Fold(f, zero, front), Block(s, size, last));
    } else {
      StartStep(|s|, size, 0);
    }
  }

  /** reduce: the blocks, then their results. */
  method Reduce<T(!new, 0)>(s: seq<T>, f: (T, T) -> T) returns (r: T)
    requires Associative(f) && s != []
    ensures r == Reduced(f, s)
  {
    var l := NumBlocks(|s|, BLOCK_SIZE);
    if l <= 1 {
      r := ReduceSerial(s, f);
      return;
    }
    var sums := BlockSums(s, f, BLOCK_SIZE);
    r := ReduceSerial(sums, f);
    TotalsReduced(f, s, BLOCK_SIZE, sums);
  }

  method BlockSums<T(!new)>(s: seq<T>, f: (T, T) -> T, size: nat) returns (sums: seq<T>)
    requires s != [] && size >= 1
    ensures |sums| == NumBlocks(|s|, size) && BlockTotals(f, s, size, sums)
  {
    sums := [];
    for i := 0 to NumBlocks(|s|, size)
      invariant |sums| == i && BlockTotals(f, s, size, sums)
    {
      BlockNotEmpty(|s|, size, i);
      StartStep(|s|, size, i);
      var start := i * size;
      var one := ReduceSerial(s[start..Min(start + size, |s|)], f);
      sums := sums + [one];
    }
  }

  lemma TotalsReduced<T(!new)>(f: (T, T) -> T, s: seq<T>, size: nat, sums: seq<T>)
    requires Associative(f) && s != [] && size >= 1
    requires |sums| == NumBlocks(|s|, size) && BlockTotals(f, s, size, sums)
    ensures Reduced(f, sums) == Reduced(f, s)
  {
    hide Fold, BlockTotals, NumBlocks;
    TotalsTail(f, s, size, sums, |sums|);
    BlocksCover(|s|, size);
    assert s[..|s|] == s && sums[1..|sums|] == sums[1..];
  }

  /** The first block is the start of the fold, the others are folded onto it. */
  lemma {:induction false} TotalsTail<T(!new)>(f: (T, T) -> T, s: seq<T>, size: nat, sums: seq<T>, k: nat)
    requires Associative(f) && BlockTotals(f, s, size, sums) && 1 <= k <= |sums| && s != []
    ensures Start(|s|, size, k) > 0
    ensures Fold(f, sums[0], sums[1..k]) == Reduced(f, s[..Start(|s|, size, k)])
    decreases k
  {
    StartStep(|s|, size, 0);
    BlockSnoc(s, size, k - 1);
    if k == 1 {
      assert sums[1..1] == [];
      assert s[..Start(|s|, size, 1)] == Block(s, size, 0);
    } else {
      TotalsTail(f, s, size, sums, k - 1);
      TailStep(f, s[..Start(|s|, size, k - 1)], Block(s, size, k - 1), sums, k);
    }
  }

  lemma TailStep<T(!new)>(f: (T, T) -> T, front: seq<T>, block: seq<T>, sums: seq<T>, k: nat)
    requires Associative(f) && front != [] && block != [] && 2 <= k <= |sums| && sums[k - 1] == Reduced(f, block)
    requires Fold(f, sums[0], sums[1..k - 1]) == Reduced(f, front)
    ensures Fold(f, sums[0], sums[1..k]) == Reduced(f, front + block)
  {
    hide Associative, Fold;
    FoldLast(f, sums[0], sums[1..k], k - 2);
    assert sums[1..k][..k - 2] == sums[1..k - 1] && sums[1..k][..k - 2 + 1] == sums[1..k];
    assert (front + block)[1..] == front[1..] + block;
    FoldConcat(f, front[0], front[1..], block);
    FoldReduced(f, Reduced(f, front), block);
  }

  // ---------------------------------------------------------------------------
  // Scan

  /** scan_serial over a[lo..hi], in place. */
  method ScanSerial<T>(a: array<T>, lo: nat, hi: nat, f: (T, T) -> T, zero: T, inclusive: bool) returns (r: T)
    requires lo <= hi <= a.Length
    modifies a
    ensures r == Fold(f, zero, old(a[lo..hi]))
    ensures forall i :: 0 <= i < hi - lo ==> a[lo + i] == ScanAt(f, zero, old(a[lo..hi]), inclusive, i)
    ensures forall i :: 0 <= i < a.Length && !(lo <= i < hi) ==> a[i] == old(a[i])
  {
    r := zero;
    ghost var s := a[lo..hi];
    for i := lo to hi
      invariant r == Fold(f, zero, s[..i - lo])
      invariant forall k :: 0 <= k < i - lo ==> a[lo + k] == ScanAt(f, zero, s, inclusive, k)
      invariant forall k :: i <= k < hi ==> a[k] == s[k - lo]
      invariant forall k :: 0 <= k < a.Length && !(lo <= k < hi) ==> a[k] == old(a[k])
    {
      assert s[..i - lo + 1][..i - lo] == s[..i - lo];
      var t := a[i];
      if inclusive {
        r := f(r, t);
        a[i] := r;
      } else {
        a[i] := r;
        r := f(r, t);
      }
    }
    assert s[..hi - lo] == s;
  }

  /** Block i of the scan starts from the fold of all earlier blocks. */
  lemma ScanBlock<T(!new)>(f: (T, T) -> T, zero: T, s: seq<T>, size: nat, i: nat, inclusive: bool, k: nat, total: T)
    requires Start(|s|, size, i) <= Start(|s|, size, i + 1) && k < |Block(s, size, i)|
    requires total == Fold(f, zero, s[..Start(|s|, size, i)])
    ensures Start(|s|, size, i) + k < |s|
    ensures ScanAt(f, total, Block(s, size, i), inclusive, k)
         == ScanAt(f, zero, s, inclusive, Start(|s|, size, i) + k)
  {
    var start, end := Start(|s|, size, i), if inclusive then k + 1 else k;
    hide Fold;
    FoldConcat(f, zero, s[..start], Block(s, size, i)[..end]);
    PrefixAndPart(s, start, Start(|s|, size, i + 1), end);
  }

  lemma PrefixAndPart<T>(s: seq<T>, a: nat, b: nat, e: nat)
    requires a + e <= b <= |s|
    ensures s[..a] + s[a..b][..e] == s[..a + e]
  {
  }

  /** Every entry of a scan from the one before it. */
  lemma ScanNext<T>(f: (T, T) -> T, zero: T, s: seq<T>, i: nat)
    requires i < |s|
    ensures ScanAt(f, zero, s, true, i) == f(if i == 0 then zero else ScanAt(f, zero, s, true, i - 1), s[i])
    ensures ScanAt(f, zero, s, false, i) == if i == 0 then zero else f(ScanAt(f, zero, s, false, i - 1), s[i - 1])
    ensures i == |s| - 1 ==>
      Fold(f, zero, s) == ScanAt(f, zero, s, true, i) == f(ScanAt(f, zero, s, false, i), s[i])
  {
    FoldLast(f, zero, s, i);
    if i == 0 {
      assert s[..0] == [];
    } else {
      FoldLast(f, zero, s, i - 1);
    }
    assert i == |s| - 1 ==> s[..i + 1] == s;
  }

  lemma ScanChain<T>(f: (T, T) -> T, zero: T, s: seq<T>, inclusive: bool, now: seq<T>, total: T)
    requires |now| == |s| >= 1 && total == Fold(f, zero, s)
    requires forall i :: 0 <= i < |s| ==> now[i] == ScanAt(f, zero, s, inclusive, i)
    ensures Chained(f, zero, s, inclusive, now, total)
  {
    hide Fold, ScanAt;
    forall i | 0 <= i < |s|
      ensures now[i] == if inclusive then f(if i == 0 then zero else now[i - 1], s[i])
                        else if i == 0 then zero else f(now[i - 1], s[i - 1])
    {
      ScanNext(f, zero, s, i);
    }
    ScanNext(f, zero, s, |s| - 1);
  }

  /** Item i goes into entry i of an inclusive scan and into entry i + 1 of an exclusive one. */
  ghost predicate Chained<T>(f: (T, T) -> T, zero: T, s: seq<T>, inclusive: bool, now: seq<T>, total: T) {
    && |now| == |s| >= 1
    && (forall i :: 0 <= i < |s| ==>
          now[i] == if inclusive then f(if i == 0 then zero else now[i - 1], s[i])
                    else if i == 0 then zero else f(now[i - 1], s[i - 1]))
    && total == if inclusive then now[|s| - 1] else f(now[|s| - 1], s[|s| - 1])
  }

  /** scan, in place: block totals, their scan, then every block from its offset. */
  method Scan<T(!new, 0)>(a: array<T>, f: (T, T) -> T, zero: T, inclusive: bool) returns (total: T)
    requires Associative(f) && a.Length >= 1
    modifies a
    ensures total == Fold(f, zero, old(a[..]))
    ensures forall i :: 0 <= i < a.Length ==> a[i] == ScanAt(f, zero, old(a[..]), inclusive, i)
    ensures Chained(f, zero, old(a[..]), inclusive, a[..], total)
  {
    hide Chained, ScanAt, Fold;
    var n, l := a.Length, NumBlocks(a.Length, BLOCK_SIZE);
    ghost var s := a[..];
    if l <= 2 {
      assert a[0..n] == a[..];
      total := ScanSerial(a, 0, n, f, zero, inclusive);
      assert forall i :: 0 <= i < n ==> a[0 + i] == ScanAt(f, zero, s, inclusive, i);
      ScanChain(f, zero, s, inclusive, a[..], total);
      return;
    }
    var totals := BlockSums(a[..], f, BLOCK_SIZE);
    var sums := new T[l](i requires 0 <= i < |totals| => totals[i]);
    assert sums[..] == totals && sums[0..l] == totals;
    total := ScanSerial(sums, 0, l, f, zero, false);
    SumsAreOffsets(f, zero, s, totals, sums[..]);
    BlocksCover(n, BLOCK_SIZE);
    Offsets(f, zero, s, BLOCK_SIZE, totals, l);
    assert s[..n] == s && totals[..l] == totals;
    ScanBlocks(a, sums, f, zero, inclusive, s);
    ScanChain(f, zero, s, inclusive, a[..], total);
  }

  /** Entry i is the fold of everything before block i. */
  ghost predicate OffsetsOk<T(!new)>(f: (T, T) -> T, zero: T, s: seq<T>, sums: seq<T>) {
    forall i :: 0 <= i < |sums| ==> sums[i] == Fold(f, zero, s[..Start(|s|, BLOCK_SIZE, i)])
  }

  lemma SumsAreOffsets<T(!new)>(f: (T, T) -> T, zero: T, s: seq<T>, totals: seq<T>, sums: seq<T>)
    requires Associative(f) && BlockTotals(f, s, BLOCK_SIZE, totals) && |sums| == |totals|
    requires forall i :: 0 <= i < |sums| ==> sums[0 + i] == ScanAt(f, zero, totals, false, i)
    ensures OffsetsOk(f, zero, s, sums)
  {
    hide Fold;
    forall i | 0 <= i < |sums| ensures sums[i] == Fold(f, zero, s[..Start(|s|, BLOCK_SIZE, i)]) {
      assert sums[0 + i] == ScanAt(f, zero, totals, false, i);
      Offsets(f, zero, s, BLOCK_SIZE, totals, i);
    }
  }

  /** Positions below `end` hold the scan, the others what they held. */
  ghost predicate ScannedTo<T(!new)>(f: (T, T) -> T, zero: T, s: seq<T>, inclusive: bool, now: seq<T>, end: nat) {
    && |now| == |s|
    && (forall k :: 0 <= k < end && k < |s| ==> now[k] == ScanAt(f, zero, s, inclusive, k))
    && (forall k :: end <= k < |s| ==> now[k] == s[k])
  }

  method ScanBlocks<T(!new)>(a: array<T>, sums: array<T>, f: (T, T) -> T, zero: T, inclusive: bool, ghost s: seq<T>)
    requires a != sums && a[..] == s && s != [] && sums.Length == NumBlocks(a.Length, BLOCK_SIZE)
    requires OffsetsOk(f, zero, s, sums[..])
    modifies a
    ensures forall i :: 0 <= i < a.Length ==> a[i] == ScanAt(f, zero, s, inclusive, i)
  {
    hide Fold, ScanAt;
    var n := a.Length;
    StartStep(n, BLOCK_SIZE, 0);
    for i := 0 to sums.Length
      invariant ScannedTo(f, zero, s, inclusive, a[..], Start(n, BLOCK_SIZE, i)) && sums[..] == old(sums[..])
    {
      BlockNotEmpty(n, BLOCK_SIZE, i);
      StartStep(n, BLOCK_SIZE, i);
      var start := i * BLOCK_SIZE;
      var end := Min(start + BLOCK_SIZE, n);
      assert a[start..end] == Block(s, BLOCK_SIZE, i);
      ghost var was := a[..];
      assert sums[i] == sums[..][i];
      var last := ScanSerial(a, start, end, f, sums[i], inclusive);
      BlockScanned(f, zero, s, inclusive, was, a[..], i, sums[i]);
    }
    BlocksCover(n, BLOCK_SIZE);
  }

  lemma BlockScanned<T(!new)>(f: (T, T) -> T, zero: T, s: seq<T>, inclusive: bool, was: seq<T>, now: seq<T>, i: nat,
                              offset: T)
    requires s != [] && i < NumBlocks(|s|, BLOCK_SIZE) && |now| == |s|
    requires ScannedTo(f, zero, s, inclusive, was, Start(|s|, BLOCK_SIZE, i))
    requires offset == Fold(f, zero, s[..Start(|s|, BLOCK_SIZE, i)])
    requires Start(|s|, BLOCK_SIZE, i) < Start(|s|, BLOCK_SIZE, i + 1)
    requires forall k :: 0 <= k < |Block(s, BLOCK_SIZE, i)| ==>
      now[Start(|s|, BLOCK_SIZE, i) + k] == ScanAt(f, offset, Block(s, BLOCK_SIZE, i), inclusive, k)
    requires forall k :: 0 <= k < |s| && !(Start(|s|, BLOCK_SIZE, i) <= k < Start(|s|, BLOCK_SIZE, i + 1)) ==> now[k] == was[k]
    ensures ScannedTo(f, zero, s, inclusive, now, Start(|s|, BLOCK_SIZE, i + 1))
  {
    hide Fold, ScanAt, NumBlocks;
    var start := Start(|s|, BLOCK_SIZE, i);
    forall k | start <= k < Start(|s|, BLOCK_SIZE, i + 1) ensures now[k] == ScanAt(f, zero, s, inclusive, k) {
      ScanBlock(f, zero, s, BLOCK_SIZE, i, inclusive, k - start, offset);
      assert now[start + (k - start)] == now[k];
    }
  }

  /** The scan of the block totals gives the fold up to each block. */
  lemma Offsets<T(!new)>(f: (T, T) -> T, zero: T, s: seq<T>, size: nat, totals: seq<T>, i: nat)
    requires Associative(f) && BlockTotals(f, s, size, totals) && i <= |totals|
    ensures Fold(f, zero, totals[..i]) == Fold(f, zero, s[..Start(|s|, size, i)])
  {
    TotalsFold(f, zero, s, size, totals[..i]);
  }

  // ---------------------------------------------------------------------------
  // Pack

  /** sum_flags_serial. */
  method SumFlags<T>(ghost values: seq<T>, flags: seq<bool>, lo: nat, hi: nat) returns (r: nat)
    requires |values| == |flags| && lo <= hi <= |flags|
    ensures r == |Packed(values[lo..hi], flags[lo..hi])|
  {
    r := 0;
    for j := lo to hi
      invariant r == |Packed(values[lo..j], flags[lo..j])|
    {
      assert values[lo..j + 1][..j - lo] == values[lo..j] && flags[lo..j + 1][..j - lo] == flags[lo..j];
      r := r + if flags[j] then 1 else 0;
    }
  }

  /** One more value of a stretch. */
  lemma PackedStep<T>(values: seq<T>, flags: seq<bool>, lo: nat, hi: nat, i: nat)
    requires |values| == |flags| && lo <= i < hi <= |flags|
    ensures Packed(values[lo..i + 1], flags[lo..i + 1])
         == Packed(values[lo..i], flags[lo..i]) + if flags[i] then [values[i]] else []
    ensures Packed(values[lo..i + 1], flags[lo..i + 1]) <= Packed(values[lo..hi], flags[lo..hi])
  {
    PackedPrefix(values[lo..hi], flags[lo..hi], i + 1 - lo);
    assert values[lo..hi][..i + 1 - lo] == values[lo..i + 1] && flags[lo..hi][..i + 1 - lo] == flags[lo..i + 1];
    assert values[lo..i + 1][..i - lo] == values[lo..i] && flags[lo..i + 1][..i - lo] == flags[lo..i];
  }

  lemma PackedNone<T>(values: seq<T>, flags: seq<bool>, lo: nat)
    requires |values| == |flags| && lo <= |flags|
    ensures Packed(values[lo..lo], flags[lo..lo]) == []
  {
  }

  /** pack_serial_at: the selected values of a stretch, from position `at` on. */
  method PackSerialAt<T>(values: seq<T>, flags: seq<bool>, lo: nat, hi: nat, out: array<T>, at: nat)
    requires |values| == |flags| && lo <= hi <= |flags|
    requires at + |Packed(values[lo..hi], flags[lo..hi])| <= out.Length
    modifies out
    ensures out[at..at + |Packed(values[lo..hi], flags[lo..hi])|] == Packed(values[lo..hi], flags[lo..hi])
    ensures forall i :: 0 <= i < out.Length && !(at <= i < at + |Packed(values[lo..hi], flags[lo..hi])|) ==> out[i] == old(out[i])
  {
    hide Packed;
    var k := at;
    ghost var all := Packed(values[lo..hi], flags[lo..hi]);
    PackedNone(values, flags, lo);
    for i := lo to hi
      invariant at <= k <= at + |all| && out[at..k] == Packed(values[lo..i], flags[lo..i])
      invariant Packed(values[lo..i], flags[lo..i]) <= all
      invariant forall i :: 0 <= i < out.Length && !(at <= i < k) ==> out[i] == old(out[i])
    {
      PackedStep(values, flags, lo, hi, i);
      if flags[i] {
        out[k] := values[i];
        k := k + 1;
      }
    }
  }

  lemma PackedPrefix<T>(values: seq<T>, flags: seq<bool>, i: nat)
    requires |values| == |flags| && i <= |values|
    ensures Packed(values[..i], flags[..i]) <= Packed(values, flags)
  {
    hide Packed;
    assert values[..i] + values[i..] == values && flags[..i] + flags[i..] == flags;
    PackedConcat(values[..i], values[i..], flags[..i], flags[i..]);
  }

  /** How many values are selected before block i. */
  ghost function CountTo<T>(values: seq<T>, flags: seq<bool>, size: nat, i: nat): nat
    requires |values| == |flags|
  {
    |Packed(values[..Start(|values|, size, i)], flags[..Start(|values|, size, i)])|
  }

  lemma CountStep<T>(values: seq<T>, flags: seq<bool>, size: nat, i: nat)
    requires |values| == |flags|
    ensures Start(|values|, size, i) <= Start(|values|, size, i + 1)
    ensures var a, b := Start(|values|, size, i), Start(|values|, size, i + 1);
      && Packed(values[..b], flags[..b]) == Packed(values[..a], flags[..a]) + Packed(values[a..b], flags[a..b])
      && CountTo(values, flags, size, i + 1) == CountTo(values, flags, size, i) + |Packed(values[a..b], flags[a..b])|
  {
    StartStep(|values|, size, i);
    var a, b := Start(|values|, size, i), Start(|values|, size, i + 1);
    PackedConcat(values[..a], values[a..b], flags[..a], flags[a..b]);
    assert values[..b] == values[..a] + values[a..b] && flags[..b] == flags[..a] + flags[a..b];
  }

  /** Block counts and their exclusive prefix sums: where each block goes. */
  method BlockOffsets<T>(values: seq<T>, flags: seq<bool>) returns (offsets: seq<nat>, m: nat)
    requires |values| == |flags| >= 1
    ensures |offsets| == NumBlocks(|values|, BLOCK_SIZE)
    ensures forall i :: 0 <= i < |offsets| ==> offsets[i] == CountTo(values, flags, BLOCK_SIZE, i)
    ensures m == |Packed(values, flags)|
  {
    offsets, m := [], 0;
    StartStep(|values|, BLOCK_SIZE, 0);
    for i := 0 to NumBlocks(|values|, BLOCK_SIZE)
      invariant |offsets| == i && m == CountTo(values, flags, BLOCK_SIZE, i)
      invariant forall k :: 0 <= k < i ==> offsets[k] == CountTo(values, flags, BLOCK_SIZE, k)
    {
      StartStep(|values|, BLOCK_SIZE, i);
      CountStep(values, flags, BLOCK_SIZE, i);
      BlockNotEmpty(|values|, BLOCK_SIZE, i);
      var start := i * BLOCK_SIZE;
      var count := SumFlags(values, flags, start, Min(start + BLOCK_SIZE, |values|));
      offsets := offsets + [m];
      m := m + count;
    }
    BlocksCover(|values|, BLOCK_SIZE);
    assert values[..|values|] == values && flags[..|flags|] == flags;
  }

  /** pack: every block at its offset; the result is the serial one, in order. */
  method Pack<T(0)>(values: seq<T>, flags: seq<bool>) returns (out: array<T>)
    requires |values| == |flags| >= 1
    ensures fresh(out) && out[..] == Packed(values, flags)
    ensures exists at :: Picks(values, out[..], at) && forall i :: i in at <==> 0 <= i < |flags| && flags[i]
  {
    ghost var at := PackedMeans(values, flags);
    var n := |values|;
    if NumBlocks(n, BLOCK_SIZE) <= 1 {
      var count := SumFlags(values, flags, 0, n);
      assert values[0..n] == values && flags[0..n] == flags;
      out := new T[count];
      PackSerialAt(values, flags, 0, n, out, 0);
      assert out[..] == out[0..count];
      return;
    }
    var offsets, m := BlockOffsets(values, flags);
    out := new T[m];
    PackBlocks(values, flags, offsets, out);
  }

  /** The values selected from the first i blocks. */
  ghost function PackedTo<T>(values: seq<T>, flags: seq<bool>, i: nat): (r: seq<T>)
    requires |values| == |flags|
    ensures |r| == CountTo(values, flags, BLOCK_SIZE, i)
  {
    Packed(values[..Start(|values|, BLOCK_SIZE, i)], flags[..Start(|values|, BLOCK_SIZE, i)])
  }

  lemma PackedToStep<T>(values: seq<T>, flags: seq<bool>, i: nat)
    requires |values| == |flags| >= 1 && i < NumBlocks(|values|, BLOCK_SIZE)
    ensures i * BLOCK_SIZE <= Min(i * BLOCK_SIZE + BLOCK_SIZE, |values|)
    ensures var lo, hi := i * BLOCK_SIZE, Min(i * BLOCK_SIZE + BLOCK_SIZE, |values|);
      && PackedTo(values, flags, i + 1) == PackedTo(values, flags, i) + Packed(values[lo..hi], flags[lo..hi])
      && |PackedTo(values, flags, i + 1)| <= |Packed(values, flags)|
  {
    hide Packed;
    StartStep(|values|, BLOCK_SIZE, i);
    CountStep(values, flags, BLOCK_SIZE, i);
    BlockNotEmpty(|values|, BLOCK_SIZE, i);
    PackedPrefix(values, flags, Start(|values|, BLOCK_SIZE, i + 1));
  }

  method PackBlocks<T>(values: seq<T>, flags: seq<bool>, offsets: seq<nat>, out: array<T>)
    requires |values| == |flags| >= 1 && |offsets| == NumBlocks(|values|, BLOCK_SIZE)
    requires forall i :: 0 <= i < |offsets| ==> offsets[i] == CountTo(values, flags, BLOCK_SIZE, i)
    requires out.Length == |Packed(values, flags)|
    modifies out
    ensures out[..] == Packed(values, flags)
  {
    PackedToEnds(values, flags);
    hide PackedTo, Packed, CountTo;
    for i := 0 to |offsets|
      invariant |PackedTo(values, flags, i)| <= out.Length
      invariant out[..|PackedTo(values, flags, i)|] == PackedTo(values, flags, i)
    {
      PackedToStep(values, flags, i);
      var start := i * BLOCK_SIZE;
      var end := Min(start + BLOCK_SIZE, |values|);
      ghost var was := out[..offsets[i]];
      PackSerialAt(values, flags, start, end, out, offsets[i]);
      assert out[..offsets[i]] == was;
      var filled := offsets[i] + |Packed(values[start..end], flags[start..end])|;
      assert out[..filled] == out[..offsets[i]] + out[offsets[i]..filled];
    }
  }

  lemma PackedToEnds<T>(values: seq<T>, flags: seq<bool>)
    requires |values| == |flags| >= 1
    ensures PackedTo(values, flags, 0) == []
    ensures PackedTo(values, flags, NumBlocks(|values|, BLOCK_SIZE)) == Packed(values, flags)
  {
    StartStep(|values|, BLOCK_SIZE, 0);
    BlocksCover(|values|, BLOCK_SIZE);
    assert values[..|values|] == values && flags[..|flags|] == flags;
  }

  // ---------------------------------------------------------------------------
  // Filter

  function Filtered<T>(s: seq<T>, p: T -> bool): (r: seq<T>)
    ensures |r| <= |s|
  {
    if s == [] then [] else Filtered(s[..|s| - 1], p) + if p(s[|s| - 1]) then [s[|s| - 1]] else []
  }

  /** The values that satisfy p, each once and in order. */
  lemma {:induction false} FilteredMeans<T>(s: seq<T>, p: T -> bool) returns (at: seq<nat>)
    ensures Picks(s, Filtered(s, p), at)
    ensures forall i :: i in at <==> 0 <= i < |s| && p(s[i])
  {
    hide Picks;
    at := [];
    PicksNothing(s);
    if s != [] {
      var last := |s| - 1;
      var before := FilteredMeans(s[..last], p);
      at := PicksSnoc(s[..last], Filtered(s[..last], p), before, s[last], p(s[last]));
      assert s[..last] + [s[last]] == s;
    }
  }

  lemma {:induction false} FilteredConcat<T>(a: seq<T>, b: seq<T>, p: T -> bool)
    ensures Filtered(a + b, p) == Filtered(a, p) + Filtered(b, p)
    decreases |b|
  {
    if b == [] {
      assert a + b == a;
    } else {
      assert (a + b)[..|a + b| - 1] == a + b[..|b| - 1];
      FilteredConcat(a, b[..|b| - 1], p);
    }
  }

  lemma FilteredPrefix<T>(s: seq<T>, p: T -> bool, i: nat)
    requires i <= |s|
    ensures Filtered(s[..i], p) <= Filtered(s, p)
  {
    hide Filtered;
    assert s[..i] + s[i..] == s;
    FilteredConcat(s[..i], s[i..], p);
  }

  /** filter_serial. */
  method FilterSerial<T>(input: array<T>, out: array<T>, n: nat, p: T -> bool) returns (m: nat)
    requires input != out && n <= input.Length && |Filtered(input[..n], p)| <= out.Length
    modifies out
    ensures m == |Filtered(old(input[..n]), p)| <= out.Length && out[..m] == Filtered(old(input[..n]), p)
  {
    m := 0;
    ghost var s := input[..n];
    for i := 0 to n
      invariant m == |Filtered(s[..i], p)| <= out.Length && out[..m] == Filtered(s[..i], p)
    {
      assert s[..i + 1][..i] == s[..i];
      FilteredPrefix(s, p, i + 1);
      if p(input[i]) {
        out[m] := input[i];
        m := m + 1;
      }
    }
    assert s[..n] == s;
  }

  /** One block, compacted where it stands: the values kept are at its front. */
  lemma FilteredNone<T>(p: T -> bool)
    ensures Filtered([], p) == []
  {
  }

  lemma FilteredNext<T>(s: seq<T>, p: T -> bool, k: nat)
    requires k < |s|
    ensures Filtered(s[..k + 1], p) == Filtered(s[..k], p) + if p(s[k]) then [s[k]] else []
  {
    assert s[..k + 1][..k] == s[..k];
  }

  method CompactBlock<T>(input: array<T>, lo: nat, hi: nat, p: T -> bool) returns (count: nat)
    requires lo <= hi <= input.Length
    modifies input
    ensures count == |Filtered(old(input[lo..hi]), p)| <= hi - lo
    ensures input[lo..lo + count] == Filtered(old(input[lo..hi]), p)
    ensures forall i :: 0 <= i < input.Length && !(lo <= i < hi) ==> input[i] == old(input[i])
  {
    hide Filtered;
    FilteredNone(p);
    ghost var s := input[lo..hi];
    var k := lo;
    for j := lo to hi
      invariant lo <= k <= j && k - lo == |Filtered(s[..j - lo], p)| && input[lo..k] == Filtered(s[..j - lo], p)
      invariant forall i :: j <= i < hi ==> input[i] == s[i - lo]
      invariant forall i :: 0 <= i < input.Length && !(lo <= i < hi) ==> input[i] == old(input[i])
    {
      FilteredNext(s, p, j - lo);
      if p(input[j]) {
        input[k] := input[j];
        k := k + 1;
      }
    }
    assert s[..hi - lo] == s;
    count := k - lo;
  }

  lemma FilterStep<T>(s: seq<T>, p: T -> bool, size: nat, i: nat)
    ensures Start(|s|, size, i) <= Start(|s|, size, i + 1)
    ensures Filtered(s[..Start(|s|, size, i + 1)], p)
         == Filtered(s[..Start(|s|, size, i)], p) + Filtered(Block(s, size, i), p)
  {
    BlockSnoc(s, size, i);
    FilteredConcat(s[..Start(|s|, size, i)], Block(s, size, i), p);
  }

  /** The values of block i that are kept. */
  function Kept<T>(s: seq<T>, p: T -> bool, size: nat, i: nat): (r: seq<T>)
    ensures Start(|s|, size, i) + |r| <= Start(|s|, size, i + 1)
  {
    StartStep(|s|, size, i);
    Filtered(Block(s, size, i), p)
  }

  /** Block i of `now` has its kept values at the front. */
  ghost predicate CompactAt<T>(s: seq<T>, p: T -> bool, size: nat, now: seq<T>, i: nat) {
    |now| == |s|
    && now[Start(|s|, size, i)..Start(|s|, size, i) + |Kept(s, p, size, i)|] == Kept(s, p, size, i)
  }

  lemma {:induction false} StartMonotone(n: nat, size: nat, i: nat, j: nat)
    requires i <= j
    ensures Start(n, size, i) <= Start(n, size, j)
    decreases j - i
  {
    if i < j {
      StartStep(n, size, i);
      StartMonotone(n, size, i + 1, j);
    }
  }

  /** Compacting a later block leaves an earlier one as it is. */
  lemma CompactStays<T>(s: seq<T>, p: T -> bool, size: nat, was: seq<T>, now: seq<T>, i: nat, k: nat)
    requires k < i && CompactAt(s, p, size, was, k) && |now| == |was|
    requires forall x :: 0 <= x < Start(|s|, size, i) ==> now[x] == was[x]
    ensures CompactAt(s, p, size, now, k)
  {
    StartMonotone(|s|, size, k + 1, i);
  }

  /** The first blocks are compacted, the values from block i on untouched. */
  ghost predicate CompactedTo<T>(s: seq<T>, p: T -> bool, size: nat, now: seq<T>, counts: seq<nat>) {
    && |now| == |s|
    && (forall k :: 0 <= k < |counts| ==> counts[k] == |Kept(s, p, size, k)| && CompactAt(s, p, size, now, k))
    && (forall x :: Start(|s|, size, |counts|) <= x < |s| ==> now[x] == s[x])
  }

  lemma CompactNext<T>(s: seq<T>, p: T -> bool, size: nat, was: seq<T>, now: seq<T>, counts: seq<nat>, count: nat)
    requires CompactedTo(s, p, size, was, counts) && |now| == |s|
    requires var i := |counts|;
      && Start(|s|, size, i) <= Start(|s|, size, i + 1)
      && (forall x :: 0 <= x < |s| && !(Start(|s|, size, i) <= x < Start(|s|, size, i + 1)) ==> now[x] == was[x])
      && count == |Kept(s, p, size, i)|
      && now[Start(|s|, size, i)..Start(|s|, size, i) + count] == Kept(s, p, size, i)
    ensures CompactedTo(s, p, size, now, counts + [count])
  {
    hide Kept, Filtered;
    forall k | 0 <= k < |counts| ensures CompactAt(s, p, size, now, k) {
      CompactStays(s, p, size, was, now, |counts|, k);
    }
  }

  /** All blocks compacted in place, with their counts.  A block that would start past the
   *  end is empty. */
  method CompactBlocks<T>(input: array<T>, n: nat, p: T -> bool, size: nat, l: nat) returns (counts: seq<nat>)
    requires n <= input.Length
    modifies input
    ensures |counts| == l
    ensures forall i :: 0 <= i < l ==> counts[i] == |Kept(old(input[..n]), p, size, i)|
    ensures forall i :: 0 <= i < l ==> CompactAt(old(input[..n]), p, size, input[..n], i)
  {
    hide CompactedTo, CompactAt, Filtered;
    ghost var s := input[..n];
    counts := [];
    StartCompact(s, p, size);
    for i := 0 to l
      invariant |counts| == i && CompactedTo(s, p, size, input[..n], counts)
    {
      StartStep(n, size, i);
      var start := Min(i * size, n);
      var end := Min(i * size + size, n);
      ghost var was := input[..n];
      UntouchedBlock(s, p, size, was, counts);
      assert input[start..end] == was[start..end];
      var count := CompactBlock(input, start, end, p);
      assert input[..n][start..start + count] == input[start..start + count];
      CompactNext(s, p, size, was, input[..n], counts, count);
      counts := counts + [count];
    }
    AllCompact(s, p, size, input[..n], counts);
  }

  lemma StartCompact<T>(s: seq<T>, p: T -> bool, size: nat)
    ensures CompactedTo(s, p, size, s, [])
  {
  }

  lemma UntouchedBlock<T>(s: seq<T>, p: T -> bool, size: nat, now: seq<T>, counts: seq<nat>)
    requires CompactedTo(s, p, size, now, counts)
    ensures Start(|s|, size, |counts|) <= Start(|s|, size, |counts| + 1) <= |now|
    ensures now[Start(|s|, size, |counts|)..Start(|s|, size, |counts| + 1)] == Block(s, size, |counts|)
  {
    hide CompactAt, Kept;
    StartStep(|s|, size, |counts|);
  }

  lemma AllCompact<T>(s: seq<T>, p: T -> bool, size: nat, now: seq<T>, counts: seq<nat>)
    requires CompactedTo(s, p, size, now, counts)
    ensures forall k :: 0 <= k < |counts| ==> counts[k] == |Kept(s, p, size, k)| && CompactAt(s, p, size, now, k)
  {
    hide CompactAt, Kept;
  }

  /** Exclusive prefix sums of the counts, in place. */
  method ScanCounts<T>(ghost s: seq<T>, ghost p: T -> bool, ghost size: nat, counts: seq<nat>)
    returns (offsets: seq<nat>, m: nat)
    requires forall i :: 0 <= i < |counts| ==> counts[i] == |Kept(s, p, size, i)|
    ensures |offsets| == |counts|
    ensures forall i :: 0 <= i < |offsets| ==> offsets[i] == |Filtered(s[..Start(|s|, size, i)], p)|
    ensures m == |Filtered(s[..Start(|s|, size, |counts|)], p)|
  {
    offsets, m := [], 0;
    StartStep(|s|, size, 0);
    for i := 0 to |counts|
      invariant |offsets| == i && m == |Filtered(s[..Start(|s|, size, i)], p)|
      invariant forall k :: 0 <= k < i ==> offsets[k] == |Filtered(s[..Start(|s|, size, k)], p)|
    {
      FilterStep(s, p, size, i);
      offsets := offsets + [m];
      m := m + counts[i];
    }
  }

  /** Copy a run of values. */
  method CopyRun<T>(input: array<T>, from: nat, out: array<T>, at: nat, count: nat)
    requires input != out && at + count <= out.Length && (count > 0 ==> from + count <= input.Length)
    modifies out
    ensures count > 0 ==> out[at..at + count] == input[from..from + count]
    ensures forall x :: 0 <= x < out.Length && !(at <= x < at + count) ==> out[x] == old(out[x])
  {
    for j := 0 to count
      invariant j > 0 ==> out[at..at + j] == input[from..from + j]
      invariant forall x :: 0 <= x < out.Length && !(at <= x < at + j) ==> out[x] == old(out[x])
    {
      out[at + j] := input[from + j];
    }
  }

  /** The rounded-up block size covers all items with l blocks. */
  lemma RoundedCovers(n: nat, l: nat)
    requires n >= 1 && l >= 1
    ensures Start(n, NumBlocks(n, l), l) == n
  {
    assert n - 1 == (n - 1) / l * l + (n - 1) % l;
    assert l * NumBlocks(n, l) == (n - 1) / l * l + l;
  }

  /** filterf: compact the blocks of the input in place, then move each to its offset. */
  method FilterF<T>(input: array<T>, out: array<T>, n: nat, p: T -> bool) returns (m: nat)
    requires input != out && n <= input.Length && |Filtered(input[..n], p)| <= out.Length
    modifies input, out
    ensures m == |Filtered(old(input[..n]), p)| <= out.Length && out[..m] == Filtered(old(input[..n]), p)
    ensures exists at :: Picks(old(input[..n]), out[..m], at) && forall i :: i in at <==> 0 <= i < n && p(old(input[..n])[i])
  {
    ghost var at := FilteredMeans(input[..n], p);
    if n < FILTER_BLOCK {
      m := FilterSerial(input, out, n, p);
      return;
    }
    var l := NumBlocks(n, FILTER_BLOCK);
    var size := NumBlocks(n, l);
    ghost var s := input[..n];
    RoundedCovers(n, l);
    assert s[..n] == s;
    var counts := CompactBlocks(input, n, p, size, l);
    var offsets, total := ScanCounts(s, p, size, counts);
    m := total;
    GatherBlocks(input, out, n, p, size, s, counts, offsets);
  }

  method GatherBlocks<T>(input: array<T>, out: array<T>, n: nat, ghost p: T -> bool, size: nat, ghost s: seq<T>,
                         counts: seq<nat>, offsets: seq<nat>)
    requires input != out && n <= input.Length && |s| == n && |Filtered(s, p)| <= out.Length && |offsets| == |counts|
    requires forall i :: 0 <= i < |counts| ==> counts[i] == |Kept(s, p, size, i)| && CompactAt(s, p, size, input[..n], i)
    requires forall i :: 0 <= i < |offsets| ==> offsets[i] == |Filtered(s[..Start(n, size, i)], p)|
    modifies out
    ensures |Filtered(s[..Start(n, size, |counts|)], p)| <= out.Length
    ensures out[..|Filtered(s[..Start(n, size, |counts|)], p)|] == Filtered(s[..Start(n, size, |counts|)], p)
  {
    StartStep(n, size, 0);
    for i := 0 to |counts|
      invariant |Filtered(s[..Start(n, size, i)], p)| <= out.Length
      invariant out[..|Filtered(s[..Start(n, size, i)], p)|] == Filtered(s[..Start(n, size, i)], p)
    {
      GatherOne(input, out, n, p, size, s, i, counts[i], offsets[i]);
    }
  }

  method GatherOne<T>(input: array<T>, out: array<T>, n: nat, ghost p: T -> bool, size: nat, ghost s: seq<T>, i: nat,
                      count: nat, offset: nat)
    requires input != out && n <= input.Length && |s| == n && |Filtered(s, p)| <= out.Length
    requires count == |Kept(s, p, size, i)| && CompactAt(s, p, size, input[..n], i)
    requires offset == |Filtered(s[..Start(n, size, i)], p)| <= out.Length
    requires out[..offset] == Filtered(s[..Start(n, size, i)], p)
    modifies out
    ensures |Filtered(s[..Start(n, size, i + 1)], p)| <= out.Length
    ensures out[..|Filtered(s[..Start(n, size, i + 1)], p)|] == Filtered(s[..Start(n, size, i + 1)], p)
  {
    hide Filtered;
    StartStep(n, size, i);
    FilterStep(s, p, size, i);
    FilteredPrefix(s, p, Start(n, size, i + 1));
    ghost var was, kept := out[..offset], Kept(s, p, size, i);
    assert count > 0 ==> Start(n, size, i) == i * size;
    CopyRun(input, i * size, out, offset, count);
    assert out[..offset] == was;
    assert count > 0 ==> out[offset..offset + count] == input[..n][i * size..i * size + count];
    assert out[..offset + count] == out[..offset] + out[offset..offset + count];
  }
}
