/** Scanning the edges of the active vertices, directly and grouped by page
 * (include/bw_graph/algo/edge_scan.h). */
module EdgeScan {
  import opened Selection

  /** An active vertex and the page that stores it. */
  datatype Item = Item(src: nat, page: nat)

  /** Bits of one word of the active bitmap. */
  const WORD := 64

  type Bitmap = seq<seq<bool>>

  predicate BitmapOk(words: Bitmap, n: nat) {
    |words| == (n + WORD - 1) / WORD && forall w :: 0 <= w < |words| ==> |words[w]| == WORD
  }

  // ---------------------------------------------------------------------------
  // Which vertices are active

  /** The active vertices of one word from bit b on, in ascending order. */
  function WordFrom(word: seq<bool>, base: nat, n: nat, b: nat): seq<nat>
    requires |word| == WORD && b <= WORD
    decreases WORD - b
  {
    if b == WORD || base + b >= n then []
    else (if word[b] then [base + b] else []) + WordFrom(word, base, n, b + 1)
  }

  /** The active vertices of the first words. */
  function ActiveTo(words: Bitmap, n: nat, w: nat): seq<nat>
    requires w <= |words| && forall i :: 0 <= i < |words| ==> |words[i]| == WORD
  {
    if w == 0 then [] else ActiveTo(words, n, w - 1) + WordFrom(words[w - 1], (w - 1) * WORD, n, 0)
  }

  lemma RisingConcat(a: seq<nat>, b: seq<nat>, mid: nat)
    requires Rising(a) && Rising(b) && (forall v :: v in a ==> v < mid) && forall v :: v in b ==> mid <= v
    ensures Rising(a + b)
  {
    assert forall i :: 0 <= i < |a| ==> a[i] in a;
    assert forall i :: 0 <= i < |b| ==> b[i] in b;
  }

  lemma {:induction false} WordHas(word: seq<bool>, base: nat, n: nat, b: nat, v: nat)
    requires |word| == WORD && b <= WORD
    ensures v in WordFrom(word, base, n, b) <==> base + b <= v < base + WORD && v < n && word[v - base]
    decreases WORD - b
  {
    if b < WORD && base + b < n {
      WordHas(word, base, n, b + 1, v);
    }
  }

  lemma {:induction false} WordRises(word: seq<bool>, base: nat, n: nat, b: nat)
    requires |word| == WORD && b <= WORD
    ensures Rising(WordFrom(word, base, n, b))
    decreases WORD - b
  {
    hide Rising;
    if b < WORD && base + b < n {
      var rest := WordFrom(word, base, n, b + 1);
      WordRises(word, base, n, b + 1);
      WordAbove(word, base, n, b + 1);
      OneRises(base + b);
      RisingConcat([base + b], rest, base + b + 1);
      assert [] + rest == rest;
    } else {
      NoneRise();
    }
  }

  lemma WordAbove(word: seq<bool>, base: nat, n: nat, b: nat)
    requires |word| == WORD && b <= WORD
    ensures forall v :: v in WordFrom(word, base, n, b) ==> base + b <= v
  {
    hide WordFrom;
    forall v | v in WordFrom(word, base, n, b) ensures base + b <= v {
      WordHas(word, base, n, b, v);
    }
  }

  lemma WordMeans(word: seq<bool>, base: nat, n: nat, b: nat)
    requires |word| == WORD && b <= WORD
    ensures Rising(WordFrom(word, base, n, b))
    ensures forall v :: v in WordFrom(word, base, n, b) <==> base + b <= v < base + WORD && v < n && word[v - base]
  {
    hide WordFrom, Rising;
    WordRises(word, base, n, b);
    forall v: nat
      ensures v in WordFrom(word, base, n, b) <==> base + b <= v < base + WORD && v < n && word[v - base]
    {
      WordHas(word, base, n, b, v);
    }
  }

  lemma OneRises(v: nat)
    ensures Rising([v])
  {
  }

  lemma NoneRise()
    ensures Rising([])
  {
  }

  lemma WordOf(v: nat, w: nat)
    ensures v / WORD == w <==> w * WORD <= v < w * WORD + WORD
    ensures v / WORD == w ==> v % WORD == v - w * WORD
  {
  }

  lemma {:induction false} ActiveHas(words: Bitmap, n: nat, w: nat, v: nat)
    requires BitmapOk(words, n) && w <= |words|
    ensures v in ActiveTo(words, n, w) <==> v < n && v / WORD < w && words[v / WORD][v % WORD]
  {
    hide WordFrom;
    if w > 0 {
      ActiveHas(words, n, w - 1, v);
      WordMeans(words[w - 1], (w - 1) * WORD, n, 0);
      WordOf(v, w - 1);
    }
  }

  lemma {:induction false} ActiveRises(words: Bitmap, n: nat, w: nat)
    requires BitmapOk(words, n) && w <= |words|
    ensures Rising(ActiveTo(words, n, w)) && forall v :: v in ActiveTo(words, n, w) ==> v < w * WORD
  {
    hide WordFrom;
    if w > 0 {
      ActiveRises(words, n, w - 1);
      WordMeans(words[w - 1], (w - 1) * WORD, n, 0);
      RisingConcat(ActiveTo(words, n, w - 1), WordFrom(words[w - 1], (w - 1) * WORD, n, 0), (w - 1) * WORD);
    }
  }

  /** The vertices whose bits are set, in ascending order. */
  lemma ActiveMeans(words: Bitmap, n: nat)
    requires BitmapOk(words, n)
    ensures Rising(ActiveTo(words, n, |words|))
    ensures forall v: nat :: v in ActiveTo(words, n, |words|) <==> v < n && words[v / WORD][v % WORD]
  {
    hide ActiveTo;
    ActiveRises(words, n, |words|);
    forall v: nat
      ensures v in ActiveTo(words, n, |words|) <==> v < n && words[v / WORD][v % WORD]
    {
      ActiveHas(words, n, |words|, v);
    }
  }

  /** __builtin_ctzll: the lowest set bit. */
  method LowestBit(word: seq<bool>) returns (b: nat)
    requires |word| == WORD && true in word
    ensures b < WORD && word[b] && forall i :: 0 <= i < b ==> !word[i]
  {
    b := 0;
    while !word[b]
      invariant b < WORD && true in word[b..]
      invariant forall i :: 0 <= i < b ==> !word[i]
      decreases WORD - b
    {
      assert word[b..] == [word[b]] + word[b + 1..];
      b := b + 1;
    }
  }

  /** A word whose bits below b are clear. */
  lemma {:induction false} SkipClear(word: seq<bool>, base: nat, n: nat, a: nat, b: nat)
    requires |word| == WORD && a <= b <= WORD && forall i :: a <= i < b ==> !word[i]
    ensures base + b <= n || b == WORD ==> WordFrom(word, base, n, a) == WordFrom(word, base, n, b)
    ensures base + b >= n ==> WordFrom(word, base, n, a) == []
    decreases b - a
  {
    if a < b {
      SkipClear(word, base, n, a + 1, b);
    }
  }

  /** Testing every bit in turn (bw_edge_scan). */
  method ActiveByTest(words: Bitmap, n: nat) returns (list: seq<nat>)
    requires BitmapOk(words, n)
    ensures list == ActiveTo(words, n, |words|)
    ensures Rising(list) && forall v: nat :: v in list <==> v < n && words[v / WORD][v % WORD]
  {
    ActiveMeans(words, n);
    list := [];
    for w := 0 to |words|
      invariant list == ActiveTo(words, n, w)
    {
      var found := TestWord(words[w], w * WORD, n);
      list := list + found;
    }
  }

  method TestWord(word: seq<bool>, base: nat, n: nat) returns (list: seq<nat>)
    requires |word| == WORD
    ensures list == WordFrom(word, base, n, 0)
  {
    hide WordFrom;
    list := [];
    var bit := 0;
    while bit < WORD
      invariant 0 <= bit <= WORD
      invariant WordFrom(word, base, n, 0) == list + WordFrom(word, base, n, bit)
    {
      if word[bit] {
        var src := base + bit;
        if src >= n {
          break;
        }
        list := list + [src];
      }
      StepBit(word, base, n, bit);
      bit := bit + 1;
    }
    BeyondEnd(word, base, n, bit);
  }

  lemma BeyondEnd(word: seq<bool>, base: nat, n: nat, b: nat)
    requires |word| == WORD && b <= WORD
    ensures b == WORD || base + b >= n ==> WordFrom(word, base, n, b) == []
  {
  }

  lemma StepBit(word: seq<bool>, base: nat, n: nat, b: nat)
    requires |word| == WORD && b < WORD && (word[b] ==> base + b < n)
    ensures WordFrom(word, base, n, b) == (if word[b] then [base + b] else []) + WordFrom(word, base, n, b + 1)
  {
    if base + b >= n {
      SkipClear(word, base, n, b, b + 1);
    }
  }

  /** Taking the lowest set bit until none is left (bw_page_local_edge_scan). */
  method ActiveByBits(words: Bitmap, n: nat) returns (list: seq<nat>)
    requires BitmapOk(words, n)
    ensures list == ActiveTo(words, n, |words|)
    ensures Rising(list) && forall v: nat :: v in list <==> v < n && words[v / WORD][v % WORD]
  {
    ActiveMeans(words, n);
    list := [];
    for w := 0 to |words|
      invariant list == ActiveTo(words, n, w)
    {
      var found := BitsOfWord(words[w], w * WORD, n);
      list := list + found;
    }
  }

  lemma StepBit'(word: seq<bool>, base: nat, n: nat, b: nat)
    requires |word| == WORD && b < WORD && word[b]
    ensures base + b < n ==> WordFrom(word, base, n, b) == [base + b] + WordFrom(word, base, n, b + 1)
  {
  }

  method BitsOfWord(bits: seq<bool>, base: nat, n: nat) returns (list: seq<nat>)
    requires |bits| == WORD
    ensures list == WordFrom(bits, base, n, 0)
  {
    hide WordFrom;
    list := [];
    var word := bits;
    ghost var from := 0;
    while true in word
      invariant |word| == WORD && from <= WORD
      invariant forall i :: 0 <= i < WORD ==> word[i] == (bits[i] && i >= from)
      invariant WordFrom(bits, base, n, 0) == list + WordFrom(bits, base, n, from)
      decreases WORD - from
    {
      var bit := LowestBit(word);
      assert bit >= from;
      var src := base + bit;
      SkipClear(bits, base, n, from, bit);
      StepBit'(bits, base, n, bit);
      if src >= n {
        return;
      }
      list := list + [src];
      word := word[bit := false];
      from := bit + 1;
    }
    NoneLeft(bits, base, n, from, word);
  }

  lemma NoneLeft(bits: seq<bool>, base: nat, n: nat, from: nat, word: seq<bool>)
    requires |bits| == |word| == WORD && from <= WORD && true !in word
    requires forall i :: 0 <= i < WORD ==> word[i] == (bits[i] && i >= from)
    ensures WordFrom(bits, base, n, from) == []
  {
    forall i | from <= i < WORD ensures !bits[i] {
      assert word[i] in word;
    }
    SkipClear(bits, base, n, from, WORD);
  }

  // ---------------------------------------------------------------------------
  // Edges

  type Adj = seq<seq<nat>>

  /** The edges of one vertex. */
  function Pairs(src: nat, neighbors: seq<nat>): (pairs: seq<(nat, nat)>)
    ensures |pairs| == |neighbors|
  {
    if neighbors == [] then []
    else Pairs(src, neighbors[..|neighbors| - 1]) + [(src, neighbors[|neighbors| - 1])]
  }

  function Neighbors(adj: Adj, v: nat): seq<nat> {
    if v < |adj| then adj[v] else []
  }

  /** The edges of a list of vertices. */
  function EdgesOf(adj: Adj, list: seq<nat>): seq<(nat, nat)> {
    if list == [] then []
    else EdgesOf(adj, list[..|list| - 1]) + Pairs(list[|list| - 1], Neighbors(adj, list[|list| - 1]))
  }

  lemma {:induction false} PairsMean(src: nat, neighbors: seq<nat>, u: nat, v: nat)
    ensures multiset(Pairs(src, neighbors))[(u, v)] == if u == src then multiset(neighbors)[v] else 0
  {
    if neighbors != [] {
      var front, last := neighbors[..|neighbors| - 1], neighbors[|neighbors| - 1];
      assert neighbors == front + [last];
      PairsMean(src, front, u, v);
    }
  }

  lemma {:induction false} EdgesMean(adj: Adj, list: seq<nat>, u: nat, v: nat)
    requires Rising(list)
    ensures multiset(EdgesOf(adj, list))[(u, v)] == if u in list && u < |adj| then multiset(adj[u])[v] else 0
  {
    hide Pairs;
    if list != [] {
      var front, last := list[..|list| - 1], list[|list| - 1];
      assert list == front + [last];
      EdgesMean(adj, front, u, v);
      PairsMean(last, Neighbors(adj, last), u, v);
      assert last !in front;
    }
  }

  /** Process the edges of one vertex. */
  method ProcessVertex(adj: Adj, src: nat, done: seq<(nat, nat)>) returns (pairs: seq<(nat, nat)>)
    requires src < |adj|
    ensures pairs == done + Pairs(src, adj[src])
  {
    pairs := done;
    for j := 0 to |adj[src]|
      invariant pairs == done + Pairs(src, adj[src][..j])
    {
      assert adj[src][..j + 1][..j] == adj[src][..j];
      pairs := pairs + [(src, adj[src][j])];
    }
    assert adj[src][..|adj[src]|] == adj[src];
  }

  lemma ActiveInside(words: Bitmap, n: nat, w: nat)
    requires BitmapOk(words, n) && w <= |words|
    ensures forall v :: v in ActiveTo(words, n, w) ==> v < n
  {
    if w > 0 {
      ActiveInside(words, n, w - 1);
      WordInside(words[w - 1], (w - 1) * WORD, n, 0);
    }
  }

  lemma {:induction false} WordInside(word: seq<bool>, base: nat, n: nat, b: nat)
    requires |word| == WORD && b <= WORD
    ensures forall v :: v in WordFrom(word, base, n, b) ==> v < n
    decreases WORD - b
  {
    if b < WORD && base + b < n {
      WordInside(word, base, n, b + 1);
    }
  }

  /** The direct scan: every edge of every active vertex, in order. */
  method DirectScan(adj: Adj, words: Bitmap) returns (pairs: seq<(nat, nat)>)
    requires BitmapOk(words, |adj|)
    ensures pairs == EdgesOf(adj, ActiveTo(words, |adj|, |words|))
    ensures forall u: nat, v: nat ::
      multiset(pairs)[(u, v)] == if u < |adj| && words[u / WORD][u % WORD] then multiset(adj[u])[v] else 0
  {
    hide ActiveTo, Pairs, EdgesOf;
    var list := ActiveByTest(words, |adj|);
    ActiveInside(words, |adj|, |words|);
    pairs := [];
    NoEdges(adj);
    assert list[..0] == [];
    for i := 0 to |list|
      invariant pairs == EdgesOf(adj, list[..i])
    {
      assert list[..i + 1][..i] == list[..i] && list[i] in list;
      EdgesSnoc(adj, list[..i], list[i]);
      assert list[..i + 1] == list[..i] + [list[i]];
      pairs := ProcessVertex(adj, list[i], pairs);
    }
    assert list[..|list|] == list;
    forall u: nat, v: nat
      ensures multiset(pairs)[(u, v)] == if u < |adj| && words[u / WORD][u % WORD] then multiset(adj[u])[v] else 0
    {
      EdgesMean(adj, list, u, v);
    }
  }

  // ---------------------------------------------------------------------------
  // Grouping by page

  /** The items of page p among the first ones, in order. */
  function OfPage(items: seq<Item>, p: nat): (r: seq<Item>)
    ensures |r| <= |items|
  {
    if items == [] then []
    else OfPage(items[..|items| - 1], p) + if items[|items| - 1].page == p then [items[|items| - 1]] else []
  }

  /** Items on pages below p. */
  function Below(items: seq<Item>, p: nat): nat {
    if p == 0 then 0 else Below(items, p - 1) + |OfPage(items, p - 1)|
  }

  /** The items of page p, each once, in the order of the list. */
  lemma {:induction false} OfPageMeans(items: seq<Item>, p: nat) returns (at: seq<nat>)
    ensures Picks(items, OfPage(items, p), at)
    ensures forall i :: i in at <==> 0 <= i < |items| && items[i].page == p
  {
    at := [];
    if items != [] {
      var front, last := items[..|items| - 1], items[|items| - 1];
      assert items == front + [last];
      var before := OfPageMeans(front, p);
      at := PicksSnoc(front, OfPage(front, p), before, last, last.page == p);
    }
  }

  /** How many items lie on pages below p. */
  lemma {:induction false} BelowMeans(items: seq<Item>, p: nat) returns (at: seq<nat>)
    ensures Rising(at) && |at| == Below(items, p)
    ensures forall i :: i in at <==> 0 <= i < |items| && items[i].page < p
  {
    at := [];
    if items == [] {
      BelowNone(p);
    } else {
      var front, last := items[..|items| - 1], items[|items| - 1];
      assert items == front + [last];
      var before := BelowMeans(front, p);
      BelowSnoc(front, last, p);
      at := before + if last.page < p then [|front|] else [];
      assert forall k :: 0 <= k < |before| ==> before[k] in before;
    }
  }

  lemma OfPageSnoc(items: seq<Item>, i: nat, p: nat)
    requires i < |items|
    ensures OfPage(items[..i + 1], p) == OfPage(items[..i], p) + if items[i].page == p then [items[i]] else []
  {
    assert items[..i + 1][..i] == items[..i];
  }

  lemma {:induction false} OfPagePrefix(items: seq<Item>, i: nat, p: nat)
    requires i <= |items|
    ensures OfPage(items[..i], p) <= OfPage(items, p)
    decreases |items| - i
  {
    if i == |items| {
      assert items[..i] == items;
    } else {
      OfPageSnoc(items, i, p);
      OfPagePrefix(items, i + 1, p);
    }
  }

  lemma {:induction false} BelowRises(items: seq<Item>, p: nat, q: nat)
    requires p <= q
    ensures Below(items, p) <= Below(items, q)
    decreases q - p
  {
    if p < q {
      BelowRises(items, p, q - 1);
    }
  }

  /** All items lie on pages below the page count, so they are all counted. */
  lemma {:induction false} BelowAll(items: seq<Item>, pages: nat)
    requires forall x :: x in items ==> x.page < pages
    ensures Below(items, pages) == |items|
  {
    if items == [] {
      BelowNone(pages);
    } else {
      var front, last := items[..|items| - 1], items[|items| - 1];
      assert items == front + [last];
      BelowAll(front, pages);
      BelowSnoc(front, last, pages);
    }
  }

  lemma {:induction false} BelowNone(pages: nat)
    ensures Below([], pages) == 0
  {
    if pages > 0 {
      BelowNone(pages - 1);
    }
  }

  lemma {:induction false} BelowSnoc(front: seq<Item>, last: Item, pages: nat)
    ensures Below(front + [last], pages) == Below(front, pages) + if last.page < pages then 1 else 0
  {
    if pages > 0 {
      BelowSnoc(front, last, pages - 1);
      assert (front + [last])[..|front|] == front;
    }
  }

  /** page_counts. */
  method CountPages(items: seq<Item>, pages: nat) returns (counts: array<nat>)
    requires forall x :: x in items ==> x.page < pages
    ensures fresh(counts) && counts.Length == pages
    ensures forall p :: 0 <= p < pages ==> counts[p] == |OfPage(items, p)|
  {
    counts := new nat[pages](p => 0);
    for i := 0 to |items|
      invariant forall p :: 0 <= p < pages ==> counts[p] == |OfPage(items[..i], p)|
    {
      assert items[i] in items;
      forall p ensures OfPage(items[..i + 1], p) == OfPage(items[..i], p) + if items[i].page == p then [items[i]] else [] {
        OfPageSnoc(items, i, p);
      }
      counts[items[i].page] := counts[items[i].page] + 1;
    }
    assert items[..|items|] == items;
  }

  lemma BelowNext(items: seq<Item>, p: nat)
    ensures Below(items, p + 1) == Below(items, p) + |OfPage(items, p)|
  {
  }

  lemma BelowFirst(items: seq<Item>)
    ensures Below(items, 0) == 0
  {
  }

  /** page_offsets: prefix sums. */
  method PrefixSums(items: seq<Item>, counts: array<nat>) returns (offsets: array<nat>)
    requires forall p :: 0 <= p < counts.Length ==> counts[p] == |OfPage(items, p)|
    ensures fresh(offsets) && offsets.Length == counts.Length + 1
    ensures forall p :: 0 <= p <= counts.Length ==> offsets[p] == Below(items, p)
  {
    hide OfPage, Below;
    offsets := new nat[counts.Length + 1](p => 0);
    BelowFirst(items);
    for p := 0 to counts.Length
      invariant forall q :: 0 <= q <= p ==> offsets[q] == Below(items, q)
    {
      BelowNext(items, p);
      offsets[p + 1] := offsets[p] + counts[p];
    }
  }

  /** The first i items stand in the ranges of their pages, in order. */
  ghost predicate Placed(items: seq<Item>, i: nat, cursors: seq<nat>, grouped: seq<Item>, p: nat)
    requires i <= |items|
  {
    && p < |cursors| && cursors[p] == Below(items, p) + |OfPage(items[..i], p)| <= |grouped|
    && grouped[Below(items, p)..cursors[p]] == OfPage(items[..i], p)
  }

  lemma PlaceSame(items: seq<Item>, i: nat, cursors: seq<nat>, grouped: seq<Item>, pages: nat)
    requires i < |items| == |grouped| && (forall x :: x in items ==> x.page < pages)
    requires items[i].page < pages <= |cursors| && Placed(items, i, cursors, grouped, items[i].page)
    ensures var q := items[i].page;
      && cursors[q] < Below(items, q + 1) <= |grouped|
      && Placed(items, i + 1, cursors[q := cursors[q] + 1], grouped[cursors[q] := items[i]], q)
  {
    hide OfPage;
    var q := items[i].page;
    OfPageSnoc(items, i, q);
    OfPagePrefix(items, i + 1, q);
    BelowAll(items, pages);
    BelowRises(items, q + 1, pages);
  }

  lemma PlaceOther(items: seq<Item>, i: nat, cursors: seq<nat>, grouped: seq<Item>, q: nat, at: nat, p: nat)
    requires i < |items| == |grouped| && p != q == items[i].page && q < |cursors|
    requires Placed(items, i, cursors, grouped, p) && Below(items, q) <= at < Below(items, q + 1) <= |grouped|
    ensures Placed(items, i + 1, cursors[q := at + 1], grouped[at := items[i]], p)
  {
    hide OfPage;
    OfPageSnoc(items, i, p);
    OfPagePrefix(items, i, p);
    if p < q {
      BelowRises(items, p + 1, q);
    } else {
      BelowRises(items, q + 1, p);
    }
  }

  lemma PlaceOne(items: seq<Item>, i: nat, cursors: seq<nat>, grouped: seq<Item>, pages: nat, p: nat)
    requires i < |items| == |grouped| && (forall x :: x in items ==> x.page < pages) && p < pages
    requires Placed(items, i, cursors, grouped, p) && Placed(items, i, cursors, grouped, items[i].page)
    requires |cursors| >= pages && items[i].page < pages
    ensures cursors[items[i].page] < |grouped|
    ensures var q := items[i].page;
      Placed(items, i + 1, cursors[q := cursors[q] + 1], grouped[cursors[q] := items[i]], p)
  {
    PlaceSame(items, i, cursors, grouped, pages);
    if p != items[i].page {
      CursorLow(items, i, cursors, grouped, items[i].page);
      hide Placed, OfPage, Below;
      PlaceOther(items, i, cursors, grouped, items[i].page, cursors[items[i].page], p);
    }
  }

  lemma CursorLow(items: seq<Item>, i: nat, cursors: seq<nat>, grouped: seq<Item>, q: nat)
    requires i <= |items| && Placed(items, i, cursors, grouped, q)
    ensures Below(items, q) <= cursors[q]
  {
  }

  /** grouped_vertices: a counting sort by page that keeps the order within a page. */
  method GroupByPage(items: seq<Item>, pages: nat) returns (grouped: array<Item>, offsets: array<nat>)
    requires forall x :: x in items ==> x.page < pages
    ensures grouped.Length == |items| && offsets.Length == pages + 1
    ensures forall p :: 0 <= p <= pages ==> offsets[p] == Below(items, p) <= |items|
    ensures forall p :: 0 <= p < pages ==> RangeOk(items, grouped[..], offsets[..], p)
  {
    hide Placed, OfPage, Below;
    var counts := CountPages(items, pages);
    offsets := PrefixSums(items, counts);
    var cursors := new nat[pages + 1](p => 0);
    ghost var prefix := offsets[..];
    for p := 0 to pages + 1
      invariant forall q :: 0 <= q < p ==> cursors[q] == offsets[q]
      invariant offsets[..] == prefix
    {
      cursors[p] := offsets[p];
    }
    assert forall p :: 0 <= p <= pages ==> offsets[p] == prefix[p];
    grouped := new Item[|items|](i => Item(0, 0));
    StartPlaced(items, cursors[..], grouped[..], pages);
    ghost var sums := offsets[..];
    for i := 0 to |items|
      invariant AllPlaced(items, i, cursors[..], grouped[..], pages) && offsets[..] == sums
    {
      assert items[i] in items;
      var q := items[i].page;
      ghost var was, before := cursors[..], grouped[..];
      PlaceNext(items, i, was, before, pages);
      grouped[cursors[q]] := items[i];
      cursors[q] := cursors[q] + 1;
      assert cursors[..] == was[q := was[q] + 1] && grouped[..] == before[was[q] := items[i]];
    }
    EndPlaced(items, cursors[..], grouped[..], pages);
    assert forall p :: 0 <= p <= pages ==> offsets[p] == sums[p];
    forall p | 0 <= p < pages ensures RangeOk(items, grouped[..], offsets[..], p) {
      assert PageRange(items, grouped[..], p);
    }
  }

  /** The range of page p between its offset and the next holds its items, in order. */
  ghost predicate RangeOk(items: seq<Item>, grouped: seq<Item>, offsets: seq<nat>, p: nat) {
    && p + 1 < |offsets| && offsets[p] <= offsets[p + 1] <= |grouped|
    && grouped[offsets[p]..offsets[p + 1]] == OfPage(items, p)
  }

  ghost predicate AllPlaced(items: seq<Item>, i: nat, cursors: seq<nat>, grouped: seq<Item>, pages: nat)
    requires i <= |items|
  {
    forall p :: 0 <= p < pages ==> Placed(items, i, cursors, grouped, p)
  }

  /** Page p has its range. */
  ghost predicate PageRange(items: seq<Item>, grouped: seq<Item>, p: nat) {
    && Below(items, p) <= Below(items, p + 1) <= |grouped|
    && grouped[Below(items, p)..Below(items, p + 1)] == OfPage(items, p)
  }

  lemma StartPlaced(items: seq<Item>, cursors: seq<nat>, grouped: seq<Item>, pages: nat)
    requires |cursors| == pages + 1 && forall p :: 0 <= p <= pages ==> cursors[p] == Below(items, p)
    requires |grouped| == |items| && forall x :: x in items ==> x.page < pages
    ensures AllPlaced(items, 0, cursors, grouped, pages)
    ensures forall p :: 0 <= p <= pages ==> Below(items, p) <= |items|
  {
    BelowAll(items, pages);
    forall p | 0 <= p <= pages ensures Below(items, p) <= |items| {
      BelowRises(items, p, pages);
    }
  }

  lemma PlaceNext(items: seq<Item>, i: nat, cursors: seq<nat>, grouped: seq<Item>, pages: nat)
    requires i < |items| == |grouped| && (forall x :: x in items ==> x.page < pages) && |cursors| >= pages
    requires AllPlaced(items, i, cursors, grouped, pages)
    ensures var q := items[i].page;
      && q < pages && cursors[q] < |grouped|
      && AllPlaced(items, i + 1, cursors[q := cursors[q] + 1], grouped[cursors[q] := items[i]], pages)
  {
    hide Placed;
    assert items[i] in items;
    var q := items[i].page;
    PlaceOne(items, i, cursors, grouped, pages, q);
    var k, cursors', grouped' := i + 1, cursors[q := cursors[q] + 1], grouped[cursors[q] := items[i]];
    forall p | 0 <= p < pages ensures Placed(items, k, cursors', grouped', p) {
      PlaceOne(items, i, cursors, grouped, pages, p);
    }
  }

  lemma EndPlaced(items: seq<Item>, cursors: seq<nat>, grouped: seq<Item>, pages: nat)
    requires AllPlaced(items, |items|, cursors, grouped, pages)
    ensures forall p :: 0 <= p < pages ==> PageRange(items, grouped, p)
  {
    assert items[..|items|] == items;
    forall p | 0 <= p < pages ensures PageRange(items, grouped, p) {
      assert Placed(items, |items|, cursors, grouped, p);
    }
  }

  // ---------------------------------------------------------------------------
  // The page-local scan

  function Srcs(items: seq<Item>): (srcs: seq<nat>)
    ensures |srcs| == |items| && forall i :: 0 <= i < |items| ==> srcs[i] == items[i].src
  {
    seq(|items|, i requires 0 <= i < |items| => items[i].src)
  }

  /** The vertices stored on a page below the page count. */
  function OnPages(list: seq<nat>, pageOf: seq<nat>, pages: nat): seq<nat> {
    if list == [] then []
    else OnPages(list[..|list| - 1], pageOf, pages)
         + if list[|list| - 1] < |pageOf| && pageOf[list[|list| - 1]] < pages then [list[|list| - 1]] else []
  }

  lemma {:induction false} AllOnPages(list: seq<nat>, pageOf: seq<nat>, pages: nat)
    requires forall v :: v in list ==> v < |pageOf| && pageOf[v] < pages
    ensures OnPages(list, pageOf, pages) == list
  {
    if list != [] {
      var front, last := list[..|list| - 1], list[|list| - 1];
      assert list == front + [last] && last in list;
      assert forall v :: v in front ==> v in list;
      AllOnPages(front, pageOf, pages);
    }
  }

  /** The edges of all items, page after page. */
  function PagePairs(adj: Adj, items: seq<Item>, p: nat): seq<(nat, nat)> {
    if p == 0 then [] else PagePairs(adj, items, p - 1) + EdgesOf(adj, Srcs(OfPage(items, p - 1)))
  }

  lemma EdgesSnoc(adj: Adj, list: seq<nat>, v: nat)
    ensures EdgesOf(adj, list + [v]) == EdgesOf(adj, list) + Pairs(v, Neighbors(adj, v))
  {
    assert (list + [v])[..|list|] == list;
  }

  lemma PageOne(adj: Adj, front: seq<Item>, last: Item, p: nat)
    ensures EdgesOf(adj, Srcs(OfPage(front + [last], p)))
         == EdgesOf(adj, Srcs(OfPage(front, p))) + if last.page == p then Pairs(last.src, Neighbors(adj, last.src)) else []
  {
    hide EdgesOf;
    assert (front + [last])[..|front|] == front;
    var before := OfPage(front, p);
    if last.page == p {
      assert Srcs(before + [last]) == Srcs(before) + [last.src];
      EdgesSnoc(adj, Srcs(before), last.src);
    } else {
      assert OfPage(front + [last], p) == before + [] == before;
    }
  }

  lemma {:induction false} PagePairsSnoc(adj: Adj, front: seq<Item>, last: Item, pages: nat)
    ensures multiset(PagePairs(adj, front + [last], pages))
         == multiset(PagePairs(adj, front, pages))
            + if last.page < pages then multiset(Pairs(last.src, Neighbors(adj, last.src))) else multiset{}
  {
    hide EdgesOf, OfPage, Pairs;
    if pages > 0 {
      PagePairsSnoc(adj, front, last, pages - 1);
      PageOne(adj, front, last, pages - 1);
      MoreAtEnd(PagePairs(adj, front, pages - 1), PagePairs(adj, front + [last], pages - 1),
                EdgesOf(adj, Srcs(OfPage(front, pages - 1))), Pairs(last.src, Neighbors(adj, last.src)),
                last.page < pages - 1, last.page == pages - 1);
    }
  }

  /** Extra elements may come in either of two places. */
  lemma MoreAtEnd<T>(a: seq<T>, a': seq<T>, b: seq<T>, extra: seq<T>, early: bool, late: bool)
    requires multiset(a') == multiset(a) + (if early then multiset(extra) else multiset{}) && !(early && late)
    ensures multiset(a' + (b + if late then extra else []))
         == multiset(a + b) + if early || late then multiset(extra) else multiset{}
  {
  }

  lemma {:induction false} PagePairsNone(adj: Adj, pages: nat)
    ensures PagePairs(adj, [], pages) == []
  {
    if pages > 0 {
      PagePairsNone(adj, pages - 1);
    }
  }

  /** Grouping by page neither loses nor repeats an edge. */
  lemma {:induction false} PagePairsAll(adj: Adj, items: seq<Item>, pages: nat)
    requires forall x :: x in items ==> x.page < pages
    ensures multiset(PagePairs(adj, items, pages)) == multiset(EdgesOf(adj, Srcs(items)))
  {
    hide PagePairs, Pairs;
    if items == [] {
      PagePairsNone(adj, pages);
    } else {
      var front, last := items[..|items| - 1], items[|items| - 1];
      assert items == front + [last];
      PagePairsAll(adj, front, pages);
      PagePairsSnoc(adj, front, last, pages);
      assert Srcs(items) == Srcs(front) + [last.src];
      EdgesSnoc(adj, Srcs(front), last.src);
    }
  }

  /** The active vertices with their pages, as far as they are below the page count, and
   *  which pages have any. */
  method CollectItems(list: seq<nat>, pageOf: seq<nat>, pages: nat) returns (items: seq<Item>, seen: array<bool>)
    requires forall v :: v in list ==> v < |pageOf|
    ensures fresh(seen) && seen.Length == pages
    ensures Srcs(items) == OnPages(list, pageOf, pages)
    ensures forall x :: x in items ==> x.page < pages && x.src < |pageOf| && x.page == pageOf[x.src]
    ensures forall p :: 0 <= p < pages ==> (seen[p] <==> OfPage(items, p) != [])
  {
    hide OfPage;
    items := [];
    NoItems();
    seen := new bool[pages](p => false);
    for i := 0 to |list|
      invariant Srcs(items) == OnPages(list[..i], pageOf, pages)
      invariant forall x :: x in items ==> x.page < pages && x.src < |pageOf| && x.page == pageOf[x.src]
      invariant forall p :: 0 <= p < pages ==> (seen[p] <==> OfPage(items, p) != [])
    {
      assert list[i] in list && list[..i + 1][..i] == list[..i];
      var page := pageOf[list[i]];
      if page < pages {
        seen[page] := true;
        OneItem(items, Item(list[i], page));
        items := items + [Item(list[i], page)];
      }
    }
    assert list[..|list|] == list;
  }

  lemma OneItem(items: seq<Item>, x: Item)
    ensures Srcs(items + [x]) == Srcs(items) + [x.src]
    ensures forall p :: OfPage(items + [x], p) == OfPage(items, p) + if x.page == p then [x] else []
  {
    assert (items + [x])[..|items|] == items;
  }

  lemma NoItems()
    ensures forall p :: OfPage([], p) == []
  {
  }

  /** Page by page over the grouped vertices: the same edges as the direct scan, each as
   *  often, of the vertices whose page is below the page count. */
  method PageLocalScan(adj: Adj, words: Bitmap, pageOf: seq<nat>, pages: nat) returns (pairs: seq<(nat, nat)>)
    requires BitmapOk(words, |adj|) && |pageOf| == |adj|
    ensures multiset(pairs) == multiset(EdgesOf(adj, OnPages(ActiveTo(words, |adj|, |words|), pageOf, pages)))
    ensures forall u: nat, v: nat ::
      multiset(pairs)[(u, v)]
        == if u < |adj| && words[u / WORD][u % WORD] && pageOf[u] < pages then multiset(adj[u])[v] else 0
  {
    hide ActiveTo, OnPages, EdgesOf, OfPage, Pairs, Below, PagePairs;
    var list := ActiveByBits(words, |adj|);
    ActiveInside(words, |adj|, |words|);
    var items, seen := CollectItems(list, pageOf, pages);
    var grouped, offsets := GroupByPage(items, pages);
    OnPagesInside(list, pageOf, pages);
    ItemsInside(items, list, |adj|);
    pairs := ScanGroups(adj, items, grouped, offsets, seen, pages);
    PagePairsAll(adj, items, pages);
    OnPagesMeans(list, pageOf, pages);
    forall u: nat, v: nat
      ensures multiset(pairs)[(u, v)]
           == if u < |adj| && words[u / WORD][u % WORD] && pageOf[u] < pages then multiset(adj[u])[v] else 0
    {
      EdgesMean(adj, OnPages(list, pageOf, pages), u, v);
    }
  }

  lemma {:induction false} OnPagesMeans(list: seq<nat>, pageOf: seq<nat>, pages: nat)
    requires Rising(list)
    ensures Rising(OnPages(list, pageOf, pages))
    ensures forall v :: v in OnPages(list, pageOf, pages) <==> v in list && v < |pageOf| && pageOf[v] < pages
  {
    if list != [] {
      var front, last := list[..|list| - 1], list[|list| - 1];
      assert list == front + [last];
      OnPagesMeans(front, pageOf, pages);
      RisingConcat(OnPages(front, pageOf, pages), [last], last);
    }
  }

  lemma {:induction false} OnPagesInside(list: seq<nat>, pageOf: seq<nat>, pages: nat)
    ensures forall v :: v in OnPages(list, pageOf, pages) ==> v in list
  {
    if list != [] {
      OnPagesInside(list[..|list| - 1], pageOf, pages);
      assert list == list[..|list| - 1] + [list[|list| - 1]];
    }
  }

  lemma ItemsInside(items: seq<Item>, list: seq<nat>, n: nat)
    requires (forall v :: v in list ==> v < n) && forall v :: v in Srcs(items) ==> v in list
    ensures forall x :: x in items ==> x.src < n
  {
    forall x | x in items ensures x.src < n {
      var i :| 0 <= i < |items| && items[i] == x;
      assert Srcs(items)[i] in Srcs(items);
    }
  }

  method ScanGroups(adj: Adj, ghost items: seq<Item>, grouped: array<Item>, offsets: array<nat>, seen: array<bool>, pages: nat)
    returns (pairs: seq<(nat, nat)>)
    requires seen.Length == pages && offsets.Length == pages + 1 && |Srcs(items)| == |items|
    requires forall p :: 0 <= p < pages ==> (seen[p] <==> OfPage(items, p) != [])
    requires forall p :: 0 <= p < pages ==> RangeOk(items, grouped[..], offsets[..], p)
    requires forall x :: x in items ==> x.src < |adj|
    ensures pairs == PagePairs(adj, items, pages)
  {
    hide EdgesOf, OfPage, Pairs;
    pairs := [];
    for p := 0 to pages
      invariant pairs == PagePairs(adj, items, p)
    {
      OfPageInside(items, p);
      assert RangeOk(items, grouped[..], offsets[..], p);
      if seen[p] {
        assert grouped[..][offsets[p]..offsets[p + 1]] == grouped[offsets[p]..offsets[p + 1]];
        pairs := ScanGroup(adj, grouped[offsets[p]..offsets[p + 1]], pairs);
      } else {
        NoEdges(adj);
        assert Srcs([]) == [];
      }
    }
  }

  lemma NoEdges(adj: Adj)
    ensures EdgesOf(adj, []) == []
  {
  }

  lemma {:induction false} OfPageInside(items: seq<Item>, p: nat)
    ensures forall x :: x in OfPage(items, p) ==> x in items
  {
    if items != [] {
      OfPageInside(items[..|items| - 1], p);
      assert items == items[..|items| - 1] + [items[|items| - 1]];
    }
  }

  method ScanGroup(adj: Adj, group: seq<Item>, done: seq<(nat, nat)>) returns (pairs: seq<(nat, nat)>)
    requires forall x :: x in group ==> x.src < |adj|
    ensures pairs == done + EdgesOf(adj, Srcs(group))
  {
    hide Pairs, EdgesOf;
    pairs := done;
    NoEdges(adj);
    assert Srcs(group[..0]) == [];
    for i := 0 to |group|
      invariant pairs == done + EdgesOf(adj, Srcs(group[..i]))
    {
      assert group[i] in group;
      assert Srcs(group[..i + 1]) == Srcs(group[..i]) + [group[i].src];
      EdgesSnoc(adj, Srcs(group[..i]), group[i].src);
      pairs := ProcessVertex(adj, group[i].src, pairs);
    }
    assert group[..|group|] == group;
  }

  /** With every active vertex below the page count both scans process the same edges. */
  lemma ScansAgree(adj: Adj, words: Bitmap, pageOf: seq<nat>, pages: nat, direct: seq<(nat, nat)>, local: seq<(nat, nat)>)
    requires BitmapOk(words, |adj|) && |pageOf| == |adj|
    requires forall v :: v in ActiveTo(words, |adj|, |words|) ==> v < |adj| && pageOf[v] < pages
    requires direct == EdgesOf(adj, ActiveTo(words, |adj|, |words|))
    requires multiset(local) == multiset(EdgesOf(adj, OnPages(ActiveTo(words, |adj|, |words|), pageOf, pages)))
    ensures multiset(local) == multiset(direct)
  {
    AllOnPages(ActiveTo(words, |adj|, |words|), pageOf, pages);
  }
}
