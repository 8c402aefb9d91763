/** Physical delta chains: records in delta pages (src/io_delta.cc), delta pages
 * chained per CSR page (src/page_map.cc), records chained per vertex
 * (src/db_dyn.cc).  A record is named by its page and index and never moves. */
module DeltaChain {
  import opened Replay
  import opened Consolidation

  datatype Loc = Loc(page: nat, idx: nat)

  /** `edge` is the EDGE target tag; `next` is the per-vertex link. */
  datatype Record = Record(edge: bool, kind: Kind, first: Vid, second: Vid, next: Option<Loc>)

  datatype DeltaPage = DeltaPage(records: seq<Record>, next: Option<nat>)

  type Pages = map<nat, DeltaPage>

  /** Page header and record size in bytes (three 64-bit words; 2+2+4+4+8+4+4 padded). */
  const HEADER_BYTES := 24
  const RECORD_BYTES := 32

  function UsedBytes(page: DeltaPage): nat {
    HEADER_BYTES + |page.records| * RECORD_BYTES
  }

  predicate InPages(pages: Pages, l: Loc) {
    l.page in pages && l.idx < |pages[l.page].records|
  }

  function Get(pages: Pages, l: Loc): Record
    requires InPages(pages, l)
  {
    pages[l.page].records[l.idx]
  }

  function OpOf(r: Record): Op {
    Op(r.second, r.kind)
  }

  function RecOf(r: Record): Rec {
    Rec(r.first, OpOf(r))
  }

  // ---------------------------------------------------------------------------
  // The chain of one vertex

  function Last<T>(s: seq<T>): Option<T> {
    if s == [] then None else Some(s[|s| - 1])
  }

  /** `locs`, oldest first, is the chain that starts at `head`: linked newest to
   *  oldest, without repetition, all about `v`. */
  ghost predicate ChainAt(pages: Pages, v: Vid, head: Option<Loc>, locs: seq<Loc>): (ok: bool)
    ensures ok ==> forall i :: 0 <= i < |locs| ==> InPages(pages, locs[i])
  {
    && head == Last(locs)
    && (forall i :: 0 <= i < |locs| ==> InPages(pages, locs[i]))
    && (forall i :: 0 <= i < |locs| ==> Linked(pages, v, locs, i))
    && (forall i, j :: 0 <= i < j < |locs| ==> locs[i] != locs[j])
  }

  ghost predicate Linked(pages: Pages, v: Vid, locs: seq<Loc>, i: nat)
    requires i < |locs|
  {
    && InPages(pages, locs[i])
    && Get(pages, locs[i]).edge && Get(pages, locs[i]).first == v
    && Get(pages, locs[i]).next == (if i == 0 then None else Some(locs[i - 1]))
  }

  ghost function Ops(pages: Pages, locs: seq<Loc>): (ops: seq<Op>)
    requires forall i :: 0 <= i < |locs| ==> InPages(pages, locs[i])
    ensures |ops| == |locs|
    ensures forall i :: 0 <= i < |locs| ==> ops[i] == OpOf(Get(pages, locs[i]))
  {
    if locs == [] then []
    else Ops(pages, locs[..|locs| - 1]) + [OpOf(Get(pages, locs[|locs| - 1]))]
  }

  lemma OpsExtensional(pages: Pages, locs: seq<Loc>, ops: seq<Op>)
    requires forall i :: 0 <= i < |locs| ==> InPages(pages, locs[i])
    requires |ops| == |locs| && forall i :: 0 <= i < |locs| ==> ops[i] == OpOf(Get(pages, locs[i]))
    ensures Ops(pages, locs) == ops
  {
  }

  /** No page loses a record, and no record of `keep` changes. */
  ghost predicate Grows(pages: Pages, pages': Pages) {
    forall l :: InPages(pages, l) ==> InPages(pages', l) && Get(pages', l) == Get(pages, l)
  }

  /** A chain that a reader holds survives every insertion. */
  lemma ChainSurvives(pages: Pages, pages': Pages, v: Vid, head: Option<Loc>, locs: seq<Loc>)
    requires Grows(pages, pages') && ChainAt(pages, v, head, locs)
    ensures ChainAt(pages', v, head, locs) && Ops(pages', locs) == Ops(pages, locs)
  {
    forall i | 0 <= i < |locs| ensures Linked(pages', v, locs, i) {
      assert Linked(pages, v, locs, i);
    }
    OpsExtensional(pages', locs, Ops(pages, locs));
  }

  // ---------------------------------------------------------------------------
  // The delta pages of one CSR page

  /** `order`, newest first, is the list of delta pages that starts at `head`. */
  ghost predicate PagesAt(pages: Pages, head: Option<nat>, order: seq<nat>) {
    && head == (if order == [] then None else Some(order[0]))
    && (forall i :: 0 <= i < |order| ==> order[i] in pages)
    && (forall i :: 0 <= i < |order| ==> PageLinked(pages, order, i))
    && (forall i, j :: 0 <= i < j < |order| ==> order[i] != order[j])
  }

  ghost predicate PageLinked(pages: Pages, order: seq<nat>, i: nat)
    requires i < |order| && order[i] in pages
  {
    pages[order[i]].next == if i + 1 < |order| then Some(order[i + 1]) else None
  }

  function Recs(records: seq<Record>): (recs: seq<Rec>)
    ensures |recs| == |records|
    ensures forall i :: 0 <= i < |records| ==> recs[i] == RecOf(records[i])
  {
    if records == [] then [] else Recs(records[..|records| - 1]) + [RecOf(records[|records| - 1])]
  }

  /** All records of a page chain, oldest first. */
  ghost function LogOf(pages: Pages, order: seq<nat>): seq<Record> {
    if order == [] then []
    else LogOf(pages, order[1..]) + if order[0] in pages then pages[order[0]].records else []
  }

  lemma {:induction false} LogFrame(pages: Pages, pages': Pages, order: seq<nat>)
    requires forall i :: 0 <= i < |order| ==> order[i] in pages && order[i] in pages'
    requires forall i :: 0 <= i < |order| ==> pages'[order[i]].records == pages[order[i]].records
    ensures LogOf(pages', order) == LogOf(pages, order)
  {
    if order != [] {
      LogFrame(pages, pages', order[1..]);
    }
  }

  lemma RecsConcat(a: seq<Record>, b: seq<Record>)
    ensures Recs(a + b) == Recs(a) + Recs(b)
  {
  }

  // ---------------------------------------------------------------------------
  // Reading

  lemma NewestCons(op: Op, ops: seq<Op>, e: Vid)
    ensures Newest([op] + ops, e)
         == if Newest(ops, e) == None && e == op.dst then Some(op.kind) else Newest(ops, e)
  {
    NewestConcat([op], ops, e);
    assert [op][..0] == [];
  }

  /** The chain walk: the first record met about an edge decides it. */
  method WalkChain(pages: Pages, ghost v: Vid, head: Option<Loc>, ghost locs: seq<Loc>)
    returns (inserts: seq<Vid>, deletes: set<Vid>)
    requires ChainAt(pages, v, head, locs)
    ensures forall e :: e in deletes <==> Newest(Ops(pages, locs), e) == Some(Delete)
    ensures forall e :: e in inserts <==> Newest(Ops(pages, locs), e) == Some(Insert)
  {
    var cur := head;
    var seen: set<Vid> := {};
    inserts, deletes := [], {};
    ghost var k := |locs|;
    ghost var ops := Ops(pages, locs);
    assert locs[..k] == locs;
    while cur.Some?
      invariant 0 <= k <= |locs| && cur == Last(locs[..k])
      invariant forall e :: e in seen <==> Newest(ops[k..], e).Some?
      invariant forall e :: e in deletes <==> Newest(ops[k..], e) == Some(Delete)
      invariant forall e :: e in inserts <==> Newest(ops[k..], e) == Some(Insert)
      decreases k
    {
      assert Linked(pages, v, locs, k - 1);
      var rec := Get(pages, cur.value);
      assert ops[k - 1..] == [OpOf(rec)] + ops[k..];
      forall e
        ensures Newest(ops[k - 1..], e)
             == if Newest(ops[k..], e) == None && e == rec.second then Some(rec.kind) else Newest(ops[k..], e)
      {
        NewestCons(OpOf(rec), ops[k..], e);
      }
      if rec.edge && rec.second !in seen {
        seen := seen + {rec.second};
        if rec.kind == Insert {
          inserts := inserts + [rec.second];
        } else {
          deletes := deletes + {rec.second};
        }
      }
      cur := rec.next;
      k := k - 1;
      assert locs[..k + 1][..k] == locs[..k];
    }
    assert k == 0;
    assert ops[0..] == ops;
  }

  /** Append to `result` what a list holds beyond the deleted edges. */
  method PushVisible(result: seq<Vid>, list: seq<Vid>, deletes: set<Vid>) returns (r: seq<Vid>)
    ensures forall e :: e in r <==> e in result || (e in list && e !in deletes)
    ensures result <= r
  {
    r := result;
    for i := 0 to |list|
      invariant result <= r
      invariant forall e :: e in r <==> e in result || (e in list[..i] && e !in deletes)
    {
      assert list[..i + 1] == list[..i] + [list[i]];
      if list[i] !in deletes {
        r := r + [list[i]];
      }
    }
    assert list[..|list|] == list;
  }

  /** Walk the chain newest first with a seen-set over a base list: the result, as a
   *  set, is the base with the chain replayed oldest first. */
  method ReadNeighborClone(base: seq<Vid>, pages: Pages, ghost v: Vid, head: Option<Loc>, ghost locs: seq<Loc>)
    returns (result: seq<Vid>)
    requires ChainAt(pages, v, head, locs)
    ensures Elems(result) == Run(Elems(base), Ops(pages, locs))
    ensures forall e :: e in result <==> e in Run(Elems(base), Ops(pages, locs))
  {
    var inserts, deletes := WalkChain(pages, v, head, locs);
    result := PushVisible([], base, deletes);
    result := PushVisible(result, inserts, deletes);
    forall e ensures e in result <==> e in Run(Elems(base), Ops(pages, locs)) {
      RunIsVisible(Elems(base), Ops(pages, locs), e);
    }
  }
}
