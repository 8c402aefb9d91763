/** The page map and the vertex heads as one mutable object (src/page_map.cc,
 * src/io_delta.cc, and the write critical section of src/db_dyn.cc). */
module PageMap {
  import opened Replay
  import opened Consolidation
  import opened DeltaChain

  /** Head of the delta-page chain of a CSR page, and its length. */
  datatype Entry = Entry(head: Option<nat>, count: nat)

  type Entries = map<PageNo, Entry>
  type Orders = map<PageNo, seq<nat>>

  // ---------------------------------------------------------------------------
  // Representation of the page chains

  ghost predicate EntryOk(pages: Pages, entry: Entry, order: seq<nat>) {
    PagesAt(pages, entry.head, order) && entry.count == |order|
  }

  ghost predicate PageRep(pages: Pages, entries: Entries, nextPage: nat, order: Orders) {
    && order.Keys == entries.Keys
    && (forall n :: n in pages ==> n < nextPage)
    && (forall p :: p in entries ==> EntryOk(pages, entries[p], order[p]))
    && Disjoint(order)
  }

  lemma AddEntry(pages: Pages, entries: Entries, nextPage: nat, order: Orders, q: PageNo)
    requires PageRep(pages, entries, nextPage, order) && q !in entries
    ensures PageRep(pages, entries[q := Entry(None, 0)], nextPage, order[q := []])
  {
  }

  lemma PrependSelf(pages: Pages, entry: Entry, order: seq<nat>, n: nat)
    requires EntryOk(pages, entry, order) && n !in pages
    ensures EntryOk(pages[n := DeltaPage([], entry.head)], Entry(Some(n), entry.count + 1), [n] + order)
    ensures LogOf(pages[n := DeltaPage([], entry.head)], [n] + order) == LogOf(pages, order)
  {
    var pages' := pages[n := DeltaPage([], entry.head)];
    var order' := [n] + order;
    forall i | 0 <= i < |order'|
      ensures order'[i] in pages' && PageLinked(pages', order', i)
    {
      if i > 0 {
        assert PageLinked(pages, order, i - 1);
      }
    }
    LogFrame(pages, pages', order);
    assert order'[1..] == order;
    assert LogOf(pages, order) + [] == LogOf(pages, order);
  }

  lemma PrependOther(pages: Pages, entry: Entry, order: seq<nat>, n: nat, page: DeltaPage)
    requires EntryOk(pages, entry, order) && n !in pages
    ensures EntryOk(pages[n := page], entry, order)
    ensures LogOf(pages[n := page], order) == LogOf(pages, order)
  {
    var pages' := pages[n := page];
    forall i | 0 <= i < |order| ensures PageLinked(pages', order, i) {
      assert PageLinked(pages, order, i);
    }
    LogFrame(pages, pages', order);
  }

  ghost predicate NoneShared(a: seq<nat>, b: seq<nat>) {
    forall n :: n in a ==> n !in b
  }

  ghost predicate Disjoint(order: Orders) {
    forall p, q :: p in order && q in order && p != q ==> NoneShared(order[p], order[q])
  }

  lemma PrependDisjoint(order: Orders, q: PageNo, n: nat)
    requires Disjoint(order) && q in order && forall p :: p in order ==> n !in order[p]
    ensures Disjoint(order[q := [n] + order[q]])
  {
    forall p | p in order && p != q
      ensures NoneShared(order[p], [n] + order[q]) && NoneShared([n] + order[q], order[p])
    {
      assert NoneShared(order[p], order[q]) && NoneShared(order[q], order[p]);
    }
  }

  lemma PrependEntry(pages: Pages, entries: Entries, nextPage: nat, order: Orders, q: PageNo, p: PageNo)
    requires PageRep(pages, entries, nextPage, order) && q in entries && p in entries
    ensures var pages', entries', order' :=
        pages[nextPage := DeltaPage([], entries[q].head)],
        entries[q := Entry(Some(nextPage), entries[q].count + 1)],
        order[q := [nextPage] + order[q]];
      && EntryOk(pages', entries'[p], order'[p])
      && LogOf(pages', order'[p]) == LogOf(pages, order[p])
    ensures nextPage !in order[p]
  {
    assert EntryOk(pages, entries[p], order[p]);
    if p == q {
      PrependSelf(pages, entries[q], order[q], nextPage);
    } else {
      PrependOther(pages, entries[p], order[p], nextPage, DeltaPage([], entries[q].head));
    }
  }

  lemma PrependPage(pages: Pages, entries: Entries, nextPage: nat, order: Orders, q: PageNo)
    requires PageRep(pages, entries, nextPage, order) && q in entries
    ensures var pages', entries', order' :=
        pages[nextPage := DeltaPage([], entries[q].head)],
        entries[q := Entry(Some(nextPage), entries[q].count + 1)],
        order[q := [nextPage] + order[q]];
      && PageRep(pages', entries', nextPage + 1, order')
      && forall p :: p in order ==> LogOf(pages', order'[p]) == LogOf(pages, order[p])
  {
    hide EntryOk, LogOf, Disjoint;
    var pages' := pages[nextPage := DeltaPage([], entries[q].head)];
    var entries' := entries[q := Entry(Some(nextPage), entries[q].count + 1)];
    var order' := order[q := [nextPage] + order[q]];
    forall p | p in order
      ensures EntryOk(pages', entries'[p], order'[p])
      ensures LogOf(pages', order'[p]) == LogOf(pages, order[p])
      ensures nextPage !in order[p]
    {
      PrependEntry(pages, entries, nextPage, order, q, p);
    }
    PrependDisjoint(order, q, nextPage);
  }

  /** `pages` with `r` appended to page `k`. */
  function Pushed(pages: Pages, k: nat, r: Record): Pages
    requires k in pages
  {
    pages[k := DeltaPage(pages[k].records + [r], pages[k].next)]
  }

  lemma PushRecord(pages: Pages, entries: Entries, nextPage: nat, order: Orders, q: PageNo, r: Record)
    requires PageRep(pages, entries, nextPage, order) && q in order && order[q] != []
    ensures var pages' := Pushed(pages, order[q][0], r);
      && PageRep(pages', entries, nextPage, order)
      && Grows(pages, pages')
      && forall p :: p in order ==>
           LogOf(pages', order[p]) == LogOf(pages, order[p]) + if p == q then [r] else []
  {
    var k := order[q][0];
    var pages' := Pushed(pages, k, r);
    forall p | p in order
      ensures EntryOk(pages', entries[p], order[p])
      ensures LogOf(pages', order[p]) == LogOf(pages, order[p]) + if p == q then [r] else []
    {
      assert EntryOk(pages, entries[p], order[p]);
      forall i | 0 <= i < |order[p]| ensures PageLinked(pages', order[p], i) {
        assert PageLinked(pages, order[p], i);
      }
      if p == q {
        LogFrame(pages, pages', order[q][1..]);
        assert LogOf(pages, order[q][1..]) + (pages[k].records + [r])
            == LogOf(pages, order[q][1..]) + pages[k].records + [r];
      } else {
        assert NoneShared(order[q], order[p]) && k in order[q];
        LogFrame(pages, pages', order[p]);
        assert LogOf(pages, order[p]) + [] == LogOf(pages, order[p]);
      }
    }
  }

  /** Detaching a page chain leaves its pages in place: chains of vertices still read them. */
  lemma ResetEntry(pages: Pages, entries: Entries, nextPage: nat, order: Orders, q: PageNo)
    requires PageRep(pages, entries, nextPage, order) && q in entries
    ensures PageRep(pages, entries[q := Entry(None, 0)], nextPage, order[q := []])
  {
  }

  // ---------------------------------------------------------------------------
  // Representation of the vertex chains

  type Heads = map<Vid, Option<Loc>>
  type Chains = map<Vid, seq<Loc>>

  ghost predicate ChainRep(pages: Pages, heads: Heads, chains: Chains) {
    && chains.Keys == heads.Keys
    && forall v :: v in heads ==> ChainAt(pages, v, heads[v], chains[v])
  }

  /** A record whose link is the present head becomes the new head. */
  lemma ExtendChain(pages: Pages, v: Vid, head: Option<Loc>, locs: seq<Loc>, l: Loc)
    requires ChainAt(pages, v, head, locs) && InPages(pages, l) && l !in locs
    requires Get(pages, l).edge && Get(pages, l).first == v && Get(pages, l).next == head
    ensures ChainAt(pages, v, Some(l), locs + [l])
    ensures Ops(pages, locs + [l]) == Ops(pages, locs) + [OpOf(Get(pages, l))]
  {
    forall i | 0 <= i < |locs + [l]| ensures Linked(pages, v, locs + [l], i) {
      if i < |locs| {
        assert Linked(pages, v, locs, i);
      }
    }
    assert (locs + [l])[..|locs|] == locs;
  }

  /** `pages` with the link of the record at `l` cleared. */
  function ClearNext(pages: Pages, l: Loc): Pages
    requires InPages(pages, l)
  {
    var page := pages[l.page];
    pages[l.page := page.(records := page.records[l.idx := page.records[l.idx].(next := None)])]
  }

  lemma ClearNextGet(pages: Pages, l: Loc, m: Loc)
    requires InPages(pages, l)
    ensures InPages(ClearNext(pages, l), m) <==> InPages(pages, m)
    ensures InPages(pages, m) ==>
      Get(ClearNext(pages, l), m) == if m == l then Get(pages, m).(next := None) else Get(pages, m)
  {
  }

  /** Clearing the link of the i-th record of a chain keeps exactly the records from it on. */
  lemma CutChainAt(pages: Pages, v: Vid, head: Option<Loc>, locs: seq<Loc>, i: nat)
    requires ChainAt(pages, v, head, locs) && i < |locs|
    ensures ChainAt(ClearNext(pages, locs[i]), v, head, locs[i..])
    ensures Ops(ClearNext(pages, locs[i]), locs[i..]) == Ops(pages, locs)[i..]
  {
    var pages', cut := ClearNext(pages, locs[i]), locs[i..];
    forall k | 0 <= k < |cut|
      ensures InPages(pages', cut[k])
      ensures Linked(pages', v, cut, k)
      ensures OpOf(Get(pages', cut[k])) == OpOf(Get(pages, locs[i + k]))
    {
      CutLink(pages, v, locs, i, k);
    }
    CutOps(pages, pages', locs, i);
  }

  /** A reader that took the record h - 1 for the head: of what it walks, the records from
   *  the i-th one on are left, or all of it if the cut is above. */
  lemma CutUnderReader(pages: Pages, v: Vid, head: Option<Loc>, locs: seq<Loc>, h: nat, i: nat)
    requires ChainAt(pages, v, head, locs) && h <= |locs| && i < |locs|
    ensures var kept := if i < h then locs[i..h] else locs[..h];
      && ChainAt(ClearNext(pages, locs[i]), v, Last(locs[..h]), kept)
      && Ops(ClearNext(pages, locs[i]), kept) == if i < h then Ops(pages, locs)[i..h] else Ops(pages, locs)[..h]
  {
    var held, pages' := locs[..h], ClearNext(pages, locs[i]);
    forall k | 0 <= k < h ensures Linked(pages, v, held, k) {
      assert Linked(pages, v, locs, k);
    }
    OpsExtensional(pages, held, Ops(pages, locs)[..h]);
    if i < h {
      CutChainAt(pages, v, Last(held), held, i);
      assert held[i..] == locs[i..h];
    } else {
      forall k | 0 <= k < h ensures InPages(pages', held[k]) && Get(pages', held[k]) == Get(pages, held[k]) {
        ClearNextGet(pages, locs[i], held[k]);
      }
      forall k | 0 <= k < h ensures Linked(pages', v, held, k) {
        assert Linked(pages, v, held, k);
      }
      OpsExtensional(pages', held, Ops(pages, held));
    }
  }

  lemma CutOps(pages: Pages, pages': Pages, locs: seq<Loc>, i: nat)
    requires i < |locs| && forall k :: 0 <= k < |locs| ==> InPages(pages, locs[k])
    requires forall k :: 0 <= k < |locs[i..]| ==>
      InPages(pages', locs[i..][k]) && OpOf(Get(pages', locs[i..][k])) == OpOf(Get(pages, locs[i + k]))
    ensures Ops(pages', locs[i..]) == Ops(pages, locs)[i..]
  {
  }

  lemma CutLink(pages: Pages, v: Vid, locs: seq<Loc>, i: nat, k: nat)
    requires i + k < |locs| && InPages(pages, locs[i])
    requires Linked(pages, v, locs, i + k)
    requires k > 0 ==> locs[i] != locs[i + k]
    ensures InPages(ClearNext(pages, locs[i]), locs[i..][k])
    ensures Linked(ClearNext(pages, locs[i]), v, locs[i..], k)
    ensures OpOf(Get(ClearNext(pages, locs[i]), locs[i..][k])) == OpOf(Get(pages, locs[i + k]))
  {
    ClearNextGet(pages, locs[i], locs[i + k]);
    assert locs[i..][k] == locs[i + k];
    if k > 0 {
      assert locs[i..][k - 1] == locs[i + k - 1];
    }
  }

  lemma CutChainOther(pages: Pages, v: Vid, head: Option<Loc>, locs: seq<Loc>, l: Loc)
    requires ChainAt(pages, v, head, locs) && InPages(pages, l) && l !in locs
    ensures ChainAt(ClearNext(pages, l), v, head, locs)
    ensures Ops(ClearNext(pages, l), locs) == Ops(pages, locs)
  {
    var pages' := ClearNext(pages, l);
    forall k | 0 <= k < |locs| ensures InPages(pages', locs[k]) && Linked(pages', v, locs, k) {
      assert Linked(pages, v, locs, k);
      ClearNextGet(pages, l, locs[k]);
    }
    OpsExtensional(pages', locs, Ops(pages, locs));
  }

  // ---------------------------------------------------------------------------
  // What the chains mean

  ghost function AbsChain(pages: Pages, heads: Heads, chains: Chains): map<Vid, seq<Op>>
    requires ChainRep(pages, heads, chains)
  {
    map v | v in heads :: Ops(pages, chains[v])
  }

  ghost function AbsLog(pages: Pages, order: Orders): map<PageNo, seq<Rec>> {
    map p | p in order :: PageLog(pages, order[p])
  }

  ghost function PageLog(pages: Pages, order: seq<nat>): seq<Rec> {
    Recs(LogOf(pages, order))
  }

  ghost predicate AllEdges(pages: Pages) {
    forall l :: InPages(pages, l) ==> Get(pages, l).edge
  }

  lemma RecsSnoc(log: seq<Record>, r: Record)
    ensures Recs(log + [r]) == Recs(log) + [RecOf(r)]
  {
    RecsConcat(log, [r]);
    assert Recs([r]) == [RecOf(r)];
  }

  lemma AddEntryAbs(pages: Pages, entries: Entries, nextPage: nat, order: Orders, q: PageNo)
    requires PageRep(pages, entries, nextPage, order) && q !in entries
    ensures var entries', order' := entries[q := Entry(None, 0)], order[q := []];
      && PageRep(pages, entries', nextPage, order')
      && AbsLog(pages, order') == AbsLog(pages, order)[q := []]
  {
    AddEntry(pages, entries, nextPage, order, q);
  }

  lemma PrependAbs(pages: Pages, entries: Entries, nextPage: nat, order: Orders, q: PageNo)
    requires PageRep(pages, entries, nextPage, order) && q in entries
    ensures var pages', entries', order' :=
        pages[nextPage := DeltaPage([], entries[q].head)],
        entries[q := Entry(Some(nextPage), entries[q].count + 1)],
        order[q := [nextPage] + order[q]];
      && PageRep(pages', entries', nextPage + 1, order')
      && AbsLog(pages', order') == AbsLog(pages, order)
  {
    PrependPage(pages, entries, nextPage, order, q);
    hide EntryOk, LogOf, Recs, Disjoint;
  }

  lemma PageLogPush(pages: Pages, pages': Pages, order: seq<nat>, r: Record)
    ensures LogOf(pages', order) == LogOf(pages, order) + [r] ==>
      PageLog(pages', order) == PageLog(pages, order) + [RecOf(r)]
    ensures LogOf(pages', order) == LogOf(pages, order) + [] ==>
      PageLog(pages', order) == PageLog(pages, order)
  {
    RecsSnoc(LogOf(pages, order), r);
    assert LogOf(pages, order) + [] == LogOf(pages, order);
  }

  lemma PushOne(pages: Pages, entries: Entries, nextPage: nat, order: Orders, q: PageNo, r: Record, p: PageNo)
    requires PageRep(pages, entries, nextPage, order) && q in order && order[q] != [] && p in entries
    ensures PageRep(Pushed(pages, order[q][0], r), entries, nextPage, order)
    ensures PageLog(Pushed(pages, order[q][0], r), order[p])
         == if p == q then PageLog(pages, order[p]) + [RecOf(r)] else PageLog(pages, order[p])
  {
    PushRecord(pages, entries, nextPage, order, q, r);
    hide LogOf, PageLog, Pushed, EntryOk;
    PageLogPush(pages, Pushed(pages, order[q][0], r), order[p], r);
  }

  lemma LogsAgree(pages: Pages, pages': Pages, order: Orders, q: PageNo, recs: seq<Rec>)
    requires q in order && PageLog(pages', order[q]) == recs
    requires forall p :: p in order && p != q ==> PageLog(pages', order[p]) == PageLog(pages, order[p])
    ensures AbsLog(pages', order) == AbsLog(pages, order)[q := recs]
  {
    hide PageLog;
  }

  lemma PushAbs(pages: Pages, entries: Entries, nextPage: nat, order: Orders, q: PageNo, r: Record)
    requires PageRep(pages, entries, nextPage, order) && q in order && order[q] != []
    ensures PageRep(Pushed(pages, order[q][0], r), entries, nextPage, order)
    ensures var log := AbsLog(pages, order);
      AbsLog(Pushed(pages, order[q][0], r), order) == log[q := log[q] + [RecOf(r)]]
  {
    var pages' := Pushed(pages, order[q][0], r);
    PushOne(pages, entries, nextPage, order, q, r, q);
    hide LogOf, PageLog, Pushed, EntryOk, AbsLog;
    forall p | p in order && p != q ensures PageLog(pages', order[p]) == PageLog(pages, order[p]) {
      PushOne(pages, entries, nextPage, order, q, r, p);
    }
    LogsAgree(pages, pages', order, q, PageLog(pages, order[q]) + [RecOf(r)]);
    AbsLogAt(pages, order, q);
  }

  lemma AbsLogAt(pages: Pages, order: Orders, q: PageNo)
    requires q in order
    ensures q in AbsLog(pages, order) && AbsLog(pages, order)[q] == PageLog(pages, order[q])
  {
  }

  /** `pages'` is `pages` with record `r` in the new place `l`. */
  ghost predicate Added(pages: Pages, pages': Pages, l: Loc, r: Record) {
    && Grows(pages, pages')
    && !InPages(pages, l) && InPages(pages', l) && Get(pages', l) == r
    && (forall m :: InPages(pages', m) ==> InPages(pages, m) || m == l)
  }

  lemma AddedEdges(pages: Pages, pages': Pages, l: Loc, r: Record)
    requires AllEdges(pages) && Added(pages, pages', l, r) && r.edge
    ensures AllEdges(pages')
  {
    forall m | InPages(pages', m) ensures Get(pages', m).edge {
      if m != l {
        assert InPages(pages, m);
      }
    }
  }

  /** A new record linked in front of the chain of its vertex. */
  lemma FreshInChain(pages: Pages, v: Vid, head: Option<Loc>, locs: seq<Loc>, l: Loc)
    requires ChainAt(pages, v, head, locs) && !InPages(pages, l)
    ensures l !in locs
  {
  }

  /** What one chain is after a record of `v` was added at `l`. */
  lemma LinkOne(pages: Pages, pages': Pages, u: Vid, head: Option<Loc>, locs: seq<Loc>, l: Loc, r: Record)
    requires ChainAt(pages, u, head, locs) && Added(pages, pages', l, r)
    ensures ChainAt(pages', u, head, locs) && Ops(pages', locs) == Ops(pages, locs)
    ensures r.edge && r.first == u && r.next == head ==>
      ChainAt(pages', u, Some(l), locs + [l]) && Ops(pages', locs + [l]) == Ops(pages, locs) + [OpOf(r)]
  {
    ChainSurvives(pages, pages', u, head, locs);
    if r.edge && r.first == u && r.next == head {
      FreshInChain(pages, u, head, locs, l);
      ExtendChain(pages', u, head, locs, l);
    }
  }

  lemma LinkRecord(pages: Pages, pages': Pages, heads: Heads, chains: Chains, v: Vid, l: Loc, r: Record)
    requires ChainRep(pages, heads, chains) && Added(pages, pages', l, r)
    requires v in heads && r.edge && r.first == v && r.next == heads[v]
    ensures var heads', chains' := heads[v := Some(l)], chains[v := chains[v] + [l]];
      && ChainRep(pages', heads', chains')
      && var chain := AbsChain(pages, heads, chains);
         AbsChain(pages', heads', chains') == chain[v := chain[v] + [OpOf(r)]]
  {
    hide ChainAt, Added, Ops, OpOf;
    var heads', chains' := heads[v := Some(l)], chains[v := chains[v] + [l]];
    forall u | u in heads
      ensures ChainAt(pages', u, heads'[u], chains'[u])
      ensures u != v ==> Ops(pages', chains'[u]) == Ops(pages, chains[u])
      ensures u == v ==> Ops(pages', chains'[u]) == Ops(pages, chains[u]) + [OpOf(r)]
    {
      LinkOne(pages, pages', u, heads[u], chains[u], l, r);
    }
  }

  /** Forget the chain of one vertex. */
  lemma DropChain(pages: Pages, heads: Heads, chains: Chains, v: Vid)
    requires ChainRep(pages, heads, chains) && v in heads
    ensures ChainRep(pages, heads[v := None], chains[v := []])
    ensures AbsChain(pages, heads[v := None], chains[v := []]) == AbsChain(pages, heads, chains)[v := []]
  {
  }

  lemma OnlyOwnChain(pages: Pages, v: Vid, head: Option<Loc>, locs: seq<Loc>, l: Loc)
    requires ChainAt(pages, v, head, locs) && InPages(pages, l) && Get(pages, l).first != v
    ensures l !in locs
  {
    forall j | 0 <= j < |locs| ensures Get(pages, locs[j]).first == v {
      assert Linked(pages, v, locs, j);
    }
  }

  lemma CutOthers(pages: Pages, heads: Heads, chains: Chains, v: Vid, l: Loc, u: Vid)
    requires ChainRep(pages, heads, chains) && u in heads && u != v
    requires InPages(pages, l) && Get(pages, l).first == v
    ensures ChainAt(ClearNext(pages, l), u, heads[u], chains[u])
    ensures Ops(ClearNext(pages, l), chains[u]) == Ops(pages, chains[u])
  {
    OnlyOwnChain(pages, u, heads[u], chains[u], l);
    CutChainOther(pages, u, heads[u], chains[u], l);
  }

  lemma CutOne(pages: Pages, heads: Heads, chains: Chains, v: Vid, l: Loc, i: nat, u: Vid)
    requires ChainRep(pages, heads, chains) && v in heads && i < |chains[v]| && l == chains[v][i] && u in heads
    ensures InPages(pages, l)
    ensures u == v ==> ChainAt(ClearNext(pages, l), u, heads[u], chains[u][i..])
    ensures u == v ==> Ops(ClearNext(pages, l), chains[u][i..]) == Ops(pages, chains[u])[i..]
    ensures u != v ==> ChainAt(ClearNext(pages, l), u, heads[u], chains[u])
    ensures u != v ==> Ops(ClearNext(pages, l), chains[u]) == Ops(pages, chains[u])
  {
    hide ChainAt, Ops, ClearNext, Get;
    CutHere(pages, v, heads[v], chains[v], i);
    if u != v {
      CutOthers(pages, heads, chains, v, l, u);
    }
  }

  /** Cutting the chain of one vertex below one of its records moves no other chain. */
  lemma CutAbs(pages: Pages, heads: Heads, chains: Chains, v: Vid, l: Loc, i: nat)
    requires ChainRep(pages, heads, chains) && v in heads && i < |chains[v]| && l == chains[v][i]
    ensures InPages(pages, l) && ChainRep(ClearNext(pages, l), heads, chains[v := chains[v][i..]])
    ensures AbsChain(ClearNext(pages, l), heads, chains[v := chains[v][i..]])
         == AbsChain(pages, heads, chains)[v := AbsChain(pages, heads, chains)[v][i..]]
  {
    hide ChainAt, Ops, ClearNext, Get;
    CutOne(pages, heads, chains, v, l, i, v);
    forall u | u in heads && u != v
      ensures ChainAt(ClearNext(pages, l), u, heads[u], chains[u])
      ensures Ops(ClearNext(pages, l), chains[u]) == Ops(pages, chains[u])
    {
      CutOne(pages, heads, chains, v, l, i, u);
    }
  }

  lemma CutEdges(pages: Pages, l: Loc)
    requires AllEdges(pages) && InPages(pages, l)
    ensures AllEdges(ClearNext(pages, l))
  {
    forall m | InPages(ClearNext(pages, l), m) ensures Get(ClearNext(pages, l), m).edge {
      ClearNextGet(pages, l, m);
      assert Get(pages, m).edge;
    }
  }

  lemma CutHere(pages: Pages, v: Vid, head: Option<Loc>, locs: seq<Loc>, i: nat)
    requires ChainAt(pages, v, head, locs) && i < |locs|
    ensures InPages(pages, locs[i]) && Get(pages, locs[i]).first == v
    ensures ChainAt(ClearNext(pages, locs[i]), v, head, locs[i..])
    ensures Ops(ClearNext(pages, locs[i]), locs[i..]) == Ops(pages, locs)[i..]
  {
    assert Linked(pages, v, locs, i);
    CutChainAt(pages, v, head, locs, i);
  }

  /** Clearing a link does not change what a page chain records. */
  lemma ClearPage(pages: Pages, l: Loc, n: nat)
    requires InPages(pages, l) && n in pages
    ensures n in ClearNext(pages, l) && Recs(ClearNext(pages, l)[n].records) == Recs(pages[n].records)
  {
  }

  lemma {:induction false} ClearLog(pages: Pages, order: seq<nat>, l: Loc)
    requires InPages(pages, l) && forall i :: 0 <= i < |order| ==> order[i] in pages
    ensures forall i :: 0 <= i < |order| ==> order[i] in ClearNext(pages, l)
    ensures Recs(LogOf(ClearNext(pages, l), order)) == Recs(LogOf(pages, order))
  {
    var pages' := ClearNext(pages, l);
    if order != [] {
      ClearLog(pages, order[1..], l);
      ClearPage(pages, l, order[0]);
      RecsConcat(LogOf(pages, order[1..]), pages[order[0]].records);
      RecsConcat(LogOf(pages', order[1..]), pages'[order[0]].records);
      hide Recs, ClearNext;
    }
  }

  lemma ClearRep(pages: Pages, entries: Entries, nextPage: nat, order: Orders, l: Loc)
    requires PageRep(pages, entries, nextPage, order) && InPages(pages, l)
    ensures PageRep(ClearNext(pages, l), entries, nextPage, order)
    ensures AbsLog(ClearNext(pages, l), order) == AbsLog(pages, order)
  {
    var pages' := ClearNext(pages, l);
    forall p | p in entries
      ensures EntryOk(pages', entries[p], order[p])
      ensures Recs(LogOf(pages', order[p])) == Recs(LogOf(pages, order[p]))
    {
      assert EntryOk(pages, entries[p], order[p]);
      forall i | 0 <= i < |order[p]| ensures PageLinked(pages', order[p], i) {
        assert PageLinked(pages, order[p], i);
      }
      ClearLog(pages, order[p], l);
    }
  }

  lemma ResetAbs(pages: Pages, entries: Entries, nextPage: nat, order: Orders, q: PageNo)
    requires PageRep(pages, entries, nextPage, order) && q in entries
    ensures PageRep(pages, entries[q := Entry(None, 0)], nextPage, order[q := []])
    ensures AbsLog(pages, order[q := []])
         == AbsLog(pages, order)[q := []]
  {
    ResetEntry(pages, entries, nextPage, order, q);
  }

  /** Delta chains and vertex heads. */
  class DeltaStore {
    const pageSize: nat
    var pages: Pages
    var entries: Entries
    var nextPage: nat
    var heads: Heads
    ghost var order: Orders
    ghost var chains: Chains
    /** Records of each vertex, oldest first. */
    ghost var chain: map<Vid, seq<Op>>
    /** Records of each CSR page, oldest first. */
    ghost var log: map<PageNo, seq<Rec>>

    ghost predicate PagesValid()
      reads this
    {
      PageRep(pages, entries, nextPage, order) && log == AbsLog(pages, order)
    }

    ghost predicate Valid()
      reads this
    {
      && PagesValid() && AllEdges(pages)
      && ChainRep(pages, heads, chains) && chain == AbsChain(pages, heads, chains)
    }

    lemma ChainOf(v: Vid)
      requires Valid() && v in chain
      ensures v in heads && v in chains && ChainAt(pages, v, heads[v], chains[v])
      ensures Ops(pages, chains[v]) == chain[v]
    {
    }

    lemma Lengths(v: Vid)
      requires Valid() && v in chain
      ensures v in heads && v in chains && |chain[v]| == |chains[v]|
    {
    }

    constructor (pageSize: nat, vertices: set<Vid>)
      ensures Valid() && this.pageSize == pageSize
      ensures chain == map v | v in vertices :: []
      ensures log == map[]
    {
      this.pageSize := pageSize;
      pages, entries, nextPage := map[], map[], 0;
      heads := map v | v in vertices :: None;
      order := map[];
      chains := map v | v in vertices :: [];
      chain, log := map v | v in vertices :: [], map[];
    }

    /** `k` is the newest delta page of `q`. */
    ghost predicate HeadIs(q: PageNo, k: nat)
      reads this
    {
      k in pages && q in entries && q in order && order[q] != [] && order[q][0] == k
    }

    /** A new delta page in front of the chain of `q`. */
    method PrependDeltaPage(q: PageNo) returns (k: nat)
      requires PagesValid() && q in entries
      modifies `pages, `entries, `nextPage, `order
      ensures PagesValid() && HeadIs(q, k)
      ensures k !in old(pages) && pages == old(pages)[k := DeltaPage([], old(entries)[q].head)]
    {
      PrependAbs(pages, entries, nextPage, order, q);
      k := nextPage;
      nextPage := nextPage + 1;
      pages := pages[k := DeltaPage([], entries[q].head)];
      entries := entries[q := Entry(Some(k), entries[q].count + 1)];
      order := order[q := [k] + order[q]];
    }

    /** Look the entry of `q` up or create it (get_or_create_entry). */
    method GetOrCreateEntry(q: PageNo)
      requires PagesValid()
      modifies `entries, `order, `log
      ensures PagesValid() && q in entries
      ensures log == if q in old(log) then old(log) else old(log)[q := []]
    {
      if q !in entries {
        AddEntryAbs(pages, entries, nextPage, order, q);
        entries, order, log := entries[q := Entry(None, 0)], order[q := []], log[q := []];
      }
    }

    /** The newest delta page of `q`, allocated if the chain is empty. */
    method HeadPage(q: PageNo) returns (k: nat)
      requires PagesValid() && q in entries
      modifies `pages, `entries, `nextPage, `order
      ensures PagesValid() && HeadIs(q, k)
      ensures pages == old(pages) || (k !in old(pages) && pages == old(pages)[k := DeltaPage([], None)])
    {
      assert EntryOk(pages, entries[q], order[q]);
      if entries[q].head == None {
        k := PrependDeltaPage(q);
      } else {
        k := entries[q].head.value;
      }
    }

    /** delta_page_t::insert_delta on the newest page of `q`: append unless it is full. */
    method InsertDelta(q: PageNo, k: nat, r: Record) returns (ok: bool)
      requires PagesValid() && HeadIs(q, k)
      modifies `pages, `log
      ensures ok <==> 24 + 32 * (|old(pages)[k].records| + 1) <= pageSize
      ensures PagesValid() && HeadIs(q, k)
      ensures pages == if ok then Pushed(old(pages), k, r) else old(pages)
      ensures q in old(log) && log == if ok then old(log)[q := old(log)[q] + [RecOf(r)]] else old(log)
    {
      hide PageRep, InPages, Grows, RecOf, PageLog;
      ok := UsedBytes(pages[k]) + RECORD_BYTES <= pageSize;
      assert q in log;
      if ok {
        PushAbs(pages, entries, nextPage, order, q, r);
        log := log[q := log[q] + [RecOf(r)]];
        pages := pages[k := DeltaPage(pages[k].records + [r], pages[k].next)];
      }
    }

    /** Append a record to the chain of a CSR page and return where it now lives.
     *  The only failure is a page size that holds no record at all. */
    method InsertDeltaAndGetLoc(q: PageNo, r: Record) returns (l: Option<Loc>)
      requires PagesValid()
      modifies `pages, `entries, `nextPage, `order, `log
      ensures PagesValid()
      ensures l.Some? <==> HEADER_BYTES + RECORD_BYTES <= pageSize
      ensures l.Some? ==> Added(old(pages), pages, l.value, r)
      ensures l.Some? ==>
        log == old(log)[q := (if q in old(log) then old(log)[q] else []) + [RecOf(r)]]
    {
      hide PageRep, AbsLog;
      GetOrCreateEntry(q);
      var head := HeadPage(q);
      var idx := |pages[head].records|;
      var ok := InsertDelta(q, head, r);
      if !ok {
        head := PrependDeltaPage(q);
        idx := 0;
        ok := InsertDelta(q, head, r);
      }
      l := if ok then Some(Loc(head, idx)) else None;
    }

    /** The write critical section: link to the present head, append to the chain of
     *  CSR page `q`, become the head. */
    method AppendRecord(v: Vid, op: Op, q: PageNo) returns (l: Loc)
      requires Valid() && v in heads && HEADER_BYTES + RECORD_BYTES <= pageSize
      modifies `pages, `entries, `nextPage, `order, `heads, `chains, `chain, `log
      ensures Valid() && v in old(chain) && v in old(chains)
      ensures chains == old(chains)[v := old(chains)[v] + [l]]
      ensures chain == old(chain)[v := old(chain)[v] + [op]]
      ensures log == old(log)[q := (if q in old(log) then old(log)[q] else []) + [Rec(v, op)]]
    {
      hide PageRep, AbsLog, ChainAt, Ops;
      var r := Record(true, op.kind, v, op.dst, heads[v]);
      var inserted := InsertDeltaAndGetLoc(q, r);
      l := inserted.value;
      LinkRecord(old(pages), pages, heads, chains, v, l, r);
      AddedEdges(old(pages), pages, l, r);
      chain, chains := chain[v := chain[v] + [op]], chains[v := chains[v] + [l]];
      heads := heads[v := Some(l)];
    }

    /** Take all records of a CSR page, oldest first, and let its chain start afresh. */
    method FetchDeltasWithMark(q: PageNo) returns (deltas: seq<Record>)
      requires Valid()
      modifies `entries, `order, `log
      ensures Valid()
      ensures Recs(deltas) == if q in old(log) then old(log)[q] else []
      ensures forall r :: r in deltas ==> r.edge
      ensures log == if q in old(log) then old(log)[q := []] else old(log)
    {
      if q !in entries {
        return [];
      }
      ghost var list := order[q];
      assert EntryOk(pages, entries[q], list);
      var current := entries[q].head;
      var collected: seq<seq<Record>> := [];
      ghost var k := 0;
      while current.Some?
        invariant 0 <= k <= |list| && |collected| == k
        invariant current == (if k < |list| then Some(list[k]) else None)
        invariant forall i :: 0 <= i < k ==> collected[i] == pages[list[i]].records
        decreases |list| - k
      {
        assert PageLinked(pages, list, k);
        collected := collected + [pages[current.value].records];
        current := pages[current.value].next;
        k := k + 1;
      }
      ResetAbs(pages, entries, nextPage, order, q);
      entries := entries[q := Entry(None, 0)];
      order := order[q := []];
      log := log[q := []];
      deltas := [];
      assert list[|list|..] == [];
      var j := |collected|;
      while j > 0
        invariant 0 <= j <= |list| && |collected| == |list|
        invariant forall i :: 0 <= i < |list| ==> collected[i] == pages[list[i]].records
        invariant deltas == LogOf(pages, list[j..])
        invariant forall r :: r in deltas ==> r.edge
      {
        j := j - 1;
        assert list[j..][1..] == list[j + 1..];
        assert forall i :: 0 <= i < |collected[j]| ==> InPages(pages, Loc(list[j], i));
        assert forall i :: 0 <= i < |collected[j]| ==> Get(pages, Loc(list[j], i)) == collected[j][i];
        deltas := deltas + collected[j];
      }
      assert list[0..] == list;
    }

    /** Cut the chain of `v` below its i-th oldest record. */
    method TruncateChainAt(ghost v: Vid, l: Loc, ghost i: nat)
      requires Valid() && v in heads && i < |chains[v]| && chains[v][i] == l
      modifies `pages, `chains, `chain
      ensures Valid()
      ensures chain == old(chain)[v := old(chain)[v][i..]]
      ensures chains == old(chains)[v := old(chains)[v][i..]]
    {
      hide PageRep, AbsLog, ChainAt, Ops, Recs, LogOf;
      CutAbs(pages, heads, chains, v, l, i);
      CutEdges(pages, l);
      ClearRep(pages, entries, nextPage, order, l);
      var page := pages[l.page];
      var rec := page.records[l.idx];
      pages := pages[l.page := page.(records := page.records[l.idx := rec.(next := None)])];
      chain, chains := chain[v := chain[v][i..]], chains[v := chains[v][i..]];
    }

    /** Forget the chain of `v`: no record of it is left. */
    method DropChainOf(v: Vid)
      requires Valid() && v in heads
      modifies `heads, `chains, `chain
      ensures Valid()
      ensures chain == old(chain)[v := []] && chains == old(chains)[v := []]
    {
      DropChain(pages, heads, chains, v);
      heads, chains, chain := heads[v := None], chains[v := []], chain[v := []];
    }
  }
}
