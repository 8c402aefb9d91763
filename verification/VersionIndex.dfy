/** The vertex index and the disk slots as mutable objects (src/vertex_index.cc,
 * src/disk_manager.cc); the index takes the steps of the machine in `Reclaim`. */
module VersionIndex {
  import opened Replay
  import opened Reclaim

  /** A retired version on its way to the hazard-pointer domain, with its batch. */
  datatype Retired = Retired(x: Version, batch: PageNo)

  ghost predicate RStepped(s: RState, t: RStep, s': RState) {
    REnabled(s, t) && s' == RNext(s, t)
  }

  ghost predicate Waiting(s: RState, r: Retired) {
    r.batch in s.batches && r.x in s.batches[r.batch].retired
  }

  /** Queue and hazard-pointer domain hold every retired version once. */
  ghost predicate Tracked(s: RState, out: seq<Retired>) {
    && (forall r :: Waiting(s, r) <==> r in out)
    && (forall i, j :: 0 <= i < j < |out| ==> out[i] != out[j])
  }

  function Remaining(batches: map<PageNo, Batch>): map<PageNo, nat> {
    map p | p in batches :: batches[p].remaining
  }

  lemma SwitchWaiting(s: RState, p: PageNo, v: Vid, r: Retired)
    requires Ready(s, p, v)
    ensures Waiting(DoSwitchTo(s, p, v), r) <==> Waiting(s, r) || r == Retired(s.cur[v], p)
  {
    hide DoSwitchTo;
    SwitchFrame(s, p, v, r.batch);
  }

  lemma CurrentNotWaiting(s: RState, p: PageNo, v: Vid)
    requires BatchesOk(s) && CurOk(s) && v in s.cur
    ensures !Waiting(s, Retired(s.cur[v], p))
  {
    if p in s.batches {
      assert BatchOk(s, p);
      CurrentNotRetired(s, p, v);
    }
  }

  lemma SwitchTracked(s: RState, p: PageNo, v: Vid, out: seq<Retired>)
    requires RInv(s) && Ready(s, p, v) && Tracked(s, out)
    ensures Tracked(DoSwitchTo(s, p, v), out + [Retired(s.cur[v], p)])
  {
    hide Waiting, BatchesOk, CurOk, ListsOk, VersionsOk, ReadersOk, SlotsOk, DoSwitchTo;
    CurrentNotWaiting(s, p, v);
    forall r
      ensures Waiting(DoSwitchTo(s, p, v), r) <==> r in out + [Retired(s.cur[v], p)]
    {
      SwitchWaiting(s, p, v, r);
    }
  }

  lemma ReclaimedWaiting(s: RState, p: PageNo, x: Version, r: Retired)
    requires p in s.batches
    ensures Waiting(DoReclaimed(s, p, x), r) <==> Waiting(s, r) && r != Retired(x, p)
  {
  }

  lemma RemoveAt(out: seq<Retired>, k: nat)
    requires k < |out| && forall i, j :: 0 <= i < j < |out| ==> out[i] != out[j]
    ensures var rest := out[..k] + out[k + 1..];
      && (forall r :: r in rest <==> r in out && r != out[k])
      && (forall i, j :: 0 <= i < j < |rest| ==> rest[i] != rest[j])
  {
    var rest := out[..k] + out[k + 1..];
    forall r ensures r in rest <==> r in out && r != out[k] {
      if r in out && r != out[k] {
        var i :| 0 <= i < |out| && out[i] == r;
        assert rest[if i < k then i else i - 1] == r;
      }
    }
  }

  lemma ReclaimedTracked(s: RState, out: seq<Retired>, k: nat)
    requires Tracked(s, out) && k < |out| && out[k].batch in s.batches
    ensures Tracked(DoReclaimed(s, out[k].batch, out[k].x), out[..k] + out[k + 1..])
  {
    hide Waiting, DoReclaimed;
    RemoveAt(out, k);
    forall r
      ensures Waiting(DoReclaimed(s, out[k].batch, out[k].x), r) <==> r in out[..k] + out[k + 1..]
    {
      ReclaimedWaiting(s, out[k].batch, out[k].x, r);
    }
  }

  /** Published versions, the garbage-collection queue and its counters. */
  class VersionTable {
    var cur: map<Vid, Version>
    var page: map<Version, PageNo>
    var next: Version
    var queue: seq<Retired>
    var submitted: seq<Retired>
    var pending: nat
    var remaining: map<PageNo, nat>
    /** Readers, frames and slots included. */
    ghost var s: RState

    ghost predicate Valid()
      reads this
    {
      && RInv(s) && Tracked(s, submitted + queue)
      && cur == s.cur && page == s.page && next == s.next && remaining == Remaining(s.batches)
      && pending == |submitted| + |queue|
    }

    /** Versions prepared for all vertices of the page, and publish_version_switch: a batch
     *  of as many. */
    method OpenBatch(p: PageNo, dest: map<Vid, PageNo>)
      requires Valid() && CanOpen(s, p, dest)
      modifies `remaining, `s
      ensures Valid() && RStepped(old(s), Open(p, dest), s)
    {
      hide RInv, DoOpen;
      OpenKeeps(s, p, dest);
      OpenFrame(s, p, dest, p);
      OpenTracked(s, p, dest, submitted + queue);
      OpenRemaining(s, p, dest);
      remaining := remaining[p := |dest.Keys|];
      s := DoOpen(s, p, dest);
    }

    /** publish_prepared_version: compare-and-swap the published version, and on success
     *  retire the replaced one into the batch.  On failure nothing happens. */
    method Publish(p: PageNo, v: Vid, expected: Version, q: PageNo) returns (ok: bool)
      requires Valid() && p in s.batches && v in s.batches[p].todo
      requires v in s.batches[p].expected && expected == s.batches[p].expected[v]
      requires v in s.batches[p].dest && q == s.batches[p].dest[v]
      modifies `cur, `page, `next, `queue, `pending, `s
      ensures Valid() && RStepped(old(s), SwitchTo(p, v), s)
      ensures v in old(cur) && (ok <==> old(cur)[v] == expected) && (ok <==> !Stale(old(s), p, v))
      ensures queue == old(queue) + if ok then [Retired(expected, p)] else []
      ensures ok ==> cur == old(cur)[v := old(next)] && page == old(page)[old(next) := q]
      ensures !ok ==> s == old(s)
    {
      hide RInv, Tracked, BatchOk, DoSwitchTo;
      PublishReady(p, v);
      ok := cur[v] == expected;
      SwitchToKeeps(s, p, v);
      if ok {
        SwitchTracked(s, p, v, submitted + queue);
        SwitchFrame(s, p, v, p);
        SwitchRemaining(s, p, v);
        assert submitted + (queue + [Retired(expected, p)]) == submitted + queue + [Retired(expected, p)];
        cur, page, next := cur[v := next], page[next := q], next + 1;
        pending := pending + 1;
        queue := queue + [Retired(expected, p)];
      } else {
        FailedSwitch(s, p, v);
      }
      s := DoSwitchTo(s, p, v);
    }

    lemma PublishReady(p: PageNo, v: Vid)
      requires Valid() && p in s.batches && v in s.batches[p].todo
      ensures CanSwitchTo(s, p, v) && MoveOk(s, p, v)
    {
      assert BatchOk(s, p);
    }

    /** version_gc_loop: hand the oldest retired version to the hazard-pointer domain. */
    method Submit() returns (some: bool)
      requires Valid()
      modifies `queue, `submitted
      ensures Valid() && (some <==> old(queue) != [])
      ensures submitted + queue == old(submitted + queue)
    {
      hide RInv, Tracked;
      some := queue != [];
      if some {
        assert submitted + queue == (submitted + [queue[0]]) + queue[1..];
        submitted, queue := submitted + [queue[0]], queue[1..];
      }
    }

    /** The deleter of a submitted version nobody protects: the last one of a batch, and
     *  no other, starts the release of the page. */
    method RunDeleter(k: nat) returns (last: bool)
      requires Valid() && k < |submitted| && !Protected(s, submitted[k].x)
      modifies `page, `submitted, `pending, `remaining, `s
      ensures Valid() && RStepped(old(s), Reclaimed(old(submitted)[k].batch, old(submitted)[k].x), s)
      ensures var b := s.batches[old(submitted)[k].batch]; last <==> b.todo == {} && b.retired == {}
    {
      hide RInv, Tracked, BatchOk, Protected;
      var r := submitted[k];
      DeleterReady(k);
      ReclaimedKeeps(s, r.batch, r.x);
      ReclaimedTracked(s, submitted + queue, k);
      ReclaimedRemaining(s, r.batch, r.x);
      LastOfBatch(DoReclaimed(s, r.batch, r.x), r.batch);
      assert (submitted + queue)[..k] + (submitted + queue)[k + 1..] == submitted[..k] + submitted[k + 1..] + queue;
      page := page - {r.x};
      var before := remaining[r.batch];
      remaining := remaining[r.batch := before - 1];
      last := before == 1;
      pending := pending - 1;
      submitted := submitted[..k] + submitted[k + 1..];
      s := DoReclaimed(s, r.batch, r.x);
    }

    lemma DeleterReady(k: nat)
      requires Valid() && k < |submitted|
      ensures Waiting(s, submitted[k]) && submitted[k].batch in s.batches && submitted[k].x in s.batches[submitted[k].batch].retired
      ensures (submitted + queue)[k] == submitted[k]
    {
      assert (submitted + queue)[k] in submitted + queue;
    }
  }

  lemma SwitchRemaining(s: RState, p: PageNo, v: Vid)
    requires Ready(s, p, v)
    ensures Remaining(DoSwitchTo(s, p, v).batches) == Remaining(s.batches)
  {
  }

  lemma OpenTracked(s: RState, p: PageNo, dest: map<Vid, PageNo>, out: seq<Retired>)
    requires CanOpen(s, p, dest) && Tracked(s, out)
    ensures Tracked(DoOpen(s, p, dest), out)
  {
    hide DoOpen;
    forall r ensures Waiting(DoOpen(s, p, dest), r) <==> Waiting(s, r) {
      OpenFrame(s, p, dest, r.batch);
    }
  }

  lemma OpenRemaining(s: RState, p: PageNo, dest: map<Vid, PageNo>)
    requires CanOpen(s, p, dest)
    ensures Remaining(DoOpen(s, p, dest).batches) == Remaining(s.batches)[p := |dest.Keys|]
  {
  }

  lemma ReclaimedRemaining(s: RState, p: PageNo, x: Version)
    requires p in s.batches && s.batches[p].remaining > 0
    ensures Remaining(DoReclaimed(s, p, x).batches) == Remaining(s.batches)[p := s.batches[p].remaining - 1]
  {
  }

  lemma LastOfBatch(s: RState, p: PageNo)
    requires RInv(s) && p in s.batches
    ensures s.batches[p].remaining == 0 <==> s.batches[p].todo == {} && s.batches[p].retired == {}
  {
    assert BatchOk(s, p);
  }

  // ---------------------------------------------------------------------------
  // Disk slots

  function Offsets(free: seq<PageNo>, size: nat): (offsets: seq<nat>)
    ensures |offsets| == |free|
    ensures forall i :: 0 <= i < |free| ==> offsets[i] == free[i] * size
  {
    seq(|free|, i requires 0 <= i < |free| => free[i] * size)
  }

  /** The numbers from lo up to but not including hi. */
  function Between(lo: nat, hi: nat): (numbers: set<nat>)
    ensures forall q :: q in numbers <==> lo <= q < hi
  {
    if lo >= hi then {} else Between(lo, hi - 1) + {hi - 1}
  }

  lemma Fits(p: nat, count: nat, size: nat)
    requires p < count
    ensures p * size + size <= count * size
  {
    assert (p + 1) * size <= count * size;
  }

  /** Slot bookkeeping of disk_manager_t. */
  class DiskSlots {
    const pageSize: nat
    var freeSlots: seq<nat>
    var pageCount: nat
    var capacity: nat
    ghost var live: set<PageNo>
    ghost var free: seq<PageNo>

    ghost predicate Valid()
      reads this
    {
      && pageSize > 0 && capacity >= pageCount * pageSize
      && freeSlots == Offsets(free, pageSize)
      && Slots(live, free, pageCount)
    }

    /** allocate_page: the last freed slot, else the end of the file. */
    method AllocatePage() returns (offset: nat)
      requires Valid()
      modifies this
      ensures Valid()
      ensures exists p :: offset == p * pageSize && p !in old(live) && live == old(live) + {p}
      ensures old(free) != [] ==> free == old(free)[..|old(free)| - 1] && pageCount == old(pageCount)
      ensures old(free) == [] ==> free == [] && pageCount == old(pageCount) + 1
    {
      if freeSlots != [] {
        offset := freeSlots[|freeSlots| - 1];
        PopSlot(live, free, pageCount);
        ghost var p := free[|free| - 1];
        freeSlots := freeSlots[..|freeSlots| - 1];
        live, free := live + {p}, free[..|free| - 1];
        return;
      }
      var currentSize := pageCount * pageSize;
      live := live + {pageCount};
      pageCount := pageCount + 1;
      if currentSize < capacity {
        capacity := currentSize + pageSize;
      }
      offset := currentSize;
      capacity := capacity + pageSize;
    }

    /** delete_page of a page in use never runs into the capacity check: the slot is
     *  always given back. */
    method DeletePage(p: PageNo) returns (freed: bool)
      requires Valid() && (p in live || p * pageSize + pageSize > capacity)
      modifies this
      ensures Valid() && (freed <==> p in old(live))
      ensures live == old(live) - {p} && pageCount == old(pageCount) && capacity == old(capacity)
      ensures free == if freed then old(free) + [p] else old(free)
    {
      if p in live {
        Fits(p, pageCount, pageSize);
      }
      var offset := p * pageSize;
      if offset + pageSize > capacity {
        return false;
      }
      freeSlots := freeSlots + [offset];
      live, free := live - {p}, free + [p];
      freed := true;
    }

    /** The bookkeeping of write_page: capacity doubles or grows to the page, and the page
     *  count covers it. */
    method WritePage(p: PageNo)
      requires Valid()
      modifies this
      ensures Valid() && capacity >= old(capacity) && p * pageSize + pageSize <= capacity
      ensures pageCount == (if p < old(pageCount) then old(pageCount) else p + 1) && free == old(free)
      ensures live == old(live) + Between(old(pageCount), p + 1)
    {
      var required := p * pageSize + pageSize;
      if required > capacity {
        capacity := if required > capacity * 2 then required else capacity * 2;
      }
      live := live + Between(pageCount, p + 1);
      if pageCount < p + 1 {
        pageCount := p + 1;
      }
    }
  }
}
