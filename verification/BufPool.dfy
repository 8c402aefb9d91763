/** The buffer pool over a disk refines a plain map from page number to content
 * (src/buf_pool.cc). */
module BufPool {
  import opened Replay
  import opened FrameLists

  type PageNo = nat
  type Data = seq<nat>

  /** What the disk returns for a page nobody wrote. */
  const ZEROS: Data := []

  /** The content of a freshly initialised page (reinit). */
  const BLANK: Data := [0]

  /** Per-frame attributes, the page map and the disk.  holders counts the latch holders
   *  of a frame: try_w_latch succeeds on a frame without any. */
  datatype Pool = Pool(pageNo: seq<PageNo>, data: seq<Data>, dirty: seq<bool>, pins: seq<nat>, holders: seq<nat>,
                       pageMap: map<PageNo, Frame>, disk: map<PageNo, Data>)

  function OnDisk(disk: map<PageNo, Data>, p: PageNo): Data {
    if p in disk then disk[p] else ZEROS
  }

  /** The content of a page, wherever it is. */
  function At(s: Pool, p: PageNo): Data {
    if p in s.pageMap && s.pageMap[p] < |s.data| then s.data[s.pageMap[p]] else OnDisk(s.disk, p)
  }

  predicate Sized(s: Pool, n: nat) {
    |s.pageNo| == |s.data| == |s.dirty| == |s.pins| == |s.holders| == n
  }

  predicate Idle(s: Pool, f: Frame) {
    f < |s.pins| && f < |s.holders| && s.pins[f] == 0 && s.holders[f] == 0
  }

  /** Frame f shows the page it is mapped for, and a clean one agrees with the disk. */
  predicate Mapped(s: Pool, f: Frame) {
    && f < |s.pageNo| && f < |s.data| && f < |s.dirty|
    && s.pageNo[f] in s.pageMap && s.pageMap[s.pageNo[f]] == f
    && (!s.dirty[f] ==> s.data[f] == OnDisk(s.disk, s.pageNo[f]))
  }

  /** Every frame is in one of the lists, the page map is a bijection with the LRU frames
   *  (but for a frame that is being filled), and free frames are idle and clean. */
  ghost predicate PoolOk(s: Pool, n: nat, free: seq<Frame>, lru: seq<Frame>, filling: Link) {
    && Sized(s, n)
    && (forall f: nat :: f < n <==> f in free || f in lru)
    && (forall f :: f in lru && Some(f) != filling ==> Mapped(s, f))
    && (forall p :: p in s.pageMap ==> s.pageMap[p] in lru && Some(s.pageMap[p]) != filling && s.pageNo[s.pageMap[p]] == p)
    && (forall f :: f in free ==> Idle(s, f) && !s.dirty[f])
    && (filling.Some? ==> filling.value in lru && filling.value < n && !s.dirty[filling.value] && s.pins[filling.value] == 0)
  }

  lemma UnlinkedMembers(order: seq<Frame>, i: nat)
    requires Distinct(order) && i < |order|
    ensures forall f :: f in Unlinked(order, i) <==> f in order && f != order[i]
  {
    forall f ensures f in Unlinked(order, i) <==> f in order && f != order[i] {
      if f in order && f != order[i] {
        var k :| 0 <= k < |order| && order[k] == f;
        assert Unlinked(order, i)[if k < i then k else k - 1] == f;
      }
    }
  }

  /** A frame from the free list. */
  lemma TakeFree(s: Pool, n: nat, free: seq<Frame>, lru: seq<Frame>, i: nat)
    requires PoolOk(s, n, free, lru, None) && i < |free| && Distinct(free) && Apart(free, lru)
    ensures var f := free[i];
      && f < n
      && PoolOk(s.(holders := s.holders[f := 1]), n, Unlinked(free, i), [f] + lru, Some(f))
    ensures free[i] < n ==> forall p :: At(s.(holders := s.holders[free[i] := 1]), p) == At(s, p)
  {
    var f := free[i];
    assert f in free && f !in lru;
    UnlinkedMembers(free, i);
    forall g | g in [f] + lru && Some(g) != Some(f) ensures Mapped(s.(holders := s.holders[f := 1]), g) {
      assert Mapped(s, g);
    }
  }

  /** The pool with frame f unmapped and written back if it was dirty. */
  function Evicted(s: Pool, f: Frame): Pool
    requires f < |s.pageNo| && f < |s.data| && f < |s.dirty| && f < |s.holders|
  {
    s.(pageMap := s.pageMap - {s.pageNo[f]},
       disk := if s.dirty[f] then s.disk[s.pageNo[f] := s.data[f]] else s.disk,
       dirty := s.dirty[f := false], holders := s.holders[f := 1])
  }

  lemma EvictMapped(s: Pool, f: Frame, g: Frame)
    requires Mapped(s, f) && Mapped(s, g) && g != f && f < |s.holders|
    ensures Mapped(Evicted(s, f), g) && s.pageNo[g] != s.pageNo[f]
  {
  }

  /** Eviction loses nothing: a dirty page is on disk afterwards, a clean one was. */
  lemma EvictAt(s: Pool, f: Frame, p: PageNo)
    requires Mapped(s, f) && f < |s.holders| && |s.data| == |s.pageNo|
    ensures At(Evicted(s, f), p) == At(s, p)
  {
  }

  /** The same frames in another order. */
  lemma Reordered(s: Pool, n: nat, free: seq<Frame>, lru: seq<Frame>, lru': seq<Frame>, filling: Link)
    requires PoolOk(s, n, free, lru, filling) && forall f :: f in lru' <==> f in lru
    ensures PoolOk(s, n, free, lru', filling)
  {
    hide Mapped, Idle;
  }

  lemma EvictInPlace(s: Pool, n: nat, free: seq<Frame>, lru: seq<Frame>, f: Frame)
    requires PoolOk(s, n, free, lru, None) && f in lru && Idle(s, f) && Apart(free, lru)
    ensures f < n && PoolOk(Evicted(s, f), n, free, lru, Some(f))
  {
    assert Mapped(s, f);
    forall g | g in lru && g != f ensures Mapped(Evicted(s, f), g) {
      EvictMapped(s, f, g);
    }
    forall g | g in free ensures Idle(Evicted(s, f), g) && !Evicted(s, f).dirty[g] {
      assert g !in lru && Idle(s, g);
    }
  }

  lemma EvictOk(s: Pool, n: nat, free: seq<Frame>, lru: seq<Frame>, i: nat)
    requires PoolOk(s, n, free, lru, None) && i < |lru| && Distinct(lru) && Apart(free, lru) && Idle(s, lru[i])
    ensures lru[i] < n && PoolOk(Evicted(s, lru[i]), n, free, [lru[i]] + Unlinked(lru, i), Some(lru[i]))
    ensures forall p :: At(Evicted(s, lru[i]), p) == At(s, p)
  {
    var f := lru[i];
    assert f in lru && Mapped(s, f);
    UnlinkedMembers(lru, i);
    EvictInPlace(s, n, free, lru, f);
    forall p ensures At(Evicted(s, f), p) == At(s, p) {
      EvictAt(s, f, p);
    }
    hide Evicted, Mapped, Idle, At;
    Reordered(Evicted(s, f), n, free, lru, [f] + Unlinked(lru, i), Some(f));
  }

  /** The pool with frame f filled and mapped. */
  function Installed(s: Pool, f: Frame, p: PageNo, d: Data, dirty: bool, pins: nat, holders: nat): Pool
    requires f < |s.pageNo| && f < |s.data| && f < |s.dirty| && f < |s.pins| && f < |s.holders|
  {
    s.(pageNo := s.pageNo[f := p], data := s.data[f := d], dirty := s.dirty[f := dirty], pins := s.pins[f := pins],
       holders := s.holders[f := holders], pageMap := s.pageMap[p := f])
  }

  lemma InstallOk(s: Pool, n: nat, free: seq<Frame>, lru: seq<Frame>, f: Frame, p: PageNo, d: Data, dirty: bool,
                  pins: nat, holders: nat)
    requires PoolOk(s, n, free, lru, Some(f)) && Apart(free, lru) && p !in s.pageMap && (dirty || d == OnDisk(s.disk, p))
    ensures f < n && PoolOk(Installed(s, f, p, d, dirty, pins, holders), n, free, lru, None)
    ensures forall q :: At(Installed(s, f, p, d, dirty, pins, holders), q) == if q == p then d else At(s, q)
  {
    var s' := Installed(s, f, p, d, dirty, pins, holders);
    forall g | g in lru ensures Mapped(s', g) {
      if g != f {
        assert Mapped(s, g);
      }
    }
    forall g | g in free ensures Idle(s', g) && !s'.dirty[g] {
      assert g !in lru && Idle(s, g);
    }
  }

  /** Latches, pins and contents of a cached page change; the lists do not. */
  lemma TouchOk(s: Pool, n: nat, free: seq<Frame>, lru: seq<Frame>, f: Frame, d: Data, dirty: bool, pins: nat,
                holders: nat, disk: map<PageNo, Data>)
    requires PoolOk(s, n, free, lru, None) && Apart(free, lru) && f in lru && f < n
    requires forall p :: p != s.pageNo[f] ==> OnDisk(disk, p) == OnDisk(s.disk, p)
    requires dirty || d == OnDisk(disk, s.pageNo[f])
    ensures var s' := s.(data := s.data[f := d], dirty := s.dirty[f := dirty], pins := s.pins[f := pins],
                         holders := s.holders[f := holders], disk := disk);
      && PoolOk(s', n, free, lru, None)
      && forall p :: At(s', p) == if p == s.pageNo[f] then d else At(s, p)
  {
    var s' := s.(data := s.data[f := d], dirty := s.dirty[f := dirty], pins := s.pins[f := pins],
                 holders := s.holders[f := holders], disk := disk);
    assert Mapped(s, f);
    forall g | g in lru ensures Mapped(s', g) {
      assert Mapped(s, g);
    }
    forall g | g in free ensures Idle(s', g) && !s'.dirty[g] {
      assert g !in lru && Idle(s, g);
    }
  }

  /** Dropping a cached page without write-back. */
  function Dropped(s: Pool, f: Frame): Pool
    requires f < |s.pageNo| && f < |s.dirty|
  {
    s.(pageMap := s.pageMap - {s.pageNo[f]}, dirty := s.dirty[f := false])
  }

  lemma DropOk(s: Pool, n: nat, free: seq<Frame>, lru: seq<Frame>, i: nat)
    requires PoolOk(s, n, free, lru, None) && i < |lru| && Distinct(lru) && Apart(free, lru) && Idle(s, lru[i])
    ensures lru[i] < n && PoolOk(Dropped(s, lru[i]), n, free + [lru[i]], Unlinked(lru, i), None)
    ensures forall p :: At(Dropped(s, lru[i]), p) == if p == s.pageNo[lru[i]] then OnDisk(s.disk, p) else At(s, p)
  {
    var f := lru[i];
    assert f in lru && Mapped(s, f);
    UnlinkedMembers(lru, i);
    var s' := Dropped(s, f);
    forall g | g in Unlinked(lru, i) ensures Mapped(s', g) {
      assert Mapped(s, g);
    }
    forall g | g in free + [f] ensures Idle(s', g) && !s'.dirty[g] {
      if g != f {
        assert g in free && Idle(s, g);
      }
    }
  }

  /** Which frames try_w_latch fails on. */
  function Held(holders: seq<nat>): (held: seq<bool>)
    ensures |held| == |holders| && forall f :: 0 <= f < |held| ==> held[f] == (holders[f] > 0)
  {
    seq(|holders|, f requires 0 <= f < |holders| => holders[f] > 0)
  }

  lemma VictimPosition(s: Pool, lru: seq<Frame>, f: Frame) returns (i: nat)
    requires f in lru
    ensures i < |lru| && lru[i] == f
  {
    i :| 0 <= i < |lru| && lru[i] == f;
  }

  /** What the clock sees: the list, its hand, pins, latches and reference bits. */
  datatype Dial = Dial(lru: seq<Frame>, hand: Link, pins: seq<nat>, holders: seq<nat>, referenced: seq<bool>)

  /** `f` and the new reference bits are those of the clock, whose hand stands at position h. */
  ghost predicate ByClock(c: Dial, f: Link, bits: seq<bool>) {
    && |c.pins| == |c.holders| == |c.referenced|
    && (forall h: nat :: h < |c.lru| && c.hand == Some(c.lru[h]) ==>
          VictimOk(c.lru, Turn(c.lru, h), c.pins, seq(|c.holders|, i requires 0 <= i < |c.holders| => c.holders[i] > 0),
                   c.referenced, f, bits))
  }

  lemma TakenByClock(c: Dial, h: nat, f: Link, bits: seq<bool>)
    requires |c.pins| == |c.holders| == |c.referenced| && Distinct(c.lru)
    requires c.lru != [] ==> h < |c.lru| && c.hand == Some(c.lru[h])
    requires c.lru != [] ==> VictimOk(c.lru, Turn(c.lru, h), c.pins, Held(c.holders), c.referenced, f, bits)
    ensures ByClock(c, f, bits)
  {
    hide VictimOk, Turn;
    assert Held(c.holders) == seq(|c.holders|, i requires 0 <= i < |c.holders| => c.holders[i] > 0);
  }

  /** The buffer pool with its disk. */
  class BufferPool {
    const lists: Lists
    const size: nat
    var pageNo: seq<PageNo>
    var data: seq<Data>
    var dirty: seq<bool>
    var referenced: seq<bool>
    var pins: seq<nat>
    var holders: seq<nat>
    var pageMap: map<PageNo, Frame>
    var disk: map<PageNo, Data>

    ghost function Now(): Pool
      reads this
    {
      Pool(pageNo, data, dirty, pins, holders, pageMap, disk)
    }

    /** Lists, hand and frames fit together; `filling` is a frame claimed and not mapped yet. */
    ghost predicate Fits(filling: Link)
      reads this, lists, lists.prev, lists.next
    {
      && lists.Valid() && lists.HandOk() && lists.prev.Length == size == |referenced|
      && PoolOk(Now(), size, lists.free, lists.lru, filling)
      && (size == 0 ==> lists.clockHand == None)
    }

    ghost predicate Valid()
      reads this, lists, lists.prev, lists.next
    {
      Fits(None)
    }

    /** What a reader of page p gets. */
    ghost function Content(p: PageNo): Data
      reads this
    {
      At(Now(), p)
    }

    constructor (frames: nat, disk: map<PageNo, Data>)
      ensures Valid() && size == frames && pageMap == map[] && this.disk == disk
      ensures forall p :: Content(p) == OnDisk(disk, p)
      ensures fresh(lists) && fresh(lists.prev) && fresh(lists.next)
    {
      lists := new Lists(frames);
      size := frames;
      pageNo, data := seq(frames, i => 0), seq(frames, i => ZEROS);
      dirty, referenced := seq(frames, i => false), seq(frames, i => false);
      pins, holders := seq(frames, i => 0), seq(frames, i => 0);
      pageMap, this.disk := map[], disk;
      new;
      forall f: nat | f < frames ensures f in lists.free {
        assert lists.free[f] == f;
      }
    }

    ghost function Clock(): Dial
      reads this, lists
    {
      Dial(lists.lru, lists.clockHand, pins, holders, referenced)
    }

    /** Whether a frame could be claimed: one is free, or some cached page is idle. */
    ghost predicate Claimable()
      reads this, lists
    {
      lists.free != [] || exists f :: f in lists.lru && Idle(Now(), f)
    }

    /** The frame at the head of the free list. */
    method ClaimFree() returns (f: Link)
      requires Valid() && lists.free != []
      modifies this, lists, lists.prev, lists.next
      ensures f == Some(old(lists.free[0])) && Fits(f) && lists.lru != [] && lists.lru[0] == f.value < size
      ensures forall p :: Content(p) == old(Content(p))
      ensures pageMap == old(pageMap)
    {
      hide Listed, LinkOk, Apart, Distinct, PoolOk, At;
      ghost var s := Now();
      ListsApart();
      AllSized();
      f := lists.freeHead;
      TakeFree(s, size, lists.free, lists.lru, 0);
      FreeFront();
      lists.RemoveFromFreeList(f.value, 0);
      lists.AddToLruHead(f.value);
      holders := holders[f.value := 1];
    }

    /** The victim of the clock, if there is one. */
    method ClaimVictim() returns (f: Link)
      requires Valid() && lists.free == []
      modifies this, lists, lists.prev, lists.next
      ensures f.Some? <==> old(exists f :: f in lists.lru && Idle(Now(), f))
      ensures Fits(f) && (f.Some? ==> lists.lru != [] && lists.lru[0] == f.value < size)
      ensures forall p :: Content(p) == old(Content(p))
      ensures pageMap.Keys <= old(pageMap).Keys
      ensures f == None ==> pageMap == old(pageMap) && disk == old(disk)
      ensures ByClock(old(Clock()), f, referenced)
    {
      hide Listed, LinkOk, Apart, Distinct, PoolOk, At, VictimOk, Turn, ByClock;
      ghost var s, lru := Now(), lists.lru;
      ListsApart();
      AllSized();
      ghost var h := HandPosition();
      assert lru != [] ==> lru[0] in lru;
      f, referenced := lists.FindVictimPage(pins, Held(holders), referenced, h);
      TakenByClock(old(Clock()), h, f, referenced);
      if f.Some? {
        ghost var i := VictimPosition(s, lru, f.value);
        EvictFrame(f.value, i);
      }
    }

    /** The victim leaves the page map and its list position; a dirty one is written back. */
    method EvictFrame(f: Frame, ghost i: nat)
      requires Valid() && i < |lists.lru| && lists.lru[i] == f && Idle(Now(), f)
      modifies this, lists, lists.prev, lists.next
      ensures Fits(Some(f)) && lists.lru != [] && lists.lru[0] == f < size
      ensures forall p :: Content(p) == old(Content(p))
      ensures pageMap.Keys <= old(pageMap).Keys && referenced == old(referenced)
    {
      hide Listed, LinkOk, Apart, Distinct, PoolOk, At;
      ghost var s := Now();
      ListsApart();
      AllSized();
      LruMember(i);
      EvictOk(s, size, lists.free, lists.lru, i);
      lists.RemoveFromLruList(f, i);
      lists.AddToLruHead(f);
      pageMap := pageMap - {pageNo[f]};
      if dirty[f] {
        disk := disk[pageNo[f] := data[f]];
      }
      dirty := dirty[f := false];
      holders := holders[f := 1];
    }

    lemma LruMember(i: nat)
      requires Valid() && i < |lists.lru|
      ensures lists.lru[i] in lists.lru && lists.lru[i] < size && lists.lru[i] !in lists.free
      ensures lists.lru[i] !in Unlinked(lists.lru, i)
    {
      UnlinkedMembers(lists.lru, i);
      assert lists.lru[i] in lists.lru;
    }

    lemma AllSized()
      requires Valid()
      ensures Sized(Now(), size) && forall f :: f in lists.lru || f in lists.free ==> f < size
    {
    }

    /** No frame is in both lists, and none twice in one. */
    lemma ListsApart()
      requires lists.Valid()
      ensures Distinct(lists.free) && Distinct(lists.lru) && Apart(lists.free, lists.lru)
    {
    }

    lemma FreeFront()
      requires lists.Valid() && lists.free != []
      ensures lists.freeHead == Some(lists.free[0])
      ensures forall f :: f in lists.free ==> f !in lists.lru
      ensures lists.free[0] !in Unlinked(lists.free, 0)
    {
      UnlinkedMembers(lists.free, 0);
    }

    lemma HandPosition() returns (h: nat)
      requires Valid() && lists.free == []
      ensures lists.lru == [] ==> lists.clockHand == None
      ensures lists.lru != [] ==> h < |lists.lru| && lists.clockHand == Some(lists.lru[h])
    {
      h := 0;
      if lists.lru != [] {
        h :| 0 <= h < |lists.lru| && lists.lru[h] == lists.clockHand.value;
      } else {
        assert 0 < size <==> 0 in lists.free || 0 in lists.lru;
      }
    }

    /** claim_frame_for_reuse: the first free frame, else the victim of the clock, written back
     *  if dirty.  The contents of all pages stay; without a frame only reference bits have changed. */
    method ClaimFrame() returns (f: Link)
      requires Valid()
      modifies this, lists, lists.prev, lists.next
      ensures f.Some? <==> old(Claimable())
      ensures Fits(f) && (f.Some? ==> lists.lru != [] && lists.lru[0] == f.value < size)
      ensures forall p :: Content(p) == old(Content(p))
      ensures pageMap.Keys <= old(pageMap).Keys
      ensures f == None ==> pageMap == old(pageMap) && disk == old(disk)
      ensures old(lists.free) != [] ==> f == Some(old(lists.free)[0])
      ensures old(lists.free) == [] ==> ByClock(old(Clock()), f, referenced)
    {
      hide ByClock;
      if lists.freeHead == None {
        f := ClaimVictim();
      } else {
        f := ClaimFree();
      }
    }

    /** A cached page has a frame of its own, in the LRU list. */
    lemma InLru(p: PageNo)
      requires Valid() && p in pageMap
      ensures pageMap[p] < size && pageMap[p] in lists.lru && pageMap[p] !in lists.free
      ensures pageNo[pageMap[p]] == p && Content(p) == data[pageMap[p]] && Mapped(Now(), pageMap[p])
      ensures Sized(Now(), size)
    {
    }

    /** Latch a cached page and set its reference bit (try_latch_cached_page). */
    method LatchCached(p: PageNo) returns (f: Frame)
      requires Valid() && p in pageMap
      modifies `referenced, `holders
      ensures Valid() && f == pageMap[p] < size && referenced == old(referenced)[f := true]
      ensures f < |old(holders)| == |holders| && holders == old(holders)[f := old(holders)[f] + 1]
      ensures forall q :: Content(q) == old(Content(q))
    {
      hide Listed, LinkOk, Apart, Distinct, PoolOk, At, Mapped;
      InLru(p);
      ListsApart();
      f := pageMap[p];
      CachedTouch(f, pins[f], holders[f] + 1);
      referenced := referenced[f := true];
      holders := holders[f := holders[f] + 1];
      assert pins[f := pins[f]] == pins;
    }

    /** What touching a cached page does to the fields. */
    lemma CachedTouch(f: Frame, pinCount: nat, holderCount: nat)
      requires Valid() && f in lists.lru && f < size && Sized(Now(), size)
      ensures var s' := Now().(pins := pins[f := pinCount], holders := holders[f := holderCount]);
        PoolOk(s', size, lists.free, lists.lru, None) && forall q :: At(s', q) == At(Now(), q)
    {
      var s := Now();
      ListsApart();
      assert Mapped(s, f);
      TouchOk(s, size, lists.free, lists.lru, f, data[f], dirty[f], pinCount, holderCount, disk);
      assert data[f := data[f]] == data && dirty[f := dirty[f]] == dirty;
    }

    /** Fill a claimed frame and map it. */
    method Install(f: Frame, p: PageNo, d: Data, isDirty: bool, pinCount: nat, holderCount: nat)
      requires Fits(Some(f)) && p !in pageMap && (isDirty || d == OnDisk(disk, p))
      modifies `pageNo, `data, `dirty, `referenced, `pins, `holders, `pageMap
      ensures Valid() && f < size && pageMap == old(pageMap)[p := f] && data == old(data)[f := d]
      ensures f < |pins| == |holders| && pins[f] == pinCount && holders[f] == holderCount
      ensures forall q :: Content(q) == if q == p then d else old(Content(q))
    {
      ListsApart();
      InstallOk(Now(), size, lists.free, lists.lru, f, p, d, isDirty, pinCount, holderCount);
      hide Listed, LinkOk, Apart, Distinct, PoolOk, At;
      pageNo, data, dirty := pageNo[f := p], data[f := d], dirty[f := isDirty];
      referenced := referenced[f := true];
      pins, holders := pins[f := pinCount], holders[f := holderCount];
      pageMap := pageMap[p := f];
    }

    /** read_page_internal: the cached frame, else a claimed one filled from disk.  It fails
     *  exactly when the page is not cached and no frame can be claimed; no page changes. */
    method ReadPage(p: PageNo) returns (f: Link)
      requires Valid()
      modifies this, lists, lists.prev, lists.next
      ensures Valid()
      ensures f == None <==> p !in old(pageMap) && !old(Claimable())
      ensures f.Some? ==> p in pageMap && f.value == pageMap[p] < |data| && data[f.value] == Content(p)
      ensures f.Some? ==> f.value < |holders| && holders[f.value] > 0
      ensures forall q :: Content(q) == old(Content(q))
    {
      hide Listed, LinkOk, Apart, Distinct, PoolOk, At, Claimable;
      if p in pageMap {
        var cached := LatchCached(p);
        InLru(p);
        return Some(cached);
      }
      f := ClaimFrame();
      if f.Some? {
        OnDiskOnly(p);
        Install(f.value, p, OnDisk(disk, p), false, 0, 1);
        InLru(p);
      }
    }

    lemma OnDiskOnly(p: PageNo)
      requires p !in pageMap
      ensures Content(p) == OnDisk(disk, p)
    {
    }

    /** buf_page_new: a cached page as it is, else a blank one, pinned and dirty. */
    method NewPage(p: PageNo) returns (f: Link)
      requires Valid()
      modifies this, lists, lists.prev, lists.next
      ensures Valid()
      ensures f == None <==> p !in old(pageMap) && !old(Claimable())
      ensures f.Some? ==> p in pageMap && f.value == pageMap[p]
      ensures f.Some? && p !in old(pageMap) ==> f.value < |pins| && pins[f.value] == 1
      ensures forall q :: Content(q) == if q == p && p !in old(pageMap) && f.Some? then BLANK else old(Content(q))
    {
      hide Listed, LinkOk, Apart, Distinct, PoolOk, At, Claimable;
      if p in pageMap {
        var cached := LatchCached(p);
        return Some(cached);
      }
      f := ClaimFrame();
      if f.Some? {
        Install(f.value, p, BLANK, true, 1, 1);
        InLru(p);
      }
    }

    /** buf_page_cp, marked dirty as its callers do: a page that is cached is left alone. */
    method CopyPage(p: PageNo, d: Data) returns (f: Link)
      requires Valid()
      modifies this, lists, lists.prev, lists.next
      ensures Valid()
      ensures f.Some? <==> p !in old(pageMap) && old(Claimable())
      ensures f.Some? ==> p in pageMap && f.value == pageMap[p]
      ensures f.Some? ==> f.value < |pins| == |holders| && pins[f.value] == 0 && holders[f.value] == 0
      ensures forall q :: Content(q) == if q == p && f.Some? then d else old(Content(q))
    {
      hide Listed, LinkOk, Apart, Distinct, PoolOk, At, Claimable;
      if p in pageMap {
        return None;
      }
      f := ClaimFrame();
      if f.Some? {
        Install(f.value, p, d, true, 0, 0);
      }
    }

    /** The holder of a latch changes the page and marks it dirty. */
    method WriteFrame(p: PageNo, d: Data)
      requires Valid() && p in pageMap && pageMap[p] < |holders| && holders[pageMap[p]] > 0
      modifies `data, `dirty
      ensures Valid()
      ensures forall q :: Content(q) == if q == p then d else old(Content(q))
    {
      InLru(p);
      ListsApart();
      var f := pageMap[p];
      TouchOk(Now(), size, lists.free, lists.lru, f, d, true, pins[f], holders[f], disk);
      assert pins[f := pins[f]] == pins && holders[f := holders[f]] == holders;
      hide Listed, LinkOk, Apart, Distinct, PoolOk, At;
      data, dirty := data[f := d], dirty[f := true];
    }

    /** The flusher: a dirty page is written to disk and is clean. */
    method FlushPage(p: PageNo)
      requires Valid()
      modifies `dirty, `disk
      ensures Valid()
      ensures forall q :: Content(q) == old(Content(q))
      ensures OnDisk(disk, p) == Content(p)
    {
      if p in pageMap {
        InLru(p);
        ListsApart();
        var f := pageMap[p];
        if dirty[f] {
          TouchOk(Now(), size, lists.free, lists.lru, f, data[f], false, pins[f], holders[f], disk[p := data[f]]);
          assert pins[f := pins[f]] == pins && holders[f := holders[f]] == holders && data[f := data[f]] == data;
          disk := disk[p := data[f]];
          dirty := dirty[f := false];
        }
      }
    }

    /** retire_page: a cached page nobody uses is dropped without being written back; no
     *  other page changes.  It is refused while the frame is pinned or latched. */
    method RetirePage(p: PageNo) returns (ok: bool)
      requires Valid()
      modifies this, lists, lists.prev, lists.next
      ensures Valid()
      ensures ok <==> p !in old(pageMap) || Idle(old(Now()), old(pageMap)[p])
      ensures ok ==> p !in pageMap && Content(p) == OnDisk(old(disk), p)
      ensures !ok ==> pageMap == old(pageMap) && Content(p) == old(Content(p))
      ensures forall q :: q != p ==> Content(q) == old(Content(q))
    {
      hide Listed, LinkOk, Apart, Distinct, PoolOk, At;
      if p !in pageMap {
        OnDiskOnly(p);
        return true;
      }
      InLru(p);
      var f := pageMap[p];
      if pins[f] > 0 || holders[f] > 0 {
        return false;
      }
      ghost var i := VictimPosition(Now(), lists.lru, f);
      RetireFrame(f, i);
      OnDiskOnly(p);
      ok := true;
    }

    method RetireFrame(f: Frame, ghost i: nat)
      requires Valid() && i < |lists.lru| && lists.lru[i] == f && Idle(Now(), f) && f < |pageNo|
      modifies this, lists, lists.prev, lists.next
      ensures Valid() && disk == old(disk) && pageMap == old(pageMap) - {old(pageNo)[f]}
      ensures forall q :: q != old(pageNo)[f] ==> Content(q) == old(Content(q))
    {
      hide Listed, LinkOk, Apart, Distinct, PoolOk, At;
      ListsApart();
      AllSized();
      LruMember(i);
      DropOk(Now(), size, lists.free, lists.lru, i);
      pageMap := pageMap - {pageNo[f]};
      lists.RemoveFromLruList(f, i);
      dirty := dirty[f := false];
      referenced := referenced[f := false];
      lists.AddToFreeList(f);
    }

    /** One holder less on a frame, one pin less. */
    method Unlatch(p: PageNo)
      requires Valid() && p in pageMap && pageMap[p] < |holders| && holders[pageMap[p]] > 0
      modifies `holders
      ensures Valid() && holders == old(holders)[pageMap[p] := old(holders)[pageMap[p]] - 1]
      ensures forall q :: Content(q) == old(Content(q))
    {
      hide Listed, LinkOk, Apart, Distinct, PoolOk, At, Mapped;
      InLru(p);
      var f := pageMap[p];
      CachedTouch(f, pins[f], holders[f] - 1);
      holders := holders[f := holders[f] - 1];
      assert pins[f := pins[f]] == pins;
    }

    method Unpin(p: PageNo)
      requires Valid() && p in pageMap && pageMap[p] < |pins| && pins[pageMap[p]] > 0
      modifies `pins
      ensures Valid() && pins == old(pins)[pageMap[p] := old(pins)[pageMap[p]] - 1]
      ensures forall q :: Content(q) == old(Content(q))
    {
      hide Listed, LinkOk, Apart, Distinct, PoolOk, At, Mapped;
      InLru(p);
      var f := pageMap[p];
      CachedTouch(f, pins[f] - 1, holders[f]);
      pins := pins[f := pins[f] - 1];
      assert holders[f := holders[f]] == holders;
    }
  }
}
