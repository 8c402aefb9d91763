/** Reclaiming a replaced page: vertex versions, hazard-pointer readers, reclaim
 * batches, page frames and disk slots (src/vertex_index.cc, src/smo.cc,
 * src/buf_pool.cc, src/disk_manager.cc), as a state machine over all of them.
 *
 * Any page may be under consolidation, also one that vertices are still being
 * switched to, so that two workers may have prepared the same version. */
module Reclaim {
  import opened Replay

  type PageNo = nat
  type Version = nat

  /** What one reader holds: a protected version, the latched frame of its page, both
   *  in turn (protect, read the page, release the version, release the page). */
  datatype Reader = Idle | Protects(x: Version) | Reads(x: Version, p: PageNo) | Uses(p: PageNo)

  /** The switch of one replaced page.
   *  expected, dest: the version of each vertex when its successor was prepared, and the
   *  page of the successor; todo: vertices still to switch; retired: versions retired
   *  and not yet reclaimed; remaining: the counter. */
  datatype Batch = Batch(expected: map<Vid, Version>, dest: map<Vid, PageNo>,
                         todo: set<Vid>, retired: set<Version>, remaining: nat)

  /** cur: published version of each vertex; page, owner: the versions that exist; into:
   *  the batch that a replaced version was retired into; lists: vertices stored on each
   *  page; pins: frames pinned by workers; live: slots in use; free, count: the disk
   *  manager. */
  datatype RState = RState(cur: map<Vid, Version>, page: map<Version, PageNo>, owner: map<Version, Vid>,
                           into: map<Version, PageNo>, next: Version, lists: map<PageNo, set<Vid>>,
                           batches: map<PageNo, Batch>, readers: map<nat, Reader>, pins: multiset<PageNo>,
                           live: set<PageNo>, free: seq<PageNo>, count: nat)

  datatype RStep =
    | Protect(r: nat, v: Vid)
    | ReadPage(r: nat)
    | Release(r: nat)
    | Unlatch(r: nat)
    | Pin(r: nat)
    | Unpin(p: PageNo)
    | Allocate
    | Open(p: PageNo, dest: map<Vid, PageNo>)
    | SwitchTo(p: PageNo, v: Vid)
    | Reclaimed(p: PageNo, x: Version)
    | Complete(p: PageNo)

  function ReaderOf(s: RState, r: nat): Reader {
    if r in s.readers then s.readers[r] else Idle
  }

  /** The slot that allocate_page hands out: the last freed one, else a new one. */
  function Slot(s: RState): PageNo {
    if s.free != [] then s.free[|s.free| - 1] else s.count
  }

  /** Some reader has version x protected. */
  ghost predicate Protected(s: RState, x: Version) {
    exists r :: (ReaderOf(s, r).Protects? || ReaderOf(s, r).Reads?) && ReaderOf(s, r).x == x
  }

  /** Some reader has the frame of p latched. */
  ghost predicate Latched(s: RState, p: PageNo) {
    exists r :: (ReaderOf(s, r).Uses? || ReaderOf(s, r).Reads?) && ReaderOf(s, r).p == p
  }

  /** The vertices of a page that is not yet under consolidation get new, still empty
   *  pages. */
  predicate CanOpen(s: RState, p: PageNo, dest: map<Vid, PageNo>) {
    && p in s.live && p in s.lists && p !in s.batches && s.lists[p] != {} && dest.Keys == s.lists[p]
    && forall v :: v in dest ==> v in s.cur && dest[v] in s.live && dest[v] !in s.lists
  }

  predicate CanSwitchTo(s: RState, p: PageNo, v: Vid) {
    && p in s.batches && v in s.batches[p].todo && v in s.batches[p].expected && v in s.batches[p].dest && v in s.cur
  }

  /** The vertices that are to move to q. */
  function MovedTo(dest: map<Vid, PageNo>, q: PageNo): set<Vid> {
    set v | v in dest && dest[v] == q
  }

  /** New versions prepared for all vertices of the page, and counted. */
  function DoOpen(s: RState, p: PageNo, dest: map<Vid, PageNo>): RState
    requires CanOpen(s, p, dest)
  {
    s.(lists := s.lists + (map q | q in dest.Values :: MovedTo(dest, q)),
       batches := s.batches[p := Batch(map v | v in dest :: s.cur[v], dest, dest.Keys, {}, |dest.Keys|)])
  }

  /** The expected version is still the published one. */
  predicate Stands(s: RState, p: PageNo, v: Vid)
    requires CanSwitchTo(s, p, v)
  {
    s.batches[p].expected[v] == s.cur[v]
  }

  /** The new version is published and the old one retired into the batch, if the old one
   *  is still there.  If it is not, nothing happens and the worker throws. */
  function DoSwitchTo(s: RState, p: PageNo, v: Vid): RState
    requires CanSwitchTo(s, p, v)
  {
    var b := s.batches[p];
    if Stands(s, p, v) then
      s.(cur := s.cur[v := s.next], page := s.page[s.next := b.dest[v]], owner := s.owner[s.next := v],
         into := s.into[s.cur[v] := p], next := s.next + 1,
         batches := s.batches[p := b.(todo := b.todo - {v}, retired := b.retired + {s.cur[v]})])
    else s
  }

  /** The deleter of a version runs: the counter goes down by one (and would wrap at 0). */
  function DoReclaimed(s: RState, p: PageNo, x: Version): RState
    requires p in s.batches
  {
    var b := s.batches[p];
    s.(page := s.page - {x}, owner := s.owner - {x}, into := s.into - {x},
       batches := s.batches[p := b.(retired := b.retired - {x},
                                    remaining := if b.remaining > 0 then b.remaining - 1 else 0xFFFF_FFFF_FFFF_FFFF)])
  }

  /** The slot of a page whose batch is complete goes back. */
  function DoComplete(s: RState, p: PageNo): RState {
    s.(batches := s.batches - {p}, lists := s.lists - {p}, live := s.live - {p}, free := s.free + [p])
  }

  function DoAllocate(s: RState): RState {
    s.(live := s.live + {Slot(s)}, free := if s.free != [] then s.free[..|s.free| - 1] else [],
       count := if s.free != [] then s.count else s.count + 1)
  }

  ghost predicate REnabled(s: RState, t: RStep) {
    match t
    case Protect(r, v) => ReaderOf(s, r).Idle? && v in s.cur
    case ReadPage(r) => ReaderOf(s, r).Protects? && ReaderOf(s, r).x in s.page
    case Release(r) => ReaderOf(s, r).Reads?
    case Unlatch(r) => ReaderOf(s, r).Uses?
    case Pin(r) => ReaderOf(s, r).Reads?
    case Unpin(p) => p in s.pins
    case Allocate => true
    case Open(p, dest) => CanOpen(s, p, dest)
    case SwitchTo(p, v) => CanSwitchTo(s, p, v)
    case Reclaimed(p, x) => p in s.batches && x in s.batches[p].retired && !Protected(s, x)
    case Complete(p) => p in s.batches && s.batches[p].remaining == 0 && !Latched(s, p) && p !in s.pins
  }

  ghost function RNext(s: RState, t: RStep): RState
    requires REnabled(s, t)
  {
    match t
    case Protect(r, v) => s.(readers := s.readers[r := Protects(s.cur[v])])
    case ReadPage(r) => s.(readers := s.readers[r := Reads(ReaderOf(s, r).x, s.page[ReaderOf(s, r).x])])
    case Release(r) => s.(readers := s.readers[r := Uses(ReaderOf(s, r).p)])
    case Unlatch(r) => s.(readers := s.readers[r := Idle])
    case Pin(r) => s.(pins := s.pins + multiset{ReaderOf(s, r).p})
    case Unpin(p) => s.(pins := s.pins - multiset{p})
    case Allocate => DoAllocate(s)
    case Open(p, dest) => DoOpen(s, p, dest)
    case SwitchTo(p, v) => DoSwitchTo(s, p, v)
    case Reclaimed(p, x) => DoReclaimed(s, p, x)
    case Complete(p) => DoComplete(s, p)
  }

  // ---------------------------------------------------------------------------
  // Invariant

  /** Every vertex has its own version, on a page that stores it. */
  ghost predicate CurOk(s: RState) {
    forall v :: v in s.cur ==>
      && s.cur[v] in s.page && s.cur[v] in s.owner && s.owner[s.cur[v]] == v
      && s.page[s.cur[v]] in s.lists && v in s.lists[s.page[s.cur[v]]]
  }

  /** Of the pages that store a vertex, one at most is not under consolidation, and the
   *  vertex is there or on a page that is. */
  ghost predicate ListedOk(s: RState, p: PageNo, v: Vid)
    requires p in s.lists && v in s.lists[p]
  {
    && p in s.live && v in s.cur && s.cur[v] in s.page
    && (p !in s.batches ==>
          && (s.page[s.cur[v]] == p || s.page[s.cur[v]] in s.batches)
          && forall q :: q in s.lists && v in s.lists[q] && q !in s.batches ==> q == p)
  }

  ghost predicate ListsOk(s: RState) {
    forall p, v :: p in s.lists && v in s.lists[p] ==> ListedOk(s, p, v)
  }

  /** The batch of page p still waits for version x, or for a switch of its vertex, which
   *  expects a version no newer than x. */
  ghost predicate CountedOn(s: RState, x: Version, p: PageNo)
    requires x in s.owner && s.owner[x] in s.cur && p in s.batches
  {
    var b, v := s.batches[p], s.owner[x];
    || x in b.retired
    || (v in b.todo && v in b.expected && b.expected[v] <= x)
  }

  /** A version is the current one of its vertex, or retired into a batch; the batch of its
   *  page, which may be another one, counts it or its vertex. */
  ghost predicate VersionOk(s: RState, x: Version)
    requires x in s.page
  {
    && x < s.next && x in s.owner && s.owner[x] in s.cur && x <= s.cur[s.owner[x]]
    && (x != s.cur[s.owner[x]] ==>
          && s.page[x] in s.batches
          && x in s.into && s.into[x] in s.batches && x in s.batches[s.into[x]].retired)
    && (s.page[x] in s.batches ==> CountedOn(s, x, s.page[x]))
  }

  ghost predicate VersionsOk(s: RState) {
    s.owner.Keys == s.page.Keys && forall x :: x in s.page ==> VersionOk(s, x)
  }

  /** A switch that can still happen leads to a page in use that stores the vertex, and
   *  which waits for it if it is under consolidation itself. */
  ghost predicate MoveOk(s: RState, p: PageNo, v: Vid) {
    && CanSwitchTo(s, p, v) && s.batches[p].expected[v] <= s.cur[v]
    && (Stands(s, p, v) ==>
          var q := s.batches[p].dest[v];
          && q != p && q in s.live && q in s.lists && v in s.lists[q] && (q in s.batches ==> v in s.batches[q].todo)
          && s.cur[v] in s.page && s.page[s.cur[v]] in s.batches)
  }

  /** The counter is the number of vertices to switch and versions to reclaim. */
  ghost predicate BatchOk(s: RState, p: PageNo)
    requires p in s.batches
  {
    var b := s.batches[p];
    && p in s.live && p in s.lists
    && b.remaining == |b.todo| + |b.retired|
    && (forall v :: v in b.todo ==> MoveOk(s, p, v))
    && (forall x :: x in b.retired ==> RetiredOk(s, p, x))
  }

  ghost predicate RetiredOk(s: RState, p: PageNo, x: Version) {
    && x in s.page && x in s.owner && x in s.into && s.into[x] == p
    && s.owner[x] in s.cur && s.cur[s.owner[x]] != x
  }

  ghost predicate BatchesOk(s: RState) {
    forall p :: p in s.batches ==> BatchOk(s, p)
  }

  ghost predicate ReaderOk(s: RState, r: nat) {
    match ReaderOf(s, r)
    case Idle => true
    case Protects(x) => x in s.page
    case Reads(x, p) => x in s.page && s.page[x] == p
    case Uses(p) => p in s.live
  }

  ghost predicate ReadersOk(s: RState) {
    (forall r :: ReaderOk(s, r)) && (forall p :: p in s.pins ==> p in s.live)
  }

  /** Every slot ever handed out is in use or free, not both, and free only once. */
  ghost predicate Slots(live: set<PageNo>, free: seq<PageNo>, count: nat) {
    && (forall q :: 0 <= q < count <==> q in live || q in free)
    && (forall q :: q in live ==> q !in free)
    && (forall i, j :: 0 <= i < j < |free| ==> free[i] != free[j])
  }

  lemma PopSlot(live: set<PageNo>, free: seq<PageNo>, count: nat)
    requires Slots(live, free, count) && free != []
    ensures free[|free| - 1] !in live && Slots(live + {free[|free| - 1]}, free[..|free| - 1], count)
  {
    var last, rest := free[|free| - 1], free[..|free| - 1];
    assert free == rest + [last];
    forall q ensures 0 <= q < count <==> q in live + {last} || q in rest {
      assert q in free <==> q in rest || q == last;
    }
  }

  ghost predicate SlotsOk(s: RState) {
    Slots(s.live, s.free, s.count)
  }

  ghost predicate RInv(s: RState) {
    CurOk(s) && ListsOk(s) && VersionsOk(s) && BatchesOk(s) && ReadersOk(s) && SlotsOk(s)
  }

  /** A version that exists names a page that is in use. */
  lemma VersionLive(s: RState, x: Version)
    requires CurOk(s) && ListsOk(s) && VersionsOk(s) && BatchesOk(s) && x in s.page
    ensures s.page[x] in s.live
  {
    assert VersionOk(s, x);
    if s.page[x] in s.batches {
      assert BatchOk(s, s.page[x]);
    } else {
      assert ListedOk(s, s.page[x], s.owner[x]);
    }
  }

  /** The part of the invariant that does not speak of readers, pins and free slots. */
  ghost predicate Core(s: RState) {
    CurOk(s) && ListsOk(s) && VersionsOk(s) && BatchesOk(s)
  }

  lemma SameCore(s: RState, s': RState)
    requires Core(s)
    requires s'.cur == s.cur && s'.page == s.page && s'.owner == s.owner && s'.into == s.into && s'.next == s.next
    requires s'.lists == s.lists && s'.batches == s.batches && s.live <= s'.live
    ensures Core(s')
  {
    forall x | x in s'.page ensures VersionOk(s', x) {
      assert VersionOk(s, x);
    }
    forall p | p in s'.batches ensures BatchOk(s', p) {
      assert BatchOk(s, p);
      forall v | v in s'.batches[p].todo ensures MoveOk(s', p, v) {
        assert MoveOk(s, p, v);
      }
      forall x | x in s'.batches[p].retired ensures RetiredOk(s', p, x) {
        assert RetiredOk(s, p, x);
      }
    }
    forall p, v | p in s'.lists && v in s'.lists[p] ensures ListedOk(s', p, v) {
      assert ListedOk(s, p, v);
    }
  }

  // ---------------------------------------------------------------------------
  // Steps of readers and of the disk manager

  lemma ReaderKeeps(s: RState, r: nat, now: Reader)
    requires RInv(s) && ReaderOk(s.(readers := s.readers[r := now]), r)
    ensures RInv(s.(readers := s.readers[r := now]))
  {
    hide CurOk, ListsOk, VersionsOk, BatchesOk;
    var s' := s.(readers := s.readers[r := now]);
    SameCore(s, s');
    forall u ensures ReaderOk(s', u) {
      assert ReaderOk(s, u);
    }
  }

  lemma ReadStepKeeps(s: RState, t: RStep)
    requires RInv(s) && REnabled(s, t) && (t.Protect? || t.ReadPage? || t.Release? || t.Unlatch?)
    ensures RInv(RNext(s, t))
  {
    match t
    case Protect(r, v) => ReaderKeeps(s, r, Protects(s.cur[v]));
    case ReadPage(r) => ReaderKeeps(s, r, Reads(ReaderOf(s, r).x, s.page[ReaderOf(s, r).x]));
    case Release(r) =>
      assert ReaderOk(s, r);
      VersionLive(s, ReaderOf(s, r).x);
      ReaderKeeps(s, r, Uses(ReaderOf(s, r).p));
    case Unlatch(r) => ReaderKeeps(s, r, Idle);
    case _ =>
  }

  lemma PinKeeps(s: RState, t: RStep)
    requires RInv(s) && REnabled(s, t) && (t.Pin? || t.Unpin?)
    ensures RInv(RNext(s, t))
  {
    hide CurOk, ListsOk, VersionsOk, BatchesOk;
    var s' := RNext(s, t);
    SameCore(s, s');
    forall u ensures ReaderOk(s', u) {
      assert ReaderOk(s, u);
    }
    if t.Pin? {
      assert ReaderOk(s, t.r);
      VersionLive(s, ReaderOf(s, t.r).x);
    }
  }

  lemma AllocateSlots(s: RState)
    requires SlotsOk(s)
    ensures SlotsOk(DoAllocate(s)) && Slot(s) !in s.live && Slot(s) in DoAllocate(s).live
  {
    if s.free != [] {
      PopSlot(s.live, s.free, s.count);
    }
  }

  lemma AllocateReaders(s: RState)
    requires ReadersOk(s)
    ensures ReadersOk(DoAllocate(s))
  {
    forall u ensures ReaderOk(DoAllocate(s), u) {
      assert ReaderOk(s, u);
    }
  }

  lemma AllocateKeeps(s: RState)
    requires RInv(s)
    ensures RInv(DoAllocate(s))
  {
    hide SlotsOk, VersionsOk, CurOk, ListsOk, BatchesOk, ReadersOk;
    AllocateSlots(s);
    AllocateReaders(s);
    SameCore(s, DoAllocate(s));
  }

  /** Readers are not disturbed while what they hold stays. */
  lemma ReadersStay(s: RState, s': RState)
    requires ReadersOk(s) && s'.readers == s.readers && s'.pins == s.pins && s'.live == s.live
    requires forall x :: x in s.page && (x in s'.page || Protected(s, x)) ==> x in s'.page && s'.page[x] == s.page[x]
    ensures ReadersOk(s')
  {
    forall u ensures ReaderOk(s', u) {
      assert ReaderOk(s, u);
      match ReaderOf(s, u)
      case Idle =>
      case Protects(x) => assert Protected(s, x);
      case Reads(x, _) => assert Protected(s, x);
      case Uses(_) =>
    }
  }

  // ---------------------------------------------------------------------------
  // Preparing a switch

  lemma OpenFrame(s: RState, p: PageNo, dest: map<Vid, PageNo>, q: PageNo)
    requires CanOpen(s, p, dest)
    ensures var s' := DoOpen(s, p, dest);
      && s' == s.(lists := s'.lists, batches := s'.batches)
      && (q in s'.batches <==> q in s.batches || q == p) && (q in s.batches ==> s'.batches[q] == s.batches[q])
      && s'.batches[p].todo == dest.Keys == s'.batches[p].expected.Keys && s'.batches[p].dest == dest
      && s'.batches[p].retired == {} && s'.batches[p].remaining == |dest.Keys|
      && (forall v :: v in dest ==> s'.batches[p].expected[v] == s.cur[v])
      && (q in s'.lists <==> q in s.lists || q in dest.Values)
      && (q in s.lists ==> s'.lists[q] == s.lists[q])
      && (forall v :: q !in s.lists && q in s'.lists ==> (v in s'.lists[q] <==> v in dest && dest[v] == q))
  {
  }

  lemma OpenVersions(s: RState, p: PageNo, dest: map<Vid, PageNo>)
    requires Core(s) && CanOpen(s, p, dest)
    ensures CurOk(DoOpen(s, p, dest)) && VersionsOk(DoOpen(s, p, dest))
  {
    hide DoOpen, ListsOk, BatchesOk;
    var s' := DoOpen(s, p, dest);
    OpenFrame(s, p, dest, p);
    forall v | v in s'.cur
      ensures s'.page[s'.cur[v]] in s'.lists && v in s'.lists[s'.page[s'.cur[v]]]
    {
      OpenFrame(s, p, dest, s.page[s.cur[v]]);
    }
    forall x | x in s'.page ensures VersionOk(s', x) {
      assert VersionOk(s, x);
      OpenFrame(s, p, dest, s.page[x]);
      if x in s.into {
        OpenFrame(s, p, dest, s.into[x]);
      }
    }
  }

  lemma OpenListed(s: RState, p: PageNo, dest: map<Vid, PageNo>, q: PageNo, v: Vid)
    requires CurOk(s) && ListsOk(s) && CanOpen(s, p, dest) && q in DoOpen(s, p, dest).lists && v in DoOpen(s, p, dest).lists[q]
    ensures ListedOk(DoOpen(s, p, dest), q, v)
  {
    hide DoOpen;
    var s' := DoOpen(s, p, dest);
    OpenFrame(s, p, dest, q);
    if q in s.lists {
      assert ListedOk(s, q, v);
    } else {
      assert ListedOk(s, p, v);
    }
    OpenFrame(s, p, dest, s.page[s.cur[v]]);
    forall r | q !in s'.batches && r in s'.lists && v in s'.lists[r] && r !in s'.batches
      ensures r == q
    {
      OpenFrame(s, p, dest, r);
      if r in s.lists {
        assert ListedOk(s, r, v);
      }
    }
  }

  lemma BatchesListed(s: RState)
    requires BatchesOk(s)
    ensures s.batches.Keys <= s.lists.Keys
  {
    forall q | q in s.batches ensures q in s.lists {
      assert BatchOk(s, q);
    }
  }

  lemma OpenMove(s: RState, p: PageNo, dest: map<Vid, PageNo>, v: Vid)
    requires CurOk(s) && ListsOk(s) && BatchesOk(s) && CanOpen(s, p, dest) && v in dest
    ensures MoveOk(DoOpen(s, p, dest), p, v)
  {
    hide DoOpen;
    assert ListedOk(s, p, v);
    assert dest[v] in dest.Values;
    OpenFrame(s, p, dest, p);
    OpenFrame(s, p, dest, dest[v]);
    OpenFrame(s, p, dest, s.page[s.cur[v]]);
    BatchesListed(s);
  }

  lemma OpenOtherMove(s: RState, p: PageNo, dest: map<Vid, PageNo>, r: PageNo, v: Vid)
    requires ListsOk(s) && CanOpen(s, p, dest) && MoveOk(s, r, v)
    ensures MoveOk(DoOpen(s, p, dest), r, v)
  {
    hide DoOpen;
    OpenFrame(s, p, dest, r);
    OpenFrame(s, p, dest, s.batches[r].dest[v]);
    if Stands(s, r, v) {
      OpenFrame(s, p, dest, s.page[s.cur[v]]);
    }
  }

  lemma OpenBatch(s: RState, p: PageNo, dest: map<Vid, PageNo>)
    requires CurOk(s) && ListsOk(s) && BatchesOk(s) && CanOpen(s, p, dest)
    ensures p in DoOpen(s, p, dest).batches && BatchOk(DoOpen(s, p, dest), p)
  {
    hide DoOpen, MoveOk, CurOk, ListsOk, BatchesOk;
    OpenFrame(s, p, dest, p);
    forall v | v in dest ensures MoveOk(DoOpen(s, p, dest), p, v) {
      OpenMove(s, p, dest, v);
    }
  }

  lemma OpenOtherBatch(s: RState, p: PageNo, dest: map<Vid, PageNo>, r: PageNo)
    requires ListsOk(s) && CanOpen(s, p, dest) && r in s.batches && BatchOk(s, r)
    ensures r in DoOpen(s, p, dest).batches && BatchOk(DoOpen(s, p, dest), r)
  {
    hide DoOpen, MoveOk, ListsOk;
    var s' := DoOpen(s, p, dest);
    OpenFrame(s, p, dest, r);
    forall v | v in s.batches[r].todo ensures MoveOk(s', r, v) {
      OpenOtherMove(s, p, dest, r, v);
    }
    forall x | x in s.batches[r].retired ensures RetiredOk(s', r, x) {
      assert RetiredOk(s, r, x);
    }
  }

  lemma OpenBatches(s: RState, p: PageNo, dest: map<Vid, PageNo>)
    requires Core(s) && CanOpen(s, p, dest)
    ensures BatchesOk(DoOpen(s, p, dest))
  {
    hide DoOpen, VersionsOk, BatchOk, CurOk, ListsOk;
    forall r | r in DoOpen(s, p, dest).batches ensures BatchOk(DoOpen(s, p, dest), r) {
      OpenFrame(s, p, dest, r);
      if r == p {
        OpenBatch(s, p, dest);
      } else {
        OpenOtherBatch(s, p, dest, r);
      }
    }
  }

  lemma OpenKeeps(s: RState, p: PageNo, dest: map<Vid, PageNo>)
    requires RInv(s) && CanOpen(s, p, dest)
    ensures RInv(DoOpen(s, p, dest))
  {
    hide DoOpen, CurOk, ListsOk, VersionsOk, BatchesOk, ReadersOk, CanOpen;
    OpenFrame(s, p, dest, p);
    OpenVersions(s, p, dest);
    forall q, v | q in DoOpen(s, p, dest).lists && v in DoOpen(s, p, dest).lists[q]
      ensures ListedOk(DoOpen(s, p, dest), q, v)
    {
      OpenListed(s, p, dest, q, v);
    }
    ListsFrom(DoOpen(s, p, dest));
    OpenBatches(s, p, dest);
    ReadersStay(s, DoOpen(s, p, dest));
  }

  lemma ListsFrom(s: RState)
    requires forall p, v :: p in s.lists && v in s.lists[p] ==> ListedOk(s, p, v)
    ensures ListsOk(s)
  {
  }

  // ---------------------------------------------------------------------------
  // Switching one vertex

  /** `v` can be switched by the worker of p. */
  ghost predicate Ready(s: RState, p: PageNo, v: Vid) {
    CanSwitchTo(s, p, v) && MoveOk(s, p, v) && Stands(s, p, v)
  }

  lemma SwitchFrame(s: RState, p: PageNo, v: Vid, r: PageNo)
    requires Ready(s, p, v)
    ensures var s', x, q := DoSwitchTo(s, p, v), s.cur[v], s.batches[p].dest[v];
      && s'.cur == s.cur[v := s.next] && s'.page == s.page[s.next := q] && s'.owner == s.owner[s.next := v]
      && s'.into == s.into[x := p] && s'.next == s.next + 1 && s'.lists == s.lists && s'.live == s.live
      && (r in s'.batches <==> r in s.batches) && (r in s.batches && r != p ==> s'.batches[r] == s.batches[r])
      && s'.batches[p] == s.batches[p].(todo := s.batches[p].todo - {v}, retired := s.batches[p].retired + {x})
      && s'.readers == s.readers && s'.pins == s.pins && s'.free == s.free && s'.count == s.count
  {
  }

  lemma NextIsNew(s: RState)
    requires VersionsOk(s)
    ensures s.next !in s.page && forall v :: v in s.cur && s.cur[v] in s.page ==> s.cur[v] < s.next
  {
    forall x | x in s.page ensures x < s.next {
      assert VersionOk(s, x);
    }
  }

  lemma SwitchNewVersion(s: RState, p: PageNo, v: Vid)
    requires CurOk(s) && VersionsOk(s) && BatchesOk(s) && Ready(s, p, v)
    ensures s.next in DoSwitchTo(s, p, v).page && VersionOk(DoSwitchTo(s, p, v), s.next)
  {
    hide DoSwitchTo;
    NextIsNew(s);
    var q := s.batches[p].dest[v];
    SwitchFrame(s, p, v, q);
    if q in s.batches {
      assert BatchOk(s, q);
      assert MoveOk(s, q, v);
    }
  }

  lemma SwitchOldVersion(s: RState, p: PageNo, v: Vid, x: Version)
    requires CurOk(s) && VersionsOk(s) && Ready(s, p, v) && x in s.page
    ensures x in DoSwitchTo(s, p, v).page && VersionOk(DoSwitchTo(s, p, v), x)
  {
    hide DoSwitchTo;
    NextIsNew(s);
    assert VersionOk(s, x);
    SwitchFrame(s, p, v, s.page[x]);
    if x == s.cur[v] {
      SwitchFrame(s, p, v, p);
    } else if x in s.into {
      SwitchFrame(s, p, v, s.into[x]);
    }
  }

  lemma SwitchListed(s: RState, p: PageNo, v: Vid, q: PageNo, u: Vid)
    requires CurOk(s) && ListsOk(s) && VersionsOk(s) && Ready(s, p, v) && q in s.lists && u in s.lists[q]
    ensures q in DoSwitchTo(s, p, v).lists && u in DoSwitchTo(s, p, v).lists[q] && ListedOk(DoSwitchTo(s, p, v), q, u)
  {
    hide DoSwitchTo;
    var s', to := DoSwitchTo(s, p, v), s.batches[p].dest[v];
    NextIsNew(s);
    SwitchFrame(s, p, v, q);
    SwitchFrame(s, p, v, to);
    assert ListedOk(s, q, u);
    SwitchFrame(s, p, v, s.page[s.cur[u]]);
    forall r | q !in s'.batches && r in s'.lists && u in s'.lists[r] && r !in s'.batches
      ensures r == q
    {
      SwitchFrame(s, p, v, r);
    }
  }

  lemma SwitchMove(s: RState, p: PageNo, v: Vid, r: PageNo, u: Vid)
    requires CurOk(s) && VersionsOk(s) && Ready(s, p, v) && MoveOk(s, r, u) && (r == p ==> u != v)
    ensures MoveOk(DoSwitchTo(s, p, v), r, u)
  {
    hide DoSwitchTo;
    NextIsNew(s);
    SwitchFrame(s, p, v, r);
    if u != v {
      SwitchFrame(s, p, v, s.batches[r].dest[u]);
      if Stands(s, r, u) {
        SwitchFrame(s, p, v, s.page[s.cur[u]]);
      }
    }
  }

  lemma SwitchRetired(s: RState, p: PageNo, v: Vid, r: PageNo, x: Version)
    requires CurOk(s) && VersionsOk(s) && Ready(s, p, v) && (RetiredOk(s, r, x) || (r == p && x == s.cur[v]))
    ensures RetiredOk(DoSwitchTo(s, p, v), r, x)
  {
    hide DoSwitchTo;
    NextIsNew(s);
    SwitchFrame(s, p, v, p);
  }

  lemma SwitchBatch(s: RState, p: PageNo, v: Vid, r: PageNo)
    requires CurOk(s) && VersionsOk(s) && Ready(s, p, v) && r in s.batches && BatchOk(s, r)
    ensures r in DoSwitchTo(s, p, v).batches && BatchOk(DoSwitchTo(s, p, v), r)
  {
    hide DoSwitchTo, MoveOk, RetiredOk, CurOk, VersionsOk;
    var s', b := DoSwitchTo(s, p, v), s.batches[r];
    SwitchFrame(s, p, v, r);
    if r == p {
      CurrentNotRetired(s, p, v);
    }
    forall u | u in s'.batches[r].todo ensures MoveOk(s', r, u) {
      SwitchMove(s, p, v, r, u);
    }
    forall x | x in s'.batches[r].retired ensures RetiredOk(s', r, x) {
      SwitchRetired(s, p, v, r, x);
    }
  }

  lemma CurrentNotRetired(s: RState, p: PageNo, v: Vid)
    requires CurOk(s) && p in s.batches && BatchOk(s, p) && v in s.cur
    ensures s.cur[v] !in s.batches[p].retired
  {
    forall x | x in s.batches[p].retired ensures x != s.cur[v] {
      assert RetiredOk(s, p, x);
    }
  }

  lemma SwitchCore(s: RState, p: PageNo, v: Vid)
    requires Core(s) && Ready(s, p, v)
    ensures Core(DoSwitchTo(s, p, v))
  {
    hide DoSwitchTo, BatchOk, MoveOk, ListedOk, VersionOk;
    var s' := DoSwitchTo(s, p, v);
    SwitchCur(s, p, v);
    forall x | x in s'.page ensures VersionOk(s', x) {
      if x == s.next {
        SwitchNewVersion(s, p, v);
      } else {
        SwitchOldVersion(s, p, v, x);
      }
    }
    forall q, u | q in s'.lists && u in s'.lists[q] ensures ListedOk(s', q, u) {
      SwitchListed(s, p, v, q, u);
    }
    forall r | r in s'.batches ensures BatchOk(s', r) {
      SwitchBatch(s, p, v, r);
    }
  }

  lemma SwitchCur(s: RState, p: PageNo, v: Vid)
    requires CurOk(s) && VersionsOk(s) && Ready(s, p, v)
    ensures CurOk(DoSwitchTo(s, p, v)) && DoSwitchTo(s, p, v).owner.Keys == DoSwitchTo(s, p, v).page.Keys
    ensures DoSwitchTo(s, p, v).page.Keys == s.page.Keys + {s.next}
    ensures DoSwitchTo(s, p, v).lists == s.lists && DoSwitchTo(s, p, v).batches.Keys == s.batches.Keys
  {
    NextIsNew(s);
  }

  lemma SwitchToKeeps(s: RState, p: PageNo, v: Vid)
    requires RInv(s) && REnabled(s, SwitchTo(p, v))
    ensures RInv(DoSwitchTo(s, p, v))
  {
    hide VersionsOk, CurOk, ListsOk, ReadersOk, Protected, DoSwitchTo;
    assert BatchOk(s, p);
    assert MoveOk(s, p, v);
    if Stands(s, p, v) {
      SwitchFrame(s, p, v, p);
      SwitchCore(s, p, v);
      NextIsNew(s);
      ReadersStay(s, DoSwitchTo(s, p, v));
    } else {
      FailedSwitch(s, p, v);
    }
  }

  lemma FailedSwitch(s: RState, p: PageNo, v: Vid)
    requires REnabled(s, SwitchTo(p, v)) && !Stands(s, p, v)
    ensures DoSwitchTo(s, p, v) == s
  {
  }

  // ---------------------------------------------------------------------------
  // Reclaiming

  lemma ReclaimedFrame(s: RState, p: PageNo, x: Version, r: PageNo)
    requires p in s.batches
    ensures var s' := DoReclaimed(s, p, x);
      && s'.cur == s.cur && s'.page == s.page - {x} && s'.owner == s.owner - {x} && s'.into == s.into - {x}
      && s'.next == s.next && s'.lists == s.lists && s'.live == s.live
      && (r in s'.batches <==> r in s.batches) && (r in s.batches && r != p ==> s'.batches[r] == s.batches[r])
      && s'.batches[p].todo == s.batches[p].todo && s'.batches[p].retired == s.batches[p].retired - {x}
      && s'.batches[p].expected == s.batches[p].expected && s'.batches[p].dest == s.batches[p].dest
      && (s.batches[p].remaining > 0 ==> s'.batches[p].remaining == s.batches[p].remaining - 1)
      && s'.readers == s.readers && s'.pins == s.pins && s'.free == s.free && s'.count == s.count
  {
  }

  lemma ReclaimedVersion(s: RState, p: PageNo, x: Version, y: Version)
    requires CurOk(s) && p in s.batches && RetiredOk(s, p, x) && y in s.page && y != x && VersionOk(s, y)
    ensures y in DoReclaimed(s, p, x).page && VersionOk(DoReclaimed(s, p, x), y)
  {
    hide DoReclaimed;
    ReclaimedFrame(s, p, x, s.page[y]);
    if y in s.into {
      ReclaimedFrame(s, p, x, s.into[y]);
    }
  }

  lemma ReclaimedBatch(s: RState, p: PageNo, x: Version, r: PageNo)
    requires CurOk(s) && p in s.batches && x in s.batches[p].retired && RetiredOk(s, p, x) && r in s.batches && BatchOk(s, r)
    ensures r in DoReclaimed(s, p, x).batches && BatchOk(DoReclaimed(s, p, x), r)
    ensures r == p ==> s.batches[p].remaining > 0
  {
    hide DoReclaimed;
    var s' := DoReclaimed(s, p, x);
    ReclaimedFrame(s, p, x, r);
    if r == p {
      assert |s.batches[p].retired - {x}| == |s.batches[p].retired| - 1;
    }
    forall u | u in s'.batches[r].todo ensures MoveOk(s', r, u) {
      assert MoveOk(s, r, u);
      ReclaimedFrame(s, p, x, s.batches[r].dest[u]);
      if Stands(s, r, u) {
        ReclaimedFrame(s, p, x, s.page[s.cur[u]]);
      }
    }
    forall y | y in s'.batches[r].retired ensures RetiredOk(s', r, y) {
      assert RetiredOk(s, r, y);
    }
  }

  lemma ReclaimedListed(s: RState, p: PageNo, x: Version, q: PageNo, u: Vid)
    requires CurOk(s) && p in s.batches && RetiredOk(s, p, x) && q in s.lists && u in s.lists[q] && ListedOk(s, q, u)
    ensures q in DoReclaimed(s, p, x).lists && u in DoReclaimed(s, p, x).lists[q] && ListedOk(DoReclaimed(s, p, x), q, u)
  {
    hide DoReclaimed;
    var s' := DoReclaimed(s, p, x);
    ReclaimedFrame(s, p, x, q);
    ReclaimedFrame(s, p, x, s.page[s.cur[u]]);
    forall r | q !in s'.batches && r in s'.lists && u in s'.lists[r] && r !in s'.batches
      ensures r == q
    {
      ReclaimedFrame(s, p, x, r);
    }
  }

  lemma ReclaimedCore(s: RState, p: PageNo, x: Version)
    requires Core(s) && p in s.batches && x in s.batches[p].retired
    ensures Core(DoReclaimed(s, p, x)) && s.batches[p].remaining > 0
  {
    hide DoReclaimed, BatchOk, VersionOk, ListedOk;
    var s' := DoReclaimed(s, p, x);
    RetiredThere(s, p, x);
    ReclaimedFrame(s, p, x, p);
    forall y | y in s'.page ensures VersionOk(s', y) {
      ReclaimedVersion(s, p, x, y);
    }
    forall r | r in s'.batches ensures BatchOk(s', r) {
      ReclaimedFrame(s, p, x, r);
      ReclaimedBatch(s, p, x, r);
    }
    ReclaimedBatch(s, p, x, p);
    forall q, u | q in s'.lists && u in s'.lists[q] ensures ListedOk(s', q, u) {
      ReclaimedListed(s, p, x, q, u);
    }
  }

  lemma RetiredThere(s: RState, p: PageNo, x: Version)
    requires BatchesOk(s) && p in s.batches && x in s.batches[p].retired
    ensures RetiredOk(s, p, x)
  {
    assert BatchOk(s, p);
  }

  lemma ReclaimedKeeps(s: RState, p: PageNo, x: Version)
    requires RInv(s) && REnabled(s, Reclaimed(p, x))
    ensures RInv(DoReclaimed(s, p, x)) && s.batches[p].remaining > 0
  {
    hide VersionsOk, CurOk, ListsOk, BatchesOk, ReadersOk, Protected, DoReclaimed;
    ReclaimedFrame(s, p, x, p);
    ReclaimedCore(s, p, x);
    ReadersStay(s, DoReclaimed(s, p, x));
  }

  /** When a batch is complete nothing that exists names its page. */
  lemma CompleteIsSafe(s: RState, p: PageNo)
    requires RInv(s) && REnabled(s, Complete(p))
    ensures forall x :: x in s.page ==> s.page[x] != p
    ensures forall r :: match ReaderOf(s, r)
                        case Idle => true
                        case Protects(x) => x in s.page && s.page[x] != p
                        case Reads(x, q) => x in s.page && s.page[x] != p && q != p
                        case Uses(q) => q != p
    ensures p in s.live && p !in s.free
  {
    hide ListsOk, CurOk;
    DrainedIsFree(s, p);
    forall r
      ensures match ReaderOf(s, r)
              case Idle => true
              case Protects(x) => x in s.page && s.page[x] != p
              case Reads(x, q) => x in s.page && s.page[x] != p && q != p
              case Uses(q) => q != p
    {
      assert ReaderOk(s, r);
    }
  }

  lemma DrainedIsFree(s: RState, p: PageNo)
    requires VersionsOk(s) && BatchesOk(s) && p in s.batches && s.batches[p].remaining == 0
    ensures s.batches[p].todo == {} && s.batches[p].retired == {} && p in s.live
    ensures forall x :: x in s.page ==> s.page[x] != p
  {
    assert BatchOk(s, p);
    forall x | x in s.page ensures s.page[x] != p {
      assert VersionOk(s, x);
    }
  }

  lemma CompleteFrame(s: RState, p: PageNo, q: PageNo)
    ensures var s' := DoComplete(s, p);
      && s' == s.(batches := s'.batches, lists := s'.lists, live := s'.live, free := s'.free)
      && (q in s'.batches <==> q in s.batches && q != p) && (q in s'.batches ==> s'.batches[q] == s.batches[q])
      && (q in s'.lists <==> q in s.lists && q != p) && (q in s'.lists ==> s'.lists[q] == s.lists[q])
      && (q in s'.live <==> q in s.live && q != p)
  {
  }

  lemma CompleteVersion(s: RState, p: PageNo, x: Version)
    requires VersionsOk(s) && p in s.batches && s.batches[p].retired == {} && x in s.page && s.page[x] != p
    ensures VersionOk(DoComplete(s, p), x)
  {
    hide DoComplete;
    assert VersionOk(s, x);
    CompleteFrame(s, p, s.page[x]);
    if x in s.into {
      CompleteFrame(s, p, s.into[x]);
    }
  }

  lemma CompleteListed(s: RState, p: PageNo, q: PageNo, u: Vid)
    requires ListsOk(s) && p in s.batches && q != p && q in s.lists && u in s.lists[q]
    requires forall x :: x in s.page ==> s.page[x] != p
    ensures q in DoComplete(s, p).lists && u in DoComplete(s, p).lists[q] && ListedOk(DoComplete(s, p), q, u)
  {
    hide DoComplete;
    var s' := DoComplete(s, p);
    assert ListedOk(s, q, u);
    CompleteFrame(s, p, q);
    CompleteFrame(s, p, s.page[s.cur[u]]);
    forall r | q !in s'.batches && r in s'.lists && u in s'.lists[r] && r !in s'.batches
      ensures r == q
    {
      CompleteFrame(s, p, r);
    }
  }

  lemma CompleteBatch(s: RState, p: PageNo, r: PageNo)
    requires p in s.batches && s.batches[p].todo == {} && r in s.batches && r != p && BatchOk(s, r)
    requires forall x :: x in s.page ==> s.page[x] != p
    ensures r in DoComplete(s, p).batches && BatchOk(DoComplete(s, p), r)
  {
    hide DoComplete;
    var s' := DoComplete(s, p);
    CompleteFrame(s, p, r);
    forall u | u in s'.batches[r].todo ensures MoveOk(s', r, u) {
      assert MoveOk(s, r, u);
      CompleteFrame(s, p, s.batches[r].dest[u]);
      if Stands(s, r, u) {
        CompleteFrame(s, p, s.page[s.cur[u]]);
      }
    }
    forall x | x in s'.batches[r].retired ensures RetiredOk(s', r, x) {
      assert RetiredOk(s, r, x);
    }
  }

  lemma CompleteCur(s: RState, p: PageNo)
    requires CurOk(s) && forall x :: x in s.page ==> s.page[x] != p
    ensures CurOk(DoComplete(s, p))
  {
  }

  lemma CompleteCore(s: RState, p: PageNo)
    requires Core(s) && p in s.batches && s.batches[p].remaining == 0
    ensures Core(DoComplete(s, p))
  {
    hide DoComplete, CurOk, VersionOk, BatchOk, ListedOk;
    var s' := DoComplete(s, p);
    DrainedIsFree(s, p);
    CompleteFrame(s, p, p);
    CompleteCur(s, p);
    forall x | x in s'.page ensures VersionOk(s', x) {
      CompleteVersion(s, p, x);
    }
    forall r | r in s'.batches ensures BatchOk(s', r) {
      CompleteFrame(s, p, r);
      CompleteBatch(s, p, r);
    }
    forall q, u | q in s'.lists && u in s'.lists[q] ensures ListedOk(s', q, u) {
      CompleteFrame(s, p, q);
      CompleteListed(s, p, q, u);
    }
  }

  lemma CompleteKeeps(s: RState, p: PageNo)
    requires RInv(s) && REnabled(s, Complete(p))
    ensures RInv(RNext(s, Complete(p)))
  {
    hide CurOk, ListsOk, VersionsOk, BatchesOk;
    var s' := RNext(s, Complete(p));
    CompleteIsSafe(s, p);
    CompleteCore(s, p);
    forall u ensures ReaderOk(s', u) {
      assert ReaderOk(s, u);
    }
  }

  // ---------------------------------------------------------------------------
  // Every run

  lemma RKeeps(s: RState, t: RStep)
    requires RInv(s) && REnabled(s, t)
    ensures RInv(RNext(s, t))
  {
    match t
    case Protect(_, _) => ReadStepKeeps(s, t);
    case ReadPage(_) => ReadStepKeeps(s, t);
    case Release(_) => ReadStepKeeps(s, t);
    case Unlatch(_) => ReadStepKeeps(s, t);
    case Pin(_) => PinKeeps(s, t);
    case Unpin(_) => PinKeeps(s, t);
    case Allocate => AllocateKeeps(s);
    case Open(p, dest) => OpenKeeps(s, p, dest);
    case SwitchTo(p, v) => SwitchToKeeps(s, p, v);
    case Reclaimed(p, x) => ReclaimedKeeps(s, p, x);
    case Complete(p) => CompleteKeeps(s, p);
  }

  /** A freshly started index: one version per vertex, no reader, no switch under way. */
  ghost predicate RInitial(s: RState) {
    && CurOk(s) && s.owner.Keys == s.page.Keys
    && (forall x :: x in s.page ==> x < s.next && s.owner[x] in s.cur && s.cur[s.owner[x]] == x)
    && (forall q, v :: q in s.lists && v in s.lists[q] ==> v in s.cur && q in s.live && s.page[s.cur[v]] == q)
    && s.batches == map[] && s.readers == map[] && s.pins == multiset{} && s.free == []
    && (forall q :: q in s.live <==> 0 <= q < s.count)
  }

  lemma InitialRInv(s: RState)
    requires RInitial(s)
    ensures RInv(s)
  {
    forall q, v | q in s.lists && v in s.lists[q] ensures ListedOk(s, q, v) {
      assert s.page[s.cur[v]] == q;
    }
  }

  ghost predicate RRuns(s: RState, steps: seq<RStep>)
    decreases |steps|
  {
    steps == [] || (REnabled(s, steps[0]) && RRuns(RNext(s, steps[0]), steps[1..]))
  }

  ghost function REnd(s: RState, steps: seq<RStep>): RState
    requires RRuns(s, steps)
    decreases |steps|
  {
    if steps == [] then s else REnd(RNext(s, steps[0]), steps[1..])
  }

  lemma {:induction false} RRunKeeps(s: RState, steps: seq<RStep>)
    requires RInv(s) && RRuns(s, steps)
    ensures RInv(REnd(s, steps))
    decreases |steps|
  {
    if steps != [] {
      RKeeps(s, steps[0]);
      RRunKeeps(RNext(s, steps[0]), steps[1..]);
    }
  }

  /** The main result, at any point of any run.  A slot is given back only when no
   *  version names its page and no reader or worker is on its frame; the slot handed
   *  out next is nobody's; the counter of a batch is the number of its versions that
   *  still exist, so it reaches 0 exactly when the last one goes. */
  lemma ReclaimIsSafe(s: RState, steps: seq<RStep>, p: PageNo)
    requires RInitial(s) && RRuns(s, steps)
    ensures var e := REnd(s, steps);
      && Slot(e) !in e.live && (forall x :: x in e.page ==> e.page[x] != Slot(e)) && !Latched(e, Slot(e))
      && (p in e.batches ==> e.batches[p].remaining == |e.batches[p].todo| + |e.batches[p].retired|)
      && (p in e.batches && e.batches[p].remaining == 0 ==> forall x :: x in e.page ==> e.page[x] != p)
  {
    var e := REnd(s, steps);
    InitialRInv(s);
    RRunKeeps(s, steps);
    AllocateSlots(e);
    forall x | x in e.page ensures e.page[x] != Slot(e) {
      VersionLive(e, x);
    }
    SlotUnlatched(e);
    if p in e.batches {
      assert BatchOk(e, p);
      forall x | x in e.page && e.batches[p].remaining == 0 ensures e.page[x] != p {
        assert VersionOk(e, x);
      }
    }
  }

  lemma SlotUnlatched(s: RState)
    requires RInv(s)
    ensures !Latched(s, Slot(s))
  {
    AllocateSlots(s);
    forall r | ReaderOf(s, r).Uses? || ReaderOf(s, r).Reads? ensures ReaderOf(s, r).p in s.live {
      assert ReaderOk(s, r);
      if ReaderOf(s, r).Reads? {
        VersionLive(s, ReaderOf(s, r).x);
      }
    }
  }

  function One(b: bool): nat {
    if b then 1 else 0
  }

  /** How often a run frees p, and how often it hands p out. */
  function Frees(steps: seq<RStep>, p: PageNo): nat {
    if steps == [] then 0 else One(steps[0] == Complete(p)) + Frees(steps[1..], p)
  }

  ghost function Allocations(s: RState, steps: seq<RStep>, p: PageNo): nat
    requires RRuns(s, steps)
    decreases |steps|
  {
    if steps == [] then 0
    else One(steps[0].Allocate? && Slot(s) == p) + Allocations(RNext(s, steps[0]), steps[1..], p)
  }

  lemma LiveStep(s: RState, t: RStep, p: PageNo)
    requires RInv(s) && REnabled(s, t)
    ensures One(p in s.live) + One(t.Allocate? && Slot(s) == p) == One(p in RNext(s, t).live) + One(t == Complete(p))
  {
    if t.Allocate? {
      AllocateSlots(s);
    } else if t.Complete? {
      assert BatchOk(s, t.p);
    }
  }

  /** Over any run a page is freed exactly as often as it was in use or handed out and is
   *  not in use any more: never twice without an allocation in between. */
  lemma {:induction false} FreedOncePerUse(s: RState, steps: seq<RStep>, p: PageNo)
    requires RInv(s) && RRuns(s, steps)
    ensures One(p in s.live) + Allocations(s, steps, p) == One(p in REnd(s, steps).live) + Frees(steps, p)
    decreases |steps|
  {
    if steps != [] {
      LiveStep(s, steps[0], p);
      RKeeps(s, steps[0]);
      FreedOncePerUse(RNext(s, steps[0]), steps[1..], p);
    }
  }

  function Reclamations(steps: seq<RStep>, x: Version): nat {
    if steps == [] then 0 else One(steps[0].Reclaimed? && steps[0].x == x) + Reclamations(steps[1..], x)
  }

  lemma RetiredExists(s: RState, p: PageNo, x: Version)
    requires BatchesOk(s) && VersionsOk(s) && p in s.batches && x in s.batches[p].retired
    ensures x in s.page && x < s.next
  {
    assert BatchOk(s, p);
    assert VersionOk(s, x);
  }

  lemma ExistsStep(s: RState, t: RStep, x: Version)
    requires RInv(s) && REnabled(s, t)
    ensures One(x in s.page || x >= s.next)
         == One(x in RNext(s, t).page || x >= RNext(s, t).next) + One(t.Reclaimed? && t.x == x)
  {
    hide CurOk, VersionsOk, BatchesOk, ReadersOk, SlotsOk;
    if t.Reclaimed? {
      RetiredExists(s, t.p, t.x);
    }
  }

  /** Every version is reclaimed at most once, and is gone exactly when it was. */
  lemma {:induction false} ReclaimedOnce(s: RState, steps: seq<RStep>, x: Version)
    requires RInv(s) && RRuns(s, steps) && (x in s.page || x >= s.next)
    ensures Reclamations(steps, x) <= 1
    ensures Reclamations(steps, x) == 0 <==> x in REnd(s, steps).page || x >= REnd(s, steps).next
    decreases |steps|
  {
    if steps != [] {
      ExistsStep(s, steps[0], x);
      RKeeps(s, steps[0]);
      var s' := RNext(s, steps[0]);
      if x in s'.page || x >= s'.next {
        ReclaimedOnce(s', steps[1..], x);
      } else {
        NeverAgain(s', steps[1..], x);
      }
    }
  }

  lemma {:induction false} NeverAgain(s: RState, steps: seq<RStep>, x: Version)
    requires RInv(s) && RRuns(s, steps) && x !in s.page && x < s.next
    ensures Reclamations(steps, x) == 0 && x !in REnd(s, steps).page && x < REnd(s, steps).next
    decreases |steps|
  {
    if steps != [] {
      ExistsStep(s, steps[0], x);
      RKeeps(s, steps[0]);
      NeverAgain(RNext(s, steps[0]), steps[1..], x);
    }
  }

  /** A version of `v` was expected that is not the published one any more. */
  ghost predicate Stale(s: RState, p: PageNo, v: Vid) {
    p in s.batches && v in s.batches[p].todo && v in s.batches[p].expected && v in s.cur && s.batches[p].expected[v] < s.cur[v]
  }

  lemma SwitchProgress(s: RState, p: PageNo, v: Vid)
    requires BatchesOk(s) && p in s.batches && v in s.batches[p].todo
    ensures CanSwitchTo(s, p, v)
    ensures !Stale(s, p, v) ==>
      p in DoSwitchTo(s, p, v).batches && DoSwitchTo(s, p, v).batches[p].todo == s.batches[p].todo - {v}
  {
    hide DoSwitchTo;
    assert BatchOk(s, p);
    assert MoveOk(s, p, v);
    if Stands(s, p, v) {
      SwitchFrame(s, p, v, p);
    }
  }

  /** A batch stalls only for a reader, a latch or a pin, and for a vertex that another
   *  worker has switched: those still to switch can be, but for the stale ones. */
  lemma BatchProgress(s: RState, p: PageNo)
    requires RInv(s) && p in s.batches
    ensures forall v :: v in s.batches[p].todo ==> CanSwitchTo(s, p, v)
    ensures forall v :: v in s.batches[p].todo && !Stale(s, p, v) ==>
      p in DoSwitchTo(s, p, v).batches && DoSwitchTo(s, p, v).batches[p].todo == s.batches[p].todo - {v}
    ensures s.batches[p].todo == {} && s.batches[p].remaining > 0 ==>
      exists x :: x in s.batches[p].retired && (Protected(s, x) || REnabled(s, Reclaimed(p, x)))
    ensures s.batches[p].remaining == 0 ==> Latched(s, p) || p in s.pins || REnabled(s, Complete(p))
  {
    hide CurOk, ListsOk, VersionsOk, BatchesOk, ReadersOk, SlotsOk, DoSwitchTo, CanSwitchTo, Stale;
    forall v | v in s.batches[p].todo
      ensures CanSwitchTo(s, p, v)
      ensures !Stale(s, p, v) ==>
        p in DoSwitchTo(s, p, v).batches && DoSwitchTo(s, p, v).batches[p].todo == s.batches[p].todo - {v}
    {
      SwitchProgress(s, p, v);
    }
    BatchCounts(s, p);
    if s.batches[p].todo == {} && s.batches[p].remaining > 0 {
      assert s.batches[p].retired != {};
      var x :| x in s.batches[p].retired;
      assert Protected(s, x) || REnabled(s, Reclaimed(p, x));
    }
  }

  lemma BatchCounts(s: RState, p: PageNo)
    requires BatchesOk(s) && p in s.batches
    ensures s.batches[p].remaining == |s.batches[p].todo| + |s.batches[p].retired|
  {
    assert BatchOk(s, p);
  }

  lemma StaleStep(s: RState, t: RStep, p: PageNo, v: Vid)
    requires RInv(s) && REnabled(s, t) && Stale(s, p, v)
    ensures Stale(RNext(s, t), p, v)
  {
    hide CurOk, ListsOk, ReadersOk, SlotsOk, DoOpen, DoSwitchTo, DoReclaimed, DoComplete, DoAllocate, CanOpen, VersionsOk;
    StaleWaits(s, p, v);
    match t
    case Open(q, dest) => OpenFrame(s, q, dest, p);
    case SwitchTo(q, u) =>
      assert BatchOk(s, q) && MoveOk(s, q, u);
      StaleSwitch(s, q, u, p, v);
    case Reclaimed(q, x) => ReclaimedFrame(s, q, x, p);
    case Complete(q) => CompleteFrame(s, q, p);
    case Allocate => StaleAllocate(s);
    case _ =>
  }

  lemma StaleAllocate(s: RState)
    ensures DoAllocate(s).batches == s.batches && DoAllocate(s).cur == s.cur
  {
    hide Slot;
  }

  lemma StaleSwitch(s: RState, q: PageNo, u: Vid, p: PageNo, v: Vid)
    requires CanSwitchTo(s, q, u) && MoveOk(s, q, u) && CurOk(s) && VersionsOk(s) && Stale(s, p, v)
    ensures Stale(DoSwitchTo(s, q, u), p, v)
  {
    hide DoSwitchTo;
    if Stands(s, q, u) {
      NextIsNew(s);
      SwitchFrame(s, q, u, p);
    } else {
      FailedSwitch(s, q, u);
    }
  }

  /** A batch with a stale vertex never completes: its page is kept for good. */
  lemma {:induction false} StaleNeverFrees(s: RState, steps: seq<RStep>, p: PageNo, v: Vid)
    requires RInv(s) && RRuns(s, steps) && Stale(s, p, v)
    ensures Stale(REnd(s, steps), p, v) && Frees(steps, p) == 0 && p in REnd(s, steps).live
    decreases |steps|
  {
    hide REnabled, RNext, CurOk, ListsOk, VersionsOk, ReadersOk, SlotsOk;
    if steps == [] {
      assert BatchOk(s, p);
    } else {
      StaleStep(s, steps[0], p, v);
      StaleWaits(s, p, v);
      RKeeps(s, steps[0]);
      StaleNeverFrees(RNext(s, steps[0]), steps[1..], p, v);
    }
  }

  lemma StaleWaits(s: RState, p: PageNo, v: Vid)
    requires RInv(s) && Stale(s, p, v)
    ensures !REnabled(s, Complete(p))
  {
    hide CurOk, ListsOk, VersionsOk, ReadersOk, SlotsOk;
    BatchCounts(s, p);
  }

  // Two vertices move from page 0 to page 1; before the second is switched, page 1 is
  // consolidated too, and its worker switches that vertex first.

  const PairAt0 := RState(map[0 := 0, 1 := 1], map[0 := 0, 1 := 0], map[0 := 0, 1 := 1], map[], 2, map[0 := {0, 1}],
                          map[], map[], multiset{}, {0, 1, 2}, [], 3)
  const MOVE_TO_1: map<Vid, PageNo> := map[0 := 1, 1 := 1]
  const MOVE_TO_2: map<Vid, PageNo> := map[0 := 2, 1 := 2]
  const Opened0 := PairAt0.(lists := map[0 := {0, 1}, 1 := {0, 1}],
                            batches := map[0 := Batch(map[0 := 0, 1 := 1], MOVE_TO_1, {0, 1}, {}, 2)])
  const First1 := Opened0.(cur := map[0 := 2, 1 := 1], page := map[0 := 0, 1 := 0, 2 := 1],
                           owner := map[0 := 0, 1 := 1, 2 := 0], into := map[0 := 0], next := 3,
                           batches := map[0 := Batch(map[0 := 0, 1 := 1], MOVE_TO_1, {1}, {0}, 2)])
  const Opened1 := First1.(lists := map[0 := {0, 1}, 1 := {0, 1}, 2 := {0, 1}],
                           batches := First1.batches[1 := Batch(map[0 := 2, 1 := 1], MOVE_TO_2, {0, 1}, {}, 2)])

  lemma TwoVertices()
    ensures |{0, 1}| == 2
  {
  }

  lemma OpenPair()
    ensures CanOpen(PairAt0, 0, MOVE_TO_1) && DoOpen(PairAt0, 0, MOVE_TO_1) == Opened0
  {
    var s', moved := DoOpen(PairAt0, 0, MOVE_TO_1), map v: Vid | v in MOVE_TO_1 :: PairAt0.cur[v];
    assert MOVE_TO_1.Keys == {0, 1};
    TwoVertices();
    assert MOVE_TO_1.Values == {1} by {
      assert MOVE_TO_1[0] == 1;
    }
    assert MovedTo(MOVE_TO_1, 1) == {0, 1};
    assert moved == map[0 := 0, 1 := 1];
    assert s'.lists == Opened0.lists && s'.batches == Opened0.batches;
  }

  lemma FirstSwitched()
    ensures CanSwitchTo(Opened0, 0, 0) && DoSwitchTo(Opened0, 0, 0) == First1
  {
    var s' := DoSwitchTo(Opened0, 0, 0);
    assert {0, 1} - {0} == {1} && {} + {0} == {0};
    assert s'.cur == First1.cur && s'.page == First1.page && s'.owner == First1.owner && s'.into == First1.into;
    assert s'.batches == First1.batches;
  }

  lemma OpenSecond()
    ensures CanOpen(First1, 1, MOVE_TO_2) && DoOpen(First1, 1, MOVE_TO_2) == Opened1
  {
    var s', moved := DoOpen(First1, 1, MOVE_TO_2), map v: Vid | v in MOVE_TO_2 :: First1.cur[v];
    assert MOVE_TO_2.Keys == {0, 1};
    TwoVertices();
    assert MOVE_TO_2.Values == {2} by {
      assert MOVE_TO_2[0] == 2;
    }
    assert MovedTo(MOVE_TO_2, 2) == {0, 1};
    assert moved == map[0 := 2, 1 := 1];
    assert s'.lists == Opened1.lists && s'.batches == Opened1.batches;
  }

  lemma SecondTaken()
    ensures CanSwitchTo(Opened1, 1, 1) && Stale(DoSwitchTo(Opened1, 1, 1), 0, 1)
  {
  }

  /** It happens: two workers prepare the same version of a vertex, and the page of the one
   *  that comes second is never freed. */
  lemma StaleIsReachable() returns (steps: seq<RStep>)
    ensures RInitial(PairAt0) && RRuns(PairAt0, steps) && Stale(REnd(PairAt0, steps), 0, 1)
    ensures steps == [Open(0, MOVE_TO_1), SwitchTo(0, 0), Open(1, MOVE_TO_2), SwitchTo(1, 1)]
  {
    hide Stale, DoOpen, DoSwitchTo, CanOpen, CanSwitchTo;
    OpenPair();
    FirstSwitched();
    OpenSecond();
    SecondTaken();
    steps := [Open(0, MOVE_TO_1)] + ([SwitchTo(0, 0)] + ([Open(1, MOVE_TO_2)] + ([SwitchTo(1, 1)] + [])));
    var end := DoSwitchTo(Opened1, 1, 1);
    RunCons(Opened1, SwitchTo(1, 1), end, []);
    RunCons(First1, Open(1, MOVE_TO_2), Opened1, [SwitchTo(1, 1)] + []);
    RunCons(Opened0, SwitchTo(0, 0), First1, [Open(1, MOVE_TO_2)] + ([SwitchTo(1, 1)] + []));
    RunCons(PairAt0, Open(0, MOVE_TO_1), Opened0, [SwitchTo(0, 0)] + ([Open(1, MOVE_TO_2)] + ([SwitchTo(1, 1)] + [])));
    PairIsInitial();
  }

  lemma PairIsInitial()
    ensures RInitial(PairAt0)
  {
  }

  lemma RunCons(s: RState, t: RStep, next: RState, rest: seq<RStep>)
    requires REnabled(s, t) && RNext(s, t) == next && RRuns(next, rest)
    ensures RRuns(s, [t] + rest) && REnd(s, [t] + rest) == REnd(next, rest)
  {
    assert ([t] + rest)[1..] == rest;
  }
}
