/** The free list, the LRU list and the clock hand of the buffer pool, threaded
 * through the frames (src/buf_pool.cc). */
module FrameLists {
  import opened Replay

  type Frame = nat
  type Link = Option<Frame>

  function First(order: seq<Frame>): Link {
    if order == [] then None else Some(order[0])
  }

  function Final(order: seq<Frame>): Link {
    if order == [] then None else Some(order[|order| - 1])
  }

  /** The neighbours of the i-th frame of a list. */
  ghost predicate LinkOk(prev: seq<Link>, next: seq<Link>, order: seq<Frame>, i: nat)
    requires i < |order|
  {
    && order[i] < |prev| && order[i] < |next|
    && prev[order[i]] == (if i == 0 then None else Some(order[i - 1]))
    && next[order[i]] == (if i == |order| - 1 then None else Some(order[i + 1]))
  }

  /** `order` is threaded through prev and next, from head to tail. */
  ghost predicate Listed(prev: seq<Link>, next: seq<Link>, head: Link, tail: Link, order: seq<Frame>) {
    && |prev| == |next| && head == First(order) && tail == Final(order)
    && (forall i :: 0 <= i < |order| ==> LinkOk(prev, next, order, i))
    && Distinct(order)
  }

  ghost predicate Distinct(order: seq<Frame>) {
    forall i, j :: 0 <= i < j < |order| ==> order[i] != order[j]
  }

  /** No frame is in both lists. */
  ghost predicate Apart(a: seq<Frame>, b: seq<Frame>) {
    forall f :: f in a ==> f !in b
  }

  /** The list with its i-th frame taken out. */
  function Unlinked(order: seq<Frame>, i: nat): (rest: seq<Frame>)
    requires i < |order|
    ensures |rest| == |order| - 1
    ensures forall k :: 0 <= k < |rest| ==> rest[k] == if k < i then order[k] else order[k + 1]
  {
    order[..i] + order[i + 1..]
  }

  // ---------------------------------------------------------------------------
  // Unlinking

  function UnlinkNext(prev: seq<Link>, next: seq<Link>, f: Frame): seq<Link>
    requires |prev| == |next| && f < |prev| && (prev[f].Some? ==> prev[f].value < |prev|)
  {
    (if prev[f].Some? then next[prev[f].value := next[f]] else next)[f := None]
  }

  function UnlinkPrev(prev: seq<Link>, next: seq<Link>, f: Frame): seq<Link>
    requires |prev| == |next| && f < |prev| && (next[f].Some? ==> next[f].value < |prev|)
  {
    (if next[f].Some? then prev[next[f].value := prev[f]] else prev)[f := None]
  }

  lemma LinksInside(prev: seq<Link>, next: seq<Link>, head: Link, tail: Link, order: seq<Frame>, i: nat)
    requires Listed(prev, next, head, tail, order) && i < |order|
    ensures var f := order[i];
      && f < |prev|
      && (prev[f].Some? <==> i > 0) && (i > 0 ==> prev[f].value == order[i - 1] < |prev|)
      && (next[f].Some? <==> i < |order| - 1) && (i < |order| - 1 ==> next[f].value == order[i + 1] < |prev|)
  {
    assert LinkOk(prev, next, order, i);
    if i > 0 {
      assert LinkOk(prev, next, order, i - 1);
    }
    if i < |order| - 1 {
      assert LinkOk(prev, next, order, i + 1);
    }
  }

  lemma UnlinkLink(prev: seq<Link>, next: seq<Link>, head: Link, tail: Link, order: seq<Frame>, i: nat, k: nat)
    requires Listed(prev, next, head, tail, order) && i < |order| && k < |order| - 1
    requires order[i] < |prev|
    requires (prev[order[i]].Some? ==> prev[order[i]].value < |prev|) && (next[order[i]].Some? ==> next[order[i]].value < |prev|)
    ensures LinkOk(UnlinkPrev(prev, next, order[i]), UnlinkNext(prev, next, order[i]), Unlinked(order, i), k)
  {
    LinksInside(prev, next, head, tail, order, i);
    var at := if k < i then k else k + 1;
    LinksInside(prev, next, head, tail, order, at);
  }

  /** Taking a frame out of its list. */
  lemma UnlinkOk(prev: seq<Link>, next: seq<Link>, head: Link, tail: Link, order: seq<Frame>, i: nat)
    requires Listed(prev, next, head, tail, order) && i < |order|
    ensures var f := order[i];
      && f < |prev|
      && (prev[f].Some? ==> prev[f].value < |prev|) && (next[f].Some? ==> next[f].value < |prev|)
      && Listed(UnlinkPrev(prev, next, f), UnlinkNext(prev, next, f),
                if prev[f].Some? then head else next[f], if next[f].Some? then tail else prev[f], Unlinked(order, i))
  {
    LinksInside(prev, next, head, tail, order, i);
    forall k | 0 <= k < |order| - 1
      ensures LinkOk(UnlinkPrev(prev, next, order[i]), UnlinkNext(prev, next, order[i]), Unlinked(order, i), k)
    {
      UnlinkLink(prev, next, head, tail, order, i, k);
    }
  }

  /** Changes of links at frames outside a list leave it as it is. */
  lemma ListFrame(prev: seq<Link>, next: seq<Link>, prev': seq<Link>, next': seq<Link>, head: Link, tail: Link,
                  order: seq<Frame>)
    requires Listed(prev, next, head, tail, order) && |prev'| == |next'| == |prev|
    requires forall f :: f in order && f < |prev| ==> prev'[f] == prev[f] && next'[f] == next[f]
    ensures Listed(prev', next', head, tail, order)
  {
    forall i | 0 <= i < |order| ensures LinkOk(prev', next', order, i) {
      assert LinkOk(prev, next, order, i);
      assert order[i] in order;
    }
  }

  // ---------------------------------------------------------------------------
  // Linking

  lemma AddFirst(prev: seq<Link>, next: seq<Link>, head: Link, tail: Link, order: seq<Frame>, f: Frame)
    requires Listed(prev, next, head, tail, order) && f < |prev| && f !in order
    requires order != [] ==> order[0] < |prev|
    ensures var prev1, next1 := prev[f := None], next[f := head];
      var prev2 := if order == [] then prev1 else prev1[order[0] := Some(f)];
      Listed(prev2, next1, Some(f), if order == [] then Some(f) else tail, [f] + order)
  {
    var prev1, next1 := prev[f := None], next[f := head];
    var prev2 := if order == [] then prev1 else prev1[order[0] := Some(f)];
    forall i | 0 <= i < |[f] + order| ensures LinkOk(prev2, next1, [f] + order, i) {
      if i > 0 {
        assert LinkOk(prev, next, order, i - 1);
      }
    }
  }

  lemma AddLast(prev: seq<Link>, next: seq<Link>, head: Link, tail: Link, order: seq<Frame>, f: Frame)
    requires Listed(prev, next, head, tail, order) && f < |prev| && f !in order
    requires order != [] ==> order[|order| - 1] < |prev|
    ensures var prev1, next1 := prev[f := tail], next[f := None];
      var next2 := if order == [] then next1 else next1[order[|order| - 1] := Some(f)];
      Listed(prev1, next2, if order == [] then Some(f) else head, Some(f), order + [f])
  {
    var prev1, next1 := prev[f := tail], next[f := None];
    var next2 := if order == [] then next1 else next1[order[|order| - 1] := Some(f)];
    forall i | 0 <= i < |order + [f]| ensures LinkOk(prev1, next2, order + [f], i) {
      if i < |order| {
        assert LinkOk(prev, next, order, i);
      }
    }
  }

  lemma HeadInside(prev: seq<Link>, next: seq<Link>, head: Link, tail: Link, order: seq<Frame>)
    requires Listed(prev, next, head, tail, order)
    ensures order != [] ==> order[0] < |prev| && order[|order| - 1] < |prev|
  {
    if order != [] {
      assert LinkOk(prev, next, order, 0) && LinkOk(prev, next, order, |order| - 1);
    }
  }

  // ---------------------------------------------------------------------------
  // The lists

  class Lists {
    const prev: array<Link>
    const next: array<Link>
    var freeHead: Link
    var freeTail: Link
    var lruHead: Link
    var lruTail: Link
    var clockHand: Link
    ghost var free: seq<Frame>
    ghost var lru: seq<Frame>

    /** Both lists are well formed and share no frame. */
    ghost predicate Valid()
      reads this, prev, next
    {
      && prev != next && prev.Length == next.Length
      && Listed(prev[..], next[..], freeHead, freeTail, free)
      && Listed(prev[..], next[..], lruHead, lruTail, lru)
      && Apart(free, lru)
    }

    /** The hand is somewhere in the LRU list, if there is one. */
    ghost predicate HandOk()
      reads this
    {
      lru != [] ==> clockHand.Some? && clockHand.value in lru
    }

    /** free_list_init: every frame is free. */
    constructor (frames: nat)
      ensures Valid() && HandOk() && prev.Length == frames && lru == []
      ensures |free| == frames && forall i :: 0 <= i < frames ==> free[i] == i
      ensures fresh(prev) && fresh(next) && clockHand == None
    {
      prev, next := new Link[frames](i => None), new Link[frames](i => None);
      freeHead, freeTail, lruHead, lruTail, clockHand := None, None, None, None, None;
      free, lru := [], [];
      new;
      for i := 0 to frames
        invariant Valid() && lru == [] && clockHand == None && prev.Length == frames && fresh(prev) && fresh(next)
        invariant |free| == i && forall k :: 0 <= k < i ==> free[k] == k
      {
        AddToFreeList(i);
      }
    }

    /** Append a frame that is in no list to the free list. */
    method AddToFreeList(f: Frame)
      requires Valid() && f < prev.Length && f !in free && f !in lru
      modifies `freeHead, `freeTail, `free, prev, next
      ensures Valid() && free == old(free) + [f]
    {
      ghost var was, wasNext := prev[..], next[..];
      HeadInside(was, wasNext, freeHead, freeTail, free);
      AddLast(was, wasNext, freeHead, freeTail, free, f);
      if freeHead == None {
        prev[f], next[f] := None, None;
        freeHead, freeTail := Some(f), Some(f);
      } else {
        prev[f], next[f] := None, None;
        next[freeTail.value] := Some(f);
        prev[f] := freeTail;
        freeTail := Some(f);
      }
      ListFrame(was, wasNext, prev[..], next[..], lruHead, lruTail, lru);
      assert prev[..] == was[f := old(freeTail)];
      free := free + [f];
    }

    /** Take a frame out of the free list. */
    method RemoveFromFreeList(f: Frame, ghost i: nat)
      requires Valid() && i < |free| && free[i] == f
      modifies `freeHead, `freeTail, `free, prev, next
      ensures Valid() && free == Unlinked(old(free), i)
    {
      ghost var was, wasNext := prev[..], next[..];
      UnlinkOk(was, wasNext, freeHead, freeTail, free, i);
      LinksInside(was, wasNext, freeHead, freeTail, free, i);
      var p, n := prev[f], next[f];
      if p.Some? {
        next[p.value] := n;
      } else {
        freeHead := n;
      }
      if n.Some? {
        prev[n.value] := p;
      } else {
        freeTail := p;
      }
      next[f], prev[f] := None, None;
      assert prev[..] == UnlinkPrev(was, wasNext, f) && next[..] == UnlinkNext(was, wasNext, f);
      ListFrame(was, wasNext, prev[..], next[..], lruHead, lruTail, lru);
      free := Unlinked(free, i);
    }

    /** Take a frame out of the LRU list; the hand moves on if it stood there. */
    method RemoveFromLruList(f: Frame, ghost i: nat)
      requires Valid() && HandOk() && i < |lru| && lru[i] == f
      modifies `lruHead, `lruTail, `clockHand, `lru, prev, next
      ensures Valid() && HandOk() && lru == Unlinked(old(lru), i)
      ensures old(clockHand) != Some(f) ==> clockHand == old(clockHand)
      ensures old(clockHand) == Some(f) && |old(lru)| > 1 ==> clockHand == Some(old(lru)[After(|old(lru)|, i)])
    {
      ghost var was, wasNext := prev[..], next[..];
      UnlinkOk(was, wasNext, lruHead, lruTail, lru, i);
      LinksInside(was, wasNext, lruHead, lruTail, lru, i);
      var p, n := prev[f], next[f];
      HandStays(lru, i, clockHand, n, lruHead);
      if clockHand == Some(f) {
        clockHand := n;
        if clockHand == None {
          clockHand := lruHead;
        }
      }
      if p.Some? {
        next[p.value] := n;
      } else {
        lruHead := n;
      }
      if n.Some? {
        prev[n.value] := p;
      } else {
        lruTail := p;
      }
      next[f], prev[f] := None, None;
      assert prev[..] == UnlinkPrev(was, wasNext, f) && next[..] == UnlinkNext(was, wasNext, f);
      ListFrame(was, wasNext, prev[..], next[..], freeHead, freeTail, free);
      lru := Unlinked(lru, i);
    }

    /** Put a frame at the head of the LRU list; the first one gets the hand. */
    method AddToLruHead(f: Frame)
      requires Valid() && HandOk() && f < prev.Length && f !in free && f !in lru
      modifies `lruHead, `lruTail, `clockHand, `lru, prev, next
      ensures Valid() && HandOk() && lru == [f] + old(lru)
      ensures clockHand == if old(lru) == [] then Some(f) else old(clockHand)
    {
      ghost var was, wasNext := prev[..], next[..];
      HeadInside(was, wasNext, lruHead, lruTail, lru);
      AddFirst(was, wasNext, lruHead, lruTail, lru, f);
      prev[f], next[f] := None, None;
      if lruHead == None {
        lruHead, lruTail, clockHand := Some(f), Some(f), Some(f);
      } else {
        next[f] := lruHead;
        prev[lruHead.value] := Some(f);
        lruHead := Some(f);
      }
      ListFrame(was, wasNext, prev[..], next[..], freeHead, freeTail, free);
      assert next[..] == wasNext[f := old(lruHead)];
      lru := [f] + lru;
    }

    /** A frame used again goes to the head. */
    method MoveToLruHead(f: Frame, ghost i: nat)
      requires Valid() && HandOk() && i < |lru| && lru[i] == f
      modifies `lruHead, `lruTail, `clockHand, `lru, prev, next
      ensures Valid() && HandOk()
      ensures lru == if i == 0 then old(lru) else [f] + Unlinked(old(lru), i)
    {
      if lruHead == Some(f) {
        return;
      }
      LinksInside(prev[..], next[..], lruHead, lruTail, lru, i);
      RemoveFromLruList(f, i);
      AddToLruHead(f);
    }

    /** The frame after the hand, or the first one. */
    method Advance(hand: Frame, ghost i: nat) returns (after: Frame)
      requires Valid() && i < |lru| && lru[i] == hand
      ensures after == lru[After(|lru|, i)]
    {
      LinksInside(prev[..], next[..], lruHead, lruTail, lru, i);
      var n := next[hand];
      after := if n == None then lruHead.value else n.value;
    }

    /** The fallback scan, from the head, whatever the reference bits say. */
    method ScanAll(pins: seq<nat>, held: seq<bool>) returns (victim: Link)
      requires Valid() && |pins| == |held| == prev.Length
      ensures victim == FirstIdle(lru, pins, held)
    {
      var p := lruHead;
      ghost var k := 0;
      assert lru[0..] == lru;
      while p.Some?
        invariant 0 <= k <= |lru| && p == (if k < |lru| then Some(lru[k]) else None)
        invariant FirstIdle(lru, pins, held) == FirstIdle(lru[k..], pins, held)
        decreases |lru| - k
      {
        LinksInside(prev[..], next[..], lruHead, lruTail, lru, k);
        if pins[p.value] == 0 && !held[p.value] {
          return p;
        }
        assert lru[k..][1..] == lru[k + 1..];
        p := next[p.value];
        k := k + 1;
      }
      victim := None;
    }

    /** find_victim_page.  From the hand, one turn: pinned and latched frames are passed
     *  over, a referenced frame loses its bit, the first other one is the victim.  After
     *  a turn without one, the first frame of the list that is neither pinned nor latched is. */
    method FindVictimPage(pins: seq<nat>, held: seq<bool>, referenced: seq<bool>, ghost h: nat)
      returns (victim: Link, bits: seq<bool>)
      requires Valid() && HandOk() && |pins| == |held| == |referenced| == prev.Length
      requires lru == [] ==> clockHand == None
      requires lru != [] ==> h < |lru| && clockHand == Some(lru[h])
      modifies `clockHand
      ensures Valid() && HandOk()
      ensures lru == [] ==> victim == None && bits == referenced && clockHand == None
      ensures lru != [] ==> VictimOk(lru, Turn(lru, h), pins, held, referenced, victim, bits)
      ensures lru != [] ==> HandLeft(Turn(lru, h), pins, held, referenced, clockHand)
      ensures victim == None <==> forall f :: f in lru ==> f < prev.Length && (pins[f] > 0 || held[f])
      ensures |bits| == |referenced|
      ensures victim.Some? ==> var f := victim.value; f in lru && f < prev.Length && pins[f] == 0 && !held[f]
    {
      hide Listed, LinkOk, Turn, FirstIdle, VictimOk, HandLeft, Passed, Distinct, Apart;
      bits := referenced;
      if clockHand == None {
        HeadIsFirst();
        clockHand := lruHead;
      }
      if clockHand == None {
        return None, bits;
      }
      AllInside();
      TurnHere(h);
      ghost var turn, k := Turn(lru, h), 0;
      var hand := clockHand.value;
      var start := hand;
      PassNone(turn, pins, referenced);
      while true
        invariant 0 <= k < |lru| && hand == turn[k] && start == turn[0]
        invariant NoneReady(turn, pins, held, referenced, k)
        invariant Passed(turn[..k], pins, referenced, bits) && |bits| == |referenced|
        invariant clockHand.Some? && clockHand.value in lru
        decreases |lru| - k
      {
        assert hand in lru;
        ghost var at := IndexOf(h, k);
        PassOne(turn, pins, held, referenced, bits, k);
        if pins[hand] == 0 && !bits[hand] && !held[hand] {
          FoundVictim(lru, turn, pins, held, referenced, bits, k);
          victim := Some(hand);
          hand := Advance(hand, at);
          clockHand := Some(hand);
          return;
        }
        if pins[hand] == 0 && bits[hand] {
          bits := bits[hand := false];
        }
        hand := Advance(hand, at);
        clockHand := Some(hand);
        k := k + 1;
        if hand == start {
          BackAtStart(turn, k);
          break;
        }
      }
      assert turn[..|lru|] == turn;
      NoVictim(lru, turn, pins, held, referenced, bits);
      victim := ScanAll(pins, held);
      FirstIdleFacts(lru, pins, held);
    }

    lemma HeadIsFirst()
      requires Valid()
      ensures lruHead == First(lru)
    {
    }

    lemma TurnHere(h: nat)
      requires Valid() && h < |lru|
      ensures Distinct(Turn(lru, h)) && Turn(lru, h)[0] == lru[h]
      ensures forall f :: f in Turn(lru, h) <==> f in lru
    {
      TurnFacts(lru, h);
    }

    lemma AllInside()
      requires Valid()
      ensures forall f :: f in lru ==> f < prev.Length
    {
      forall f | f in lru ensures f < prev.Length {
        var i :| 0 <= i < |lru| && lru[i] == f;
        LinksInside(prev[..], next[..], lruHead, lruTail, lru, i);
      }
    }

    /** Where the k-th frame of the turn stands in the list. */
    lemma IndexOf(h: nat, k: nat) returns (i: nat)
      requires h < |lru| && k < |lru|
      ensures i < |lru| && lru[i] == Turn(lru, h)[k]
      ensures lru[After(|lru|, i)] == Turn(lru, h)[After(|lru|, k)]
    {
      i := if h + k < |lru| then h + k else h + k - |lru|;
    }
  }

  // ---------------------------------------------------------------------------
  // The clock policy

  /** The list as the hand goes round it. */
  function Turn(lru: seq<Frame>, h: nat): (turn: seq<Frame>)
    requires h < |lru|
    ensures |turn| == |lru|
    ensures forall k: nat :: k < |lru| ==> turn[k] == lru[if h + k < |lru| then h + k else h + k - |lru|]
  {
    lru[h..] + lru[..h]
  }

  lemma TurnFacts(lru: seq<Frame>, h: nat)
    requires h < |lru| && Distinct(lru)
    ensures Distinct(Turn(lru, h))
    ensures forall f :: f in Turn(lru, h) <==> f in lru
    ensures Turn(lru, h)[0] == lru[h]
  {
    assert lru == lru[..h] + lru[h..];
  }

  /** A frame the hand takes at once. */
  predicate Ready(f: Frame, pins: seq<nat>, held: seq<bool>, referenced: seq<bool>)
    requires |pins| == |held| == |referenced|
  {
    f < |pins| && pins[f] == 0 && !held[f] && !referenced[f]
  }

  /** The first frame of a list that is neither pinned nor latched. */
  function FirstIdle(order: seq<Frame>, pins: seq<nat>, held: seq<bool>): Link
    requires |pins| == |held|
  {
    if order == [] then None
    else if order[0] < |pins| && pins[order[0]] == 0 && !held[order[0]] then Some(order[0])
    else FirstIdle(order[1..], pins, held)
  }

  lemma {:induction false} FirstIdleFacts(order: seq<Frame>, pins: seq<nat>, held: seq<bool>)
    requires |pins| == |held|
    ensures FirstIdle(order, pins, held) == None
        <==> forall f :: f in order ==> !(f < |pins| && pins[f] == 0 && !held[f])
    ensures FirstIdle(order, pins, held).Some? ==>
      var f := FirstIdle(order, pins, held).value;
      f in order && f < |pins| && pins[f] == 0 && !held[f]
  {
    if order != [] {
      FirstIdleFacts(order[1..], pins, held);
      assert order == [order[0]] + order[1..];
    }
  }

  /** The first frame of the turn that is neither pinned nor latched nor referenced is the
   *  victim, if there is one, and the frames before it lose their bits unless pinned.  Else it
   *  is the first frame of the list that is neither pinned nor latched, and all lose them. */
  ghost predicate VictimOk(lru: seq<Frame>, turn: seq<Frame>, pins: seq<nat>, held: seq<bool>, referenced: seq<bool>,
                           victim: Link, bits: seq<bool>)
    requires |pins| == |held| == |referenced|
  {
    && |bits| == |referenced|
    && (forall k: nat :: FirstAt(turn, pins, held, referenced, k) ==>
          && victim == Some(turn[k])
          && (forall f: nat :: f < |bits| ==> bits[f] == (referenced[f] && !(pins[f] == 0 && f in turn[..k]))))
    && (NoneFits(turn, pins, held, referenced) ==>
          && (forall k: nat :: FirstFree(lru, pins, held, k) ==> victim == Some(lru[k]))
          && (forall f: nat :: f < |bits| ==> bits[f] == (referenced[f] && !(pins[f] == 0 && f in turn))))
  }

  /** The hand stops behind the victim of the turn; after a whole turn it is where it was. */
  ghost predicate HandLeft(turn: seq<Frame>, pins: seq<nat>, held: seq<bool>, referenced: seq<bool>, hand: Link)
    requires |pins| == |held| == |referenced|
  {
    && (forall k: nat :: FirstAt(turn, pins, held, referenced, k) ==>
          hand == Some(if k + 1 < |turn| then turn[k + 1] else turn[0]))
    && (NoneFits(turn, pins, held, referenced) && turn != [] ==> hand == Some(turn[0]))
  }

  /** k is the first position of the turn whose frame is neither pinned nor latched nor referenced. */
  ghost predicate FirstAt(turn: seq<Frame>, pins: seq<nat>, held: seq<bool>, referenced: seq<bool>, k: nat)
    requires |pins| == |held| == |referenced|
  {
    && k < |turn| && turn[k] < |pins| && pins[turn[k]] == 0 && !held[turn[k]] && !referenced[turn[k]]
    && forall i: nat :: i < k ==> turn[i] >= |pins| || pins[turn[i]] > 0 || held[turn[i]] || referenced[turn[i]]
  }

  ghost predicate NoneFits(turn: seq<Frame>, pins: seq<nat>, held: seq<bool>, referenced: seq<bool>)
    requires |pins| == |held| == |referenced|
  {
    forall i: nat :: i < |turn| ==> turn[i] >= |pins| || pins[turn[i]] > 0 || held[turn[i]] || referenced[turn[i]]
  }

  /** k is the first position of the list whose frame is neither pinned nor latched. */
  ghost predicate FirstFree(order: seq<Frame>, pins: seq<nat>, held: seq<bool>, k: nat)
    requires |pins| == |held|
  {
    && k < |order| && order[k] < |pins| && pins[order[k]] == 0 && !held[order[k]]
    && forall i: nat :: i < k ==> order[i] >= |pins| || pins[order[i]] > 0 || held[order[i]]
  }

  lemma {:induction false} FirstIdleAt(order: seq<Frame>, pins: seq<nat>, held: seq<bool>, k: nat)
    requires |pins| == |held| && FirstFree(order, pins, held, k)
    ensures FirstIdle(order, pins, held) == Some(order[k])
  {
    if k > 0 {
      assert FirstFree(order[1..], pins, held, k - 1) by {
        assert forall i: nat :: i < k - 1 ==> order[1..][i] == order[i + 1];
      }
      FirstIdleAt(order[1..], pins, held, k - 1);
    }
  }

  /** The hand went over these frames. */
  ghost predicate Passed(frames: seq<Frame>, pins: seq<nat>, referenced: seq<bool>, bits: seq<bool>)
    requires |pins| == |referenced|
  {
    && |bits| == |referenced|
    && forall f :: 0 <= f < |bits| ==> bits[f] == (referenced[f] && !(pins[f] == 0 && f in frames))
  }

  /** No position below k is ready. */
  ghost predicate NoneReady(turn: seq<Frame>, pins: seq<nat>, held: seq<bool>, referenced: seq<bool>, k: nat)
    requires |pins| == |held| == |referenced| && k <= |turn|
  {
    forall i :: 0 <= i < k ==> !Ready(turn[i], pins, held, referenced)
  }

  lemma PassNone(turn: seq<Frame>, pins: seq<nat>, referenced: seq<bool>)
    requires |pins| == |referenced|
    ensures Passed(turn[..0], pins, referenced, referenced)
  {
  }

  /** Going over one more frame. */
  lemma PassOne(turn: seq<Frame>, pins: seq<nat>, held: seq<bool>, referenced: seq<bool>, bits: seq<bool>, k: nat)
    requires |pins| == |held| == |referenced| && k < |turn| && Distinct(turn) && turn[k] < |pins|
    requires Passed(turn[..k], pins, referenced, bits)
    ensures bits[turn[k]] == referenced[turn[k]]
    ensures Passed(turn[..k + 1], pins, referenced,
                   if pins[turn[k]] == 0 && bits[turn[k]] then bits[turn[k] := false] else bits)
  {
    assert turn[..k + 1] == turn[..k] + [turn[k]];
  }

  lemma FoundVictim(lru: seq<Frame>, turn: seq<Frame>, pins: seq<nat>, held: seq<bool>, referenced: seq<bool>,
                    bits: seq<bool>, k: nat)
    requires |pins| == |held| == |referenced| && k < |turn| && Ready(turn[k], pins, held, referenced)
    requires NoneReady(turn, pins, held, referenced, k) && Passed(turn[..k], pins, referenced, bits)
    ensures VictimOk(lru, turn, pins, held, referenced, Some(turn[k]), bits)
    ensures HandLeft(turn, pins, held, referenced, Some(turn[After(|turn|, k)]))
  {
    forall j: nat | FirstAt(turn, pins, held, referenced, j) ensures j == k {
      OnlyFirst(turn, pins, held, referenced, j, k);
    }
    assert turn[k] < |pins| && !NoneFits(turn, pins, held, referenced);
  }

  lemma OnlyFirst(turn: seq<Frame>, pins: seq<nat>, held: seq<bool>, referenced: seq<bool>, j: nat, k: nat)
    requires |pins| == |held| == |referenced| && k < |turn| && Ready(turn[k], pins, held, referenced)
    requires NoneReady(turn, pins, held, referenced, k) && FirstAt(turn, pins, held, referenced, j)
    ensures j == k
  {
    assert Ready(turn[j], pins, held, referenced);
  }

  lemma NoVictim(lru: seq<Frame>, turn: seq<Frame>, pins: seq<nat>, held: seq<bool>, referenced: seq<bool>, bits: seq<bool>)
    requires |pins| == |held| == |referenced| && turn != []
    requires NoneReady(turn, pins, held, referenced, |turn|) && Passed(turn, pins, referenced, bits)
    ensures VictimOk(lru, turn, pins, held, referenced, FirstIdle(lru, pins, held), bits)
    ensures HandLeft(turn, pins, held, referenced, Some(turn[0]))
  {
    forall k: nat | k < |turn| ensures !FirstAt(turn, pins, held, referenced, k) {
      assert !Ready(turn[k], pins, held, referenced);
    }
    forall k: nat | FirstFree(lru, pins, held, k) ensures FirstIdle(lru, pins, held) == Some(lru[k]) {
      FirstIdleAt(lru, pins, held, k);
    }
  }

  /** The hand is back where it started only after the whole turn. */
  lemma BackAtStart(turn: seq<Frame>, k: nat)
    requires 0 < k <= |turn| && Distinct(turn) && turn[if k == |turn| then 0 else k] == turn[0]
    ensures k == |turn|
  {
  }

  /** The position that follows position i on the circle. */
  function After(size: nat, i: nat): (j: nat)
    requires i < size
    ensures j < size
  {
    if i + 1 == size then 0 else i + 1
  }

  /** Where the hand goes when a frame is removed is still in the list. */
  lemma HandStays(lru: seq<Frame>, i: nat, hand: Link, n: Link, head: Link)
    requires i < |lru| && Distinct(lru) && hand.Some? && hand.value in lru && head == First(lru)
    requires n == if i == |lru| - 1 then None else Some(lru[i + 1])
    ensures hand != Some(lru[i]) ==> hand.value in Unlinked(lru, i)
    ensures hand == Some(lru[i]) && |lru| > 1 ==>
      var to := if n == None then head else n;
      && to == Some(lru[After(|lru|, i)]) && to.value in Unlinked(lru, i)
  {
    var k :| 0 <= k < |lru| && lru[k] == hand.value;
    var rest := Unlinked(lru, i);
    if k != i {
      assert rest[if k < i then k else k - 1] == hand.value;
    } else if |lru| > 1 {
      assert rest[if i == |lru| - 1 then 0 else i] == lru[After(|lru|, i)];
    }
  }
}
