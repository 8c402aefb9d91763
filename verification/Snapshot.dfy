/** Snapshot reads under consolidation (src/db.cc, src/smo.cc, src/txn.cc): one
 * vertex, its stored list with a commit time per edge, its delta records with
 * their commit times, the active readers. */
module Snapshot {
  import opened Replay
  import opened MergeGraph
  import opened Selection

  /** ts is the commit time of the record, 0 for a write outside any transaction. */
  datatype TRec = TRec(dst: Vid, kind: Kind, ts: nat)

  /** Stored edges with the time they carry, 0 for an edge that is always visible. */
  type TBase = map<Vid, nat>

  // ---------------------------------------------------------------------------
  // What a reader at time t sees

  predicate Seen(r: TRec, t: nat) {
    r.ts != 0 && r.ts <= t
  }

  predicate BaseSeen(base: TBase, e: Vid, t: nat) {
    e in base && (base[e] == 0 || base[e] <= t)
  }

  /** A visible record of that kind about `e`. */
  ghost predicate Hit(log: seq<TRec>, e: Vid, kind: Kind, t: nat) {
    exists r :: r in log && r.dst == e && r.kind == kind && Seen(r, t)
  }

  /** A visible deletion hides the edge, whatever was recorded before or after it. */
  ghost predicate InView(base: TBase, log: seq<TRec>, e: Vid, t: nat) {
    (BaseSeen(base, e, t) || Hit(log, e, Insert, t)) && !Hit(log, e, Delete, t)
  }

  lemma HitConcat(a: seq<TRec>, b: seq<TRec>, e: Vid, kind: Kind, t: nat)
    ensures Hit(a + b, e, kind, t) <==> Hit(a, e, kind, t) || Hit(b, e, kind, t)
  {
    if Hit(a, e, kind, t) {
      var r :| r in a && r.dst == e && r.kind == kind && Seen(r, t);
      assert r in a + b;
    }
    if Hit(b, e, kind, t) {
      var r :| r in b && r.dst == e && r.kind == kind && Seen(r, t);
      assert r in a + b;
    }
  }

  /** A record counts once, however often and wherever it stands. */
  lemma HitSame(a: seq<TRec>, b: seq<TRec>, e: Vid, kind: Kind, t: nat)
    requires forall r :: r in a <==> r in b
    ensures Hit(a, e, kind, t) <==> Hit(b, e, kind, t)
  {
  }

  // ---------------------------------------------------------------------------
  // Merging

  function ApplyTs(base: TBase, r: TRec): TBase {
    if r.kind == Insert then base[r.dst := r.ts] else base - {r.dst}
  }

  /** Replay of records over the stored edges, in log order. */
  function MergeTs(base: TBase, recs: seq<TRec>): TBase {
    if recs == [] then base else ApplyTs(MergeTs(base, recs[..|recs| - 1]), recs[|recs| - 1])
  }

  /** The last record about `e`. */
  function LastRec(recs: seq<TRec>, e: Vid): Option<TRec> {
    if recs == [] then None
    else if recs[|recs| - 1].dst == e then Some(recs[|recs| - 1])
    else LastRec(recs[..|recs| - 1], e)
  }

  lemma {:induction false} MergeTsLast(base: TBase, recs: seq<TRec>, e: Vid)
    ensures LastRec(recs, e) == None ==>
      (e in MergeTs(base, recs) <==> e in base) && (e in base ==> MergeTs(base, recs)[e] == base[e])
    ensures LastRec(recs, e).Some? ==>
      && (e in MergeTs(base, recs) <==> LastRec(recs, e).value.kind == Insert)
      && (e in MergeTs(base, recs) ==> MergeTs(base, recs)[e] == LastRec(recs, e).value.ts)
  {
    if recs != [] {
      MergeTsLast(base, recs[..|recs| - 1], e);
    }
  }

  lemma {:induction false} LastRecSound(recs: seq<TRec>, e: Vid)
    ensures LastRec(recs, e) == None <==> forall r :: r in recs ==> r.dst != e
    ensures LastRec(recs, e).Some? ==> LastRec(recs, e).value in recs && LastRec(recs, e).value.dst == e
  {
    if recs != [] {
      var front, last := recs[..|recs| - 1], recs[|recs| - 1];
      LastRecSound(front, e);
      assert recs == front + [last];
    }
  }

  /** The last one by position. */
  lemma {:induction false} LastRecIs(recs: seq<TRec>, e: Vid, i: nat)
    requires i < |recs| && recs[i].dst == e && forall j: nat :: i < j < |recs| ==> recs[j].dst != e
    ensures LastRec(recs, e) == Some(recs[i])
  {
    if i < |recs| - 1 {
      assert forall j: nat :: i < j < |recs| - 1 ==> recs[..|recs| - 1][j] == recs[j];
      LastRecIs(recs[..|recs| - 1], e, i);
    }
  }

  /** A record may be merged if every active and future reader sees it. */
  predicate Mergeable(r: TRec, mark: nat) {
    r.ts != 0 && r.ts < mark
  }

  function Taken(log: seq<TRec>, mark: nat): (recs: seq<TRec>)
    ensures forall r :: r in recs <==> r in log && Mergeable(r, mark)
  {
    if log == [] then [] else
    var front, last := log[..|log| - 1], log[|log| - 1];
    assert log == front + [last];
    if Mergeable(last, mark) then Taken(front, mark) + [last] else Taken(front, mark)
  }

  function Deferred(log: seq<TRec>, mark: nat): (recs: seq<TRec>)
    ensures forall r :: r in recs <==> r in log && !Mergeable(r, mark)
  {
    if log == [] then [] else
    var front, last := log[..|log| - 1], log[|log| - 1];
    assert log == front + [last];
    if Mergeable(last, mark) then Deferred(front, mark) else Deferred(front, mark) + [last]
  }

  /** The split in positions: committed records below the watermark, and all others. */
  lemma {:induction false} TakenInOrder(log: seq<TRec>, mark: nat) returns (at: seq<nat>)
    ensures Picks(log, Taken(log, mark), at) && forall i: nat :: i in at <==> i < |log| && 0 < log[i].ts < mark
  {
    at := [];
    if log != [] {
      var front, last := log[..|log| - 1], log[|log| - 1];
      assert log == front + [last];
      at := TakenInOrder(front, mark);
      at := PicksSnoc(front, Taken(front, mark), at, last, 0 < last.ts < mark);
    }
  }

  lemma {:induction false} DeferredInOrder(log: seq<TRec>, mark: nat) returns (at: seq<nat>)
    ensures Picks(log, Deferred(log, mark), at)
    ensures forall i: nat :: i in at <==> i < |log| && (log[i].ts == 0 || log[i].ts >= mark)
  {
    at := [];
    if log != [] {
      var front, last := log[..|log| - 1], log[|log| - 1];
      assert log == front + [last];
      at := DeferredInOrder(front, mark);
      at := PicksSnoc(front, Deferred(front, mark), at, last, last.ts == 0 || last.ts >= mark);
    }
  }

  /** The merge brings `e` back, or lets a waiting insertion of it show again, for a
   *  reader at t: the deletion that hid it is used up and no other one is visible. */
  ghost predicate Revives(merged: seq<TRec>, rest: seq<TRec>, e: Vid, t: nat) {
    && (exists r :: r in merged && r.dst == e && r.kind == Delete)
    && !Hit(rest, e, Delete, t)
    && (|| (LastRec(merged, e).Some? && LastRec(merged, e).value.kind == Insert)
        || Hit(rest, e, Insert, t))
  }

  /** A consolidation with watermark `mark` keeps what a reader at t >= mark sees of an
   *  edge if and only if it does not revive it. */
  lemma MergeKeepsView(base: TBase, merged: seq<TRec>, rest: seq<TRec>, mark: nat, t: nat, e: Vid)
    requires mark <= t && forall r :: r in merged ==> Mergeable(r, mark)
    ensures (InView(MergeTs(base, merged), rest, e, t) <==> InView(base, merged + rest, e, t))
        <==> !Revives(merged, rest, e, t)
  {
    HitConcat(merged, rest, e, Insert, t);
    HitConcat(merged, rest, e, Delete, t);
    MergeTsLast(base, merged, e);
    LastRecSound(merged, e);
    match LastRec(merged, e)
    case None =>
    case Some(r) =>
      assert Seen(r, t);
      MergedHits(merged, mark, t, e);
  }

  /** Everything merged is visible, and what comes last is an insertion or a deletion. */
  lemma MergedHits(merged: seq<TRec>, mark: nat, t: nat, e: Vid)
    requires mark <= t && forall r :: r in merged ==> Mergeable(r, mark)
    ensures Hit(merged, e, Delete, t) <==> exists r :: r in merged && r.dst == e && r.kind == Delete
    ensures LastRec(merged, e).Some? ==> Hit(merged, e, LastRec(merged, e).value.kind, t)
  {
    LastRecSound(merged, e);
    if exists r :: r in merged && r.dst == e && r.kind == Delete {
      var r :| r in merged && r.dst == e && r.kind == Delete;
      assert Seen(r, t);
    }
    if LastRec(merged, e).Some? {
      assert Seen(LastRec(merged, e).value, t);
    }
  }

  // ---------------------------------------------------------------------------
  // Runs

  /** A consolidation in flight: the watermark it read, and how much of the log it had
   *  fetched before. */
  datatype TJob = TJob(mark: nat, taken: nat)

  /** now: last commit time; readers: read times of the active transactions;
   *  log: all records a reader of the vertex walks, in page-chain order. */
  datatype TState = TState(now: nat, readers: multiset<nat>, base: TBase, log: seq<TRec>, job: Option<TJob>)

  datatype TStep =
    | Begin
    | End(ts: nat)
    | Commit(ops: seq<Op>)
    | Plain(op: Op)
    | Take(taken: nat, mark: nat)
    | Requeue(k: nat, order: seq<TRec>)
    | Publish(k: nat, order: seq<TRec>)

  /** The watermark: the oldest read time, or the last commit time if nobody reads. */
  ghost predicate IsMark(s: TState, m: nat) {
    if s.readers == multiset{} then m == s.now
    else m in s.readers && forall r :: r in s.readers ==> m <= r
  }

  function Stamp(ops: seq<Op>, ts: nat): (recs: seq<TRec>)
    ensures forall r :: r in recs ==> r.ts == ts
    ensures |recs| == |ops| && forall i :: 0 <= i < |ops| ==> recs[i] == TRec(ops[i].dst, ops[i].kind, ts)
  {
    if ops == [] then []
    else Stamp(ops[..|ops| - 1], ts) + [TRec(ops[|ops| - 1].dst, ops[|ops| - 1].kind, ts)]
  }

  function Merged(s: TState): seq<TRec>
    requires s.job.Some? && s.job.value.taken <= |s.log|
  {
    Taken(s.log[..s.job.value.taken], s.job.value.mark)
  }

  /** What a consolidation leaves: the records it deferred and those that came since. */
  function Rest(s: TState): seq<TRec>
    requires s.job.Some? && s.job.value.taken <= |s.log|
  {
    Deferred(s.log[..s.job.value.taken], s.job.value.mark) + s.log[s.job.value.taken..]
  }

  /** The same records, in any order and any number. */
  ghost predicate SameRecords(a: seq<TRec>, b: seq<TRec>) {
    forall r :: r in a <==> r in b
  }

  /** `order` is a and b, each in its own order, mixed in some way. */
  ghost predicate Mixes<T>(order: seq<T>, a: seq<T>, b: seq<T>)
    decreases |order|
  {
    if order == [] then a == [] && b == []
    else
      var front, last := order[..|order| - 1], order[|order| - 1];
      || (a != [] && a[|a| - 1] == last && Mixes(front, a[..|a| - 1], b))
      || (b != [] && b[|b| - 1] == last && Mixes(front, a, b[..|b| - 1]))
  }

  lemma {:induction false} MixesKeeps<T>(order: seq<T>, a: seq<T>, b: seq<T>)
    requires Mixes(order, a, b)
    ensures multiset(order) == multiset(a) + multiset(b)
    decreases |order|
  {
    if order != [] {
      var front, last := order[..|order| - 1], order[|order| - 1];
      assert order == front + [last];
      if a != [] && a[|a| - 1] == last && Mixes(front, a[..|a| - 1], b) {
        MixesKeeps(front, a[..|a| - 1], b);
        assert a == a[..|a| - 1] + [last];
      } else {
        MixesKeeps(front, a, b[..|b| - 1]);
        assert b == b[..|b| - 1] + [last];
      }
    }
  }

  /** Deferred records are put back, oldest first, while writes go on arriving: behind those
   *  that had come before the first was put back, and mixed with those that came after. */
  ghost predicate Requeued(s: TState, k: nat, order: seq<TRec>)
    requires s.job.Some? && s.job.value.taken <= k <= |s.log|
  {
    var n := s.job.value.taken;
    && |order| >= k - n && order[..k - n] == s.log[n..k]
    && Mixes(order[k - n..], s.log[k..], Deferred(s.log[..n], s.job.value.mark))
  }

  /** The log of the new page: the writes that were routed there, mixed with the strays that
   *  had reached the old page before and the deferred records behind them, each in order. */
  ghost predicate Rerouted(s: TState, k: nat, order: seq<TRec>)
    requires s.job.Some? && s.job.value.taken <= k <= |s.log|
  {
    var n := s.job.value.taken;
    Mixes(order, s.log[k..], s.log[n..k] + Deferred(s.log[..n], s.job.value.mark))
  }

  /** A consolidation ends with Requeue if it found nothing to merge, else with Publish. */
  ghost predicate TEnabled(s: TState, t: TStep) {
    match t
    case Begin => true
    case End(ts) => ts in s.readers
    case Commit(_) => true
    case Plain(_) => true
    case Take(taken, mark) => s.job == None && IsMark(s, mark) && taken <= |s.log|
    case Requeue(k, order) => s.job.Some? && s.job.value.taken <= k <= |s.log| && Merged(s) == [] && Requeued(s, k, order)
    case Publish(k, order) => s.job.Some? && s.job.value.taken <= k <= |s.log| && Rerouted(s, k, order)
  }

  ghost function TNext(s: TState, t: TStep): TState
    requires TEnabled(s, t)
  {
    match t
    case Begin => s.(readers := s.readers + multiset{s.now})
    case End(ts) => s.(readers := s.readers - multiset{ts})
    case Commit(ops) => s.(now := s.now + 1, log := s.log + Stamp(ops, s.now + 1))
    case Plain(op) => s.(log := s.log + [TRec(op.dst, op.kind, 0)])
    case Take(taken, mark) => s.(job := Some(TJob(mark, taken)))
    case Requeue(_, order) => s.(log := order, job := None)
    case Publish(_, order) => s.(base := MergeTs(s.base, Merged(s)), log := order, job := None)
  }

  ghost predicate TInv(s: TState) {
    && (forall r :: r in s.readers ==> r <= s.now)
    && (s.job.Some? ==>
          && s.job.value.taken <= |s.log| && s.job.value.mark <= s.now
          && forall r :: r in s.readers ==> s.job.value.mark <= r)
  }

  lemma TKeeps(s: TState, t: TStep)
    requires TInv(s) && TEnabled(s, t)
    ensures TInv(TNext(s, t))
  {
  }

  /** Any sequence of steps. */
  ghost predicate TRuns(s: TState, steps: seq<TStep>)
    decreases |steps|
  {
    steps == [] || (TEnabled(s, steps[0]) && TRuns(TNext(s, steps[0]), steps[1..]))
  }

  ghost function TEnd(s: TState, steps: seq<TStep>): TState
    requires TRuns(s, steps)
    decreases |steps|
  {
    if steps == [] then s else TEnd(TNext(s, steps[0]), steps[1..])
  }

  /** Nobody reads below m, and nobody ever will. */
  ghost predicate SettledBelow(s: TState, m: nat) {
    m <= s.now && forall r :: r in s.readers ==> m <= r
  }

  lemma {:induction false} SettledStays(s: TState, steps: seq<TStep>, m: nat)
    requires TRuns(s, steps) && SettledBelow(s, m)
    ensures SettledBelow(TEnd(s, steps), m)
    decreases |steps|
  {
    if steps != [] {
      SettledStays(TNext(s, steps[0]), steps[1..], m);
    }
  }

  /** Along any run the watermark never moves back, and at any time it is at most every
   *  active read time. */
  lemma MarkRises(s: TState, steps: seq<TStep>, m: nat, m': nat)
    requires TInv(s) && TRuns(s, steps) && IsMark(s, m) && IsMark(TEnd(s, steps), m')
    ensures m <= m' && SettledBelow(TEnd(s, steps), m)
    ensures forall r :: r in TEnd(s, steps).readers ==> m' <= r
  {
    SettledStays(s, steps, m);
  }

  lemma SplitSame(s: TState)
    requires TInv(s) && s.job.Some?
    ensures SameRecords(Merged(s) + Rest(s), s.log)
  {
    var taken := s.log[..s.job.value.taken];
    assert s.log == taken + s.log[s.job.value.taken..];
  }

  lemma RequeuedSame(s: TState, k: nat, order: seq<TRec>)
    requires TInv(s) && s.job.Some? && s.job.value.taken <= k <= |s.log| && Requeued(s, k, order)
    ensures SameRecords(order, Rest(s)) && multiset(order) == multiset(Rest(s))
  {
    var n := s.job.value.taken;
    var deferred := Deferred(s.log[..n], s.job.value.mark);
    MixesKeeps(order[k - n..], s.log[k..], deferred);
    assert order == order[..k - n] + order[k - n..];
    assert s.log[n..] == s.log[n..k] + s.log[k..];
    SameCounts(order, Rest(s));
  }

  lemma ReroutedSame(s: TState, k: nat, order: seq<TRec>)
    requires TInv(s) && s.job.Some? && s.job.value.taken <= k <= |s.log| && Rerouted(s, k, order)
    ensures SameRecords(order, Rest(s)) && multiset(order) == multiset(Rest(s))
  {
    var n := s.job.value.taken;
    var deferred := Deferred(s.log[..n], s.job.value.mark);
    MixesKeeps(order, s.log[k..], s.log[n..k] + deferred);
    assert s.log[n..] == s.log[n..k] + s.log[k..];
    SameCounts(order, Rest(s));
  }

  lemma SameCounts(a: seq<TRec>, b: seq<TRec>)
    requires multiset(a) == multiset(b)
    ensures SameRecords(a, b)
  {
    forall r ensures r in a <==> r in b {
      assert r in a <==> r in multiset(a);
      assert r in b <==> r in multiset(b);
    }
  }

  lemma InViewSame(base: TBase, a: seq<TRec>, b: seq<TRec>, e: Vid, t: nat)
    requires SameRecords(a, b)
    ensures InView(base, a, e, t) <==> InView(base, b, e, t)
  {
    HitSame(a, b, e, Insert, t);
    HitSame(a, b, e, Delete, t);
  }

  /** Publishing a consolidation revives `e` for a reader at t. */
  ghost predicate RevivedBy(s: TState, step: TStep, e: Vid, t: nat) {
    step.Publish? && s.job.Some? && s.job.value.taken <= |s.log| && Revives(Merged(s), Rest(s), e, t)
  }

  lemma PublishView(s: TState, k: nat, order: seq<TRec>, t: nat, e: Vid)
    requires TInv(s) && TEnabled(s, Publish(k, order)) && t in s.readers
    ensures (InView(TNext(s, Publish(k, order)).base, order, e, t) <==> InView(s.base, s.log, e, t))
        <==> !Revives(Merged(s), Rest(s), e, t)
  {
    hide InView, Revives, Mixes, SameRecords, Deferred, Taken, MergeTs;
    ReroutedSame(s, k, order);
    MergeKeepsView(s.base, Merged(s), Rest(s), s.job.value.mark, t, e);
    SplitSame(s);
    InViewSame(s.base, Merged(s) + Rest(s), s.log, e, t);
    InViewSame(MergeTs(s.base, Merged(s)), order, Rest(s), e, t);
  }

  lemma RequeueView(s: TState, k: nat, order: seq<TRec>, t: nat, e: Vid)
    requires TInv(s) && TEnabled(s, Requeue(k, order))
    ensures InView(s.base, order, e, t) <==> InView(s.base, s.log, e, t)
  {
    hide InView, Mixes, SameRecords, Deferred, Taken;
    RequeuedSame(s, k, order);
    SplitSame(s);
    InViewSame(s.base, order, Rest(s), e, t);
    assert Merged(s) + Rest(s) == Rest(s);
    InViewSame(s.base, Merged(s) + Rest(s), s.log, e, t);
  }

  lemma UnseenSuffix(base: TBase, log: seq<TRec>, more: seq<TRec>, t: nat, e: Vid)
    requires forall r :: r in more ==> !Seen(r, t)
    ensures InView(base, log + more, e, t) <==> InView(base, log, e, t)
  {
    HitConcat(log, more, e, Insert, t);
    HitConcat(log, more, e, Delete, t);
  }

  /** One step changes what an active reader sees of an edge if and only if it
   *  publishes a merge that revives the edge for it. */
  lemma StepView(s: TState, step: TStep, t: nat, e: Vid)
    requires TInv(s) && TEnabled(s, step) && t in s.readers
    ensures (InView(TNext(s, step).base, TNext(s, step).log, e, t) <==> InView(s.base, s.log, e, t))
        <==> !RevivedBy(s, step, e, t)
  {
    match step
    case Begin =>
    case End(_) =>
    case Commit(ops) => UnseenSuffix(s.base, s.log, Stamp(ops, s.now + 1), t, e);
    case Plain(op) => UnseenSuffix(s.base, s.log, [TRec(op.dst, op.kind, 0)], t, e);
    case Take(_, _) =>
    case Requeue(k, order) => RequeueView(s, k, order, t, e);
    case Publish(k, order) => PublishView(s, k, order, t, e);
  }

  /** A run during which a transaction at t stays active and nothing is revived for it. */
  ghost predicate QuietRun(s: TState, steps: seq<TStep>, t: nat)
    decreases |steps|
  {
    && t in s.readers
    && (steps == [] ||
        (&& TEnabled(s, steps[0]) && (forall e :: !RevivedBy(s, steps[0], e, t))
         && QuietRun(TNext(s, steps[0]), steps[1..], t)))
  }

  ghost function TAfter(s: TState, steps: seq<TStep>, t: nat): TState
    requires QuietRun(s, steps, t)
    decreases |steps|
  {
    if steps == [] then s else TAfter(TNext(s, steps[0]), steps[1..], t)
  }

  /** Snapshot stability: over any such run the transaction keeps seeing the same edges,
   *  whatever is committed, merged or re-inserted meanwhile. */
  lemma {:induction false} SnapshotStable(s: TState, steps: seq<TStep>, t: nat, e: Vid)
    requires TInv(s) && QuietRun(s, steps, t)
    ensures TInv(TAfter(s, steps, t))
    ensures InView(TAfter(s, steps, t).base, TAfter(s, steps, t).log, e, t) <==> InView(s.base, s.log, e, t)
    decreases |steps|
  {
    if steps != [] {
      StepView(s, steps[0], t, e);
      TKeeps(s, steps[0]);
      SnapshotStable(TNext(s, steps[0]), steps[1..], t, e);
    }
  }

  // ---------------------------------------------------------------------------
  // What a new transaction sees

  /** A commit appends one record for every buffered write, in order, at the next time. */
  lemma CommitAppends(s: TState, ops: seq<Op>)
    ensures var s' := TNext(s, Commit(ops));
      && s'.now == s.now + 1 && |s'.log| == |s.log| + |ops| && s'.log[..|s.log|] == s.log
      && s'.base == s.base && s'.readers == s.readers && s'.job == s.job
      && forall i :: 0 <= i < |ops| ==> s'.log[|s.log| + i] == TRec(ops[i].dst, ops[i].kind, s.now + 1)
  {
  }

  /** Nothing carries a time later than the last commit. */
  ghost predicate TimesOk(s: TState) {
    && (forall r :: r in s.log ==> r.ts <= s.now)
    && (forall e :: e in s.base ==> s.base[e] <= s.now)
  }

  lemma TimesStep(s: TState, step: TStep)
    requires TInv(s) && TEnabled(s, step) && TimesOk(s)
    ensures TimesOk(TNext(s, step))
  {
    hide Taken, Deferred, Mixes;
    match step
    case Requeue(k, order) =>
      RequeuedSame(s, k, order);
      SplitSame(s);
    case Publish(k, order) =>
      ReroutedSame(s, k, order);
      SplitSame(s);
      MergedTimes(s.base, Merged(s), s.now);
    case _ =>
  }

  lemma {:induction false} MergedTimes(base: TBase, recs: seq<TRec>, now: nat)
    requires (forall r :: r in recs ==> r.ts <= now) && forall e :: e in base ==> base[e] <= now
    ensures forall e :: e in MergeTs(base, recs) ==> MergeTs(base, recs)[e] <= now
  {
    if recs != [] {
      MergedTimes(base, recs[..|recs| - 1], now);
    }
  }

  lemma {:induction false} TimesRun(s: TState, steps: seq<TStep>)
    requires TInv(s) && TRuns(s, steps) && TimesOk(s)
    ensures TInv(TEnd(s, steps)) && TimesOk(TEnd(s, steps))
    decreases |steps|
  {
    if steps != [] {
      TimesStep(s, steps[0]);
      TKeeps(s, steps[0]);
      TimesRun(TNext(s, steps[0]), steps[1..]);
    }
  }

  /** Freshness.  A transaction that begins after any run sees exactly the edges that are
   *  stored or have a committed insertion, and have no committed deletion: whatever was
   *  committed before it began counts. */
  lemma BeginSeesCommitted(s: TState, steps: seq<TStep>, e: Vid)
    requires TInv(s) && TimesOk(s) && TRuns(s, steps)
    ensures var end := TEnd(s, steps);
      var s' := TNext(end, Begin);
      && end.now in s'.readers
      && (InView(s'.base, s'.log, e, end.now) <==>
            && (e in end.base || exists r :: r in end.log && r.dst == e && r.kind == Insert && r.ts != 0)
            && !exists r :: r in end.log && r.dst == e && r.kind == Delete && r.ts != 0)
  {
    var end := TEnd(s, steps);
    TimesRun(s, steps);
    forall r | r in end.log ensures Seen(r, end.now) <==> r.ts != 0 {
      assert r.ts <= end.now;
    }
    assert e in end.base ==> end.base[e] <= end.now;
  }

  /** So a transaction that begins right after a commit does not see what that one deleted,
   *  and sees what it inserted unless a deletion of the edge has been committed. */
  lemma CommitThenBegin(s: TState, ops: seq<Op>, i: nat)
    requires TInv(s) && TimesOk(s) && i < |ops|
    ensures var s' := TNext(TNext(s, Commit(ops)), Begin);
      && s'.now in s'.readers && s'.now == s.now + 1
      && (ops[i].kind == Delete ==> !InView(s'.base, s'.log, ops[i].dst, s'.now))
      && (ops[i].kind == Insert && (forall r :: r in s'.log && r.dst == ops[i].dst && r.kind == Delete ==> r.ts == 0) ==>
            InView(s'.base, s'.log, ops[i].dst, s'.now))
  {
    hide InView, Stamp;
    var c := TNext(s, Commit(ops));
    CommitAppends(s, ops);
    assert c.log[|s.log| + i] in c.log;
    TKeeps(s, Commit(ops));
    TimesStep(s, Commit(ops));
    assert TEnd(c, []) == c;
    BeginSeesCommitted(c, [], ops[i].dst);
  }

  // ---------------------------------------------------------------------------
  // When nothing is ever revived

  /** No edge is inserted again after it was deleted, neither in log order nor in
   *  commit order. */
  ghost predicate NoReinsert(log: seq<TRec>) {
    && (forall i, j :: 0 <= i < j < |log| && log[i].dst == log[j].dst && log[i].kind == Delete ==>
          log[j].kind == Delete)
    && (forall a, b :: a in log && b in log && a.dst == b.dst && a.kind == Delete && b.kind == Insert ==>
          b.ts <= a.ts)
  }

  /** Deletions at the end stay at the end under filtering. */
  lemma {:induction false} TakenLast(log: seq<TRec>, mark: nat, e: Vid)
    requires forall i, j :: 0 <= i < j < |log| && log[i].dst == log[j].dst && log[i].kind == Delete ==>
      log[j].kind == Delete
    requires exists r :: r in Taken(log, mark) && r.dst == e && r.kind == Delete
    ensures LastRec(Taken(log, mark), e).Some? && LastRec(Taken(log, mark), e).value.kind == Delete
  {
    var front, last := log[..|log| - 1], log[|log| - 1];
    assert log == front + [last];
    if Mergeable(last, mark) && last.dst == e {
      var r :| r in Taken(log, mark) && r.dst == e && r.kind == Delete;
      assert r in log;
      assert Taken(log, mark)[..|Taken(log, mark)| - 1] == Taken(front, mark);
    } else {
      var r :| r in Taken(log, mark) && r.dst == e && r.kind == Delete;
      assert r in Taken(front, mark);
      TakenLast(front, mark, e);
      if Mergeable(last, mark) {
        assert Taken(log, mark)[..|Taken(log, mark)| - 1] == Taken(front, mark);
      }
    }
  }

  /** Under that discipline a consolidation never changes what anybody sees. */
  lemma NoReinsertIsQuiet(s: TState, step: TStep, e: Vid, t: nat)
    requires TInv(s) && TEnabled(s, step) && NoReinsert(s.log)
    ensures !RevivedBy(s, step, e, t)
  {
    hide TEnabled, Taken, Deferred, LastRec, Mixes;
    if RevivedBy(s, step, e, t) {
      var taken := s.log[..s.job.value.taken];
      var d :| d in Merged(s) && d.dst == e && d.kind == Delete;
      assert forall i :: 0 <= i < |taken| ==> taken[i] == s.log[i];
      TakenLast(taken, s.job.value.mark, e);
      SplitSame(s);
      assert d in Merged(s) + Rest(s);
      if Hit(Rest(s), e, Insert, t) {
        var b :| b in Rest(s) && b.dst == e && b.kind == Insert && Seen(b, t);
        assert b in Merged(s) + Rest(s);
        var i, j := LeftAfterTaken(s, b, d);
      }
    }
  }

  /** A run during which a transaction at t stays active and no log has an edge inserted
   *  again after it was deleted. */
  ghost predicate CalmRun(s: TState, steps: seq<TStep>, t: nat)
    decreases |steps|
  {
    && t in s.readers && NoReinsert(s.log)
    && (steps == [] || (TEnabled(s, steps[0]) && CalmRun(TNext(s, steps[0]), steps[1..], t)))
  }

  lemma {:induction false} CalmIsQuiet(s: TState, steps: seq<TStep>, t: nat)
    requires TInv(s) && CalmRun(s, steps, t)
    ensures QuietRun(s, steps, t)
    decreases |steps|
  {
    hide NoReinsert, TEnabled, TNext, RevivedBy, TInv;
    if steps != [] {
      forall e ensures !RevivedBy(s, steps[0], e, t) {
        NoReinsertIsQuiet(s, steps[0], e, t);
      }
      TKeeps(s, steps[0]);
      CalmIsQuiet(TNext(s, steps[0]), steps[1..], t);
    }
  }

  /** Over any such run the transaction keeps seeing the same edges. */
  lemma NoReinsertStable(s: TState, steps: seq<TStep>, t: nat, e: Vid)
    requires TInv(s) && CalmRun(s, steps, t)
    ensures QuietRun(s, steps, t)
    ensures InView(TAfter(s, steps, t).base, TAfter(s, steps, t).log, e, t) <==> InView(s.base, s.log, e, t)
  {
    hide CalmRun, QuietRun, TAfter, InView, TInv;
    CalmIsQuiet(s, steps, t);
    SnapshotStable(s, steps, t, e);
  }

  /** A left-over record not later than a merged one came after it in the log. */
  lemma LeftAfterTaken(s: TState, b: TRec, d: TRec) returns (i: nat, j: nat)
    requires TInv(s) && s.job.Some? && b in Rest(s) && d in Merged(s)
    requires b.ts != 0 && b.ts <= d.ts
    ensures i < j < |s.log| && s.log[i] == d && s.log[j] == b
  {
    var n := s.job.value.taken;
    assert b !in Deferred(s.log[..n], s.job.value.mark);
    var k :| 0 <= k < |s.log[n..]| && s.log[n..][k] == b;
    i :| 0 <= i < n && s.log[i] == d;
    j := n + k;
  }

  // ---------------------------------------------------------------------------
  // A client that never re-inserts is not enough

  ghost predicate StepAt(states: seq<TState>, steps: seq<TStep>, i: nat)
    requires i < |steps| && |states| == |steps| + 1
  {
    TEnabled(states[i], steps[i]) && states[i + 1] == TNext(states[i], steps[i])
  }

  const INS := TRec(1, Insert, 1)
  const DEL := TRec(1, Delete, 2)

  /** A state of the run below: no stored edge and no consolidation in flight. */
  function Moment(now: nat, readers: multiset<nat>, log: seq<TRec>): TState {
    TState(now, readers, map[], log, None)
  }

  function Moments(): seq<TState> {
    [Moment(0, multiset{}, []), Moment(0, multiset{0}, []), Moment(1, multiset{0}, [INS]),
     Moment(1, multiset{0}, [INS]).(job := Some(TJob(0, 1))), Moment(2, multiset{0}, [INS, DEL]).(job := Some(TJob(0, 1))),
     Moment(2, multiset{0}, [DEL, INS]), Moment(2, multiset{}, [DEL, INS]), Moment(3, multiset{}, [DEL, INS]),
     Moment(3, multiset{3}, [DEL, INS]), Moment(3, multiset{3}, [DEL, INS]).(job := Some(TJob(3, 2)))]
  }

  function Moves(): seq<TStep> {
    [Begin, Commit([Op(1, Insert)]), Take(1, 0), Commit([Op(1, Delete)]), Requeue(2, [DEL, INS]), End(0), Commit([]),
     Begin, Take(2, 3)]
  }

  lemma FirstMoves(i: nat)
    requires i < 4
    ensures StepAt(Moments(), Moves(), i)
  {
    hide Stamp;
    StampOne(Op(1, Insert), 1);
    StampOne(Op(1, Delete), 2);
    assert [] + [INS] == [INS] && [INS] + [DEL] == [INS, DEL];
  }

  /** The insertion is deferred, and put back behind the deletion that came meanwhile. */
  lemma PutBack()
    ensures StepAt(Moments(), Moves(), 4)
  {
    var s := Moments()[4];
    assert s == Moment(2, multiset{0}, [INS, DEL]).(job := Some(TJob(0, 1)));
    DeferredBehind(s);
    assert Moments()[5] == TNext(s, Requeue(2, [DEL, INS]));
  }

  lemma DeferredBehind(s: TState)
    requires s.log == [INS, DEL] && s.job == Some(TJob(0, 1))
    ensures Merged(s) == [] && Requeued(s, 2, [DEL, INS])
  {
    hide Mixes;
    assert s.log[..1] == [INS] && s.log[1..2] == [DEL] && s.log[2..] == [];
    assert [INS][..0] == [];
    assert Taken([INS], 0) == Taken([], 0) && Deferred([INS], 0) == [] + [INS] == [INS];
    assert [DEL, INS][..1] == [DEL] && [DEL, INS][1..] == [INS];
    MixesOne(INS);
  }

  lemma MixesOne(r: TRec)
    ensures Mixes([r], [], [r])
  {
    assert [r][..0] == [];
  }

  lemma LateMoves(i: nat)
    requires 5 <= i < 9
    ensures StepAt(Moments(), Moves(), i)
  {
    assert multiset{0} - multiset{0} == multiset{};
    assert multiset{} + multiset{3} == multiset{3};
    assert Stamp([], 3) == [] && [DEL, INS] + [] == [DEL, INS];
  }

  lemma HiddenBefore()
    ensures !InView(map[], [DEL, INS], 1, 3)
  {
    assert DEL in [DEL, INS] && Seen(DEL, 3);
  }

  lemma SeenAfter()
    ensures InView(MergeTs(map[], [DEL, INS]), [], 1, 3)
  {
    assert [DEL, INS][..1] == [DEL];
    assert MergeTs(map[], [DEL, INS]) == ApplyTs(MergeTs(map[], [DEL]), INS);
  }

  /** Replayed in the order deletion, insertion, the edge comes back. */
  lemma OrderRevives(s: TState)
    requires s == Moment(3, multiset{3}, [DEL, INS]).(job := Some(TJob(3, 2)))
    ensures TEnabled(s, Publish(2, [])) && !InView(s.base, s.log, 1, 3)
    ensures InView(TNext(s, Publish(2, [])).base, [], 1, 3)
  {
    hide InView, MergeTs, Taken, Deferred;
    assert s.log[..2] == [DEL, INS] && s.log[2..] == [] && s.log[2..2] == [];
    TakenPair(DEL, INS);
    HiddenBefore();
    SeenAfter();
  }

  /** Edge 1 is inserted once and, later, deleted once.  Because of an old reader the
   *  insertion is deferred, and put back behind the deletion that was committed meanwhile;
   *  a later consolidation replays the two in that order, and a reader that did not see the
   *  edge before sees it afterwards. */
  lemma DeferralRevives() returns (states: seq<TState>, steps: seq<TStep>)
    ensures |states| == |steps| + 1 && states[0] == TState(0, multiset{}, map[], [], None)
    ensures forall i :: 0 <= i < |steps| ==> StepAt(states, steps, i)
    ensures steps == [Begin, Commit([Op(1, Insert)]), Take(1, 0), Commit([Op(1, Delete)]), Requeue(2, [DEL, INS]),
                      End(0), Commit([]), Begin, Take(2, 3)]
    ensures var s := states[|steps|];
      && 3 in s.readers && TEnabled(s, Publish(2, []))
      && !InView(s.base, s.log, 1, 3)
      && InView(TNext(s, Publish(2, [])).base, [], 1, 3)
  {
    hide StepAt, TEnabled, TNext, InView;
    states, steps := Moments(), Moves();
    forall i | 0 <= i < |steps| ensures StepAt(states, steps, i) {
      if i < 4 {
        FirstMoves(i);
      } else if i == 4 {
        PutBack();
      } else {
        LateMoves(i);
      }
    }
    OrderRevives(states[9]);
  }

  lemma StampOne(op: Op, ts: nat)
    ensures Stamp([op], ts) == [TRec(op.dst, op.kind, ts)]
  {
    assert [op][..0] == [];
  }

  lemma TakenPair(a: TRec, b: TRec)
    requires Mergeable(a, 3) && Mergeable(b, 3)
    ensures Taken([a, b], 3) == [a, b] && Deferred([a, b], 3) == []
  {
    assert [a, b][..1] == [a] && [a][..0] == [];
    assert Taken([a], 3) == Taken([], 3) + [a];
    assert Deferred([a], 3) == Deferred([], 3);
  }

  // ---------------------------------------------------------------------------
  // The code

  /** The lists stored on a page for one vertex hold `base`. */
  ghost predicate Stored(base: TBase, ids: seq<Vid>, times: seq<nat>) {
    && |ids| == |times|
    && (forall j :: 0 <= j < |ids| ==> ids[j] in base && base[ids[j]] == times[j])
    && (forall e :: e in base ==> e in ids)
  }

  /** The transactional reader: stored edges by their time, then the whole chain,
   *  newest first; any visible deletion removes its edge. */
  method ReadNeighborCloneTxn(ids: seq<Vid>, times: seq<nat>, chain: seq<TRec>, readTs: nat, ghost base: TBase)
    returns (result: seq<Vid>)
    requires Stored(base, ids, times)
    ensures forall e :: e in result <==> InView(base, chain, e, readTs)
    ensures forall e :: e in result <==>
      && (|| (exists j :: 0 <= j < |ids| && ids[j] == e && (times[j] == 0 || times[j] <= readTs))
          || (exists k :: 0 <= k < |chain| && chain[k].dst == e && chain[k].kind == Insert && 0 < chain[k].ts <= readTs))
      && !exists k :: 0 <= k < |chain| && chain[k].dst == e && chain[k].kind == Delete && 0 < chain[k].ts <= readTs
  {
    var inserts: seq<Vid>, deletes: set<Vid> := [], {};
    for k := 0 to |chain|
      invariant forall e :: e in inserts <==> Hit(chain[..k], e, Insert, readTs)
      invariant forall e :: e in deletes <==> Hit(chain[..k], e, Delete, readTs)
    {
      assert chain[..k + 1] == chain[..k] + [chain[k]];
      HitSnoc(chain[..k], chain[k], readTs);
      if chain[k].ts != 0 && chain[k].ts <= readTs {
        if chain[k].kind == Insert {
          inserts := inserts + [chain[k].dst];
        } else {
          deletes := deletes + {chain[k].dst};
        }
      }
    }
    assert chain[..|chain|] == chain;
    result := [];
    for j := 0 to |ids|
      invariant forall e :: e in result <==> e in ids[..j] && BaseSeen(base, e, readTs) && e !in deletes
    {
      assert ids[..j + 1] == ids[..j] + [ids[j]];
      if (times[j] == 0 || times[j] <= readTs) && ids[j] !in deletes {
        result := result + [ids[j]];
      }
    }
    assert ids[..|ids|] == ids;
    for k := 0 to |inserts|
      invariant forall e :: e in result <==> (BaseSeen(base, e, readTs) || e in inserts[..k]) && e !in deletes
    {
      assert inserts[..k + 1] == inserts[..k] + [inserts[k]];
      if inserts[k] !in deletes {
        result := result + [inserts[k]];
      }
    }
    assert inserts[..|inserts|] == inserts;
    ViewBounds(ids, times, chain, readTs, base);
  }

  /** What is in view, with the bounds written out. */
  lemma ViewBounds(ids: seq<Vid>, times: seq<nat>, chain: seq<TRec>, t: nat, base: TBase)
    requires Stored(base, ids, times)
    ensures forall e :: InView(base, chain, e, t) <==>
      && (|| (exists j :: 0 <= j < |ids| && ids[j] == e && (times[j] == 0 || times[j] <= t))
          || (exists k :: 0 <= k < |chain| && chain[k].dst == e && chain[k].kind == Insert && 0 < chain[k].ts <= t))
      && !exists k :: 0 <= k < |chain| && chain[k].dst == e && chain[k].kind == Delete && 0 < chain[k].ts <= t
  {
    forall e
      ensures BaseSeen(base, e, t) <==> exists j :: 0 <= j < |ids| && ids[j] == e && (times[j] == 0 || times[j] <= t)
    {
      if BaseSeen(base, e, t) {
        var j :| 0 <= j < |ids| && ids[j] == e;
      }
    }
    forall e, kind
      ensures Hit(chain, e, kind, t) <==>
        exists k :: 0 <= k < |chain| && chain[k].dst == e && chain[k].kind == kind && 0 < chain[k].ts <= t
    {
      if Hit(chain, e, kind, t) {
        var r :| r in chain && r.dst == e && r.kind == kind && Seen(r, t);
        var k :| 0 <= k < |chain| && chain[k] == r;
      }
      if k :| 0 <= k < |chain| && chain[k].dst == e && chain[k].kind == kind && 0 < chain[k].ts <= t {
        assert chain[k] in chain && Seen(chain[k], t);
      }
    }
  }

  lemma HitSnoc(log: seq<TRec>, r: TRec, t: nat)
    ensures forall e, kind :: Hit(log + [r], e, kind, t) <==> Hit(log, e, kind, t) || (r.dst == e && r.kind == kind && Seen(r, t))
  {
    forall e, kind
      ensures Hit(log + [r], e, kind, t) <==> Hit(log, e, kind, t) || (r.dst == e && r.kind == kind && Seen(r, t))
    {
      HitConcat(log, [r], e, kind, t);
      if Hit([r], e, kind, t) {
        assert r.dst == e;
      } else if r.dst == e && r.kind == kind && Seen(r, t) {
        assert r in [r];
      }
    }
  }

  lemma TakenSnoc(front: seq<TRec>, last: TRec, mark: nat)
    ensures Taken(front + [last], mark) == if Mergeable(last, mark) then Taken(front, mark) + [last] else Taken(front, mark)
    ensures Deferred(front + [last], mark)
         == if Mergeable(last, mark) then Deferred(front, mark) else Deferred(front, mark) + [last]
  {
    assert (front + [last])[..|front|] == front;
  }

  /** No record is lost and none is doubled by the split. */
  lemma {:induction false} SplitConserves(log: seq<TRec>, mark: nat)
    ensures multiset(Taken(log, mark)) + multiset(Deferred(log, mark)) == multiset(log)
  {
    if log != [] {
      var front, last := log[..|log| - 1], log[|log| - 1];
      assert log == front + [last];
      SplitConserves(front, mark);
    }
  }

  /** Split the fetched records by the watermark, keeping their order. */
  method PartitionDeltas(deltas: seq<TRec>, mark: nat) returns (mergeable: seq<TRec>, deferred: seq<TRec>)
    ensures mergeable == Taken(deltas, mark) && deferred == Deferred(deltas, mark)
    ensures multiset(mergeable) + multiset(deferred) == multiset(deltas)
    ensures exists at :: Picks(deltas, mergeable, at) && forall i: nat :: i in at <==> i < |deltas| && 0 < deltas[i].ts < mark
    ensures exists at ::
      Picks(deltas, deferred, at) && forall i: nat :: i in at <==> i < |deltas| && (deltas[i].ts == 0 || deltas[i].ts >= mark)
  {
    hide Taken, Deferred;
    mergeable, deferred := [], [];
    EmptySplit(mark);
    for i := 0 to |deltas|
      invariant mergeable == Taken(deltas[..i], mark) && deferred == Deferred(deltas[..i], mark)
    {
      assert deltas[..i + 1] == deltas[..i] + [deltas[i]];
      TakenSnoc(deltas[..i], deltas[i], mark);
      if deltas[i].ts != 0 && deltas[i].ts < mark {
        mergeable := mergeable + [deltas[i]];
      } else {
        deferred := deferred + [deltas[i]];
      }
    }
    assert deltas[..|deltas|] == deltas;
    SplitConserves(deltas, mark);
    var early := TakenInOrder(deltas, mark);
    var late := DeferredInOrder(deltas, mark);
  }

  lemma EmptySplit(mark: nat)
    ensures Taken([], mark) == [] && Deferred([], mark) == []
  {
  }

  /** The replacement list of one vertex: sorted, without repetition, each edge with the
   *  time of its last insertion. */
  method BuildMergedListWithTs(ids: seq<Vid>, times: seq<nat>, deltas: seq<TRec>, ghost base: TBase)
    returns (ids': seq<Vid>, times': seq<nat>)
    requires Stored(base, ids, times)
    ensures Stored(MergeTs(base, deltas), ids', times') && StrictlySorted(ids')
  {
    var list, stamps: TBase := ids, map[];
    for j := 0 to |ids|
      invariant forall e :: e in stamps <==> e in ids[..j]
      invariant forall e :: e in stamps ==> e in base && stamps[e] == base[e]
    {
      assert ids[..j + 1] == ids[..j] + [ids[j]];
      stamps := stamps[ids[j] := times[j]];
    }
    assert ids[..|ids|] == ids;
    assert stamps == base;
    for i := 0 to |deltas|
      invariant stamps == MergeTs(base, deltas[..i])
      invariant Elems(list) == stamps.Keys
    {
      assert deltas[..i + 1][..i] == deltas[..i];
      ElemsConcat(list, [deltas[i].dst]);
      if deltas[i].kind == Insert {
        list := list + [deltas[i].dst];
        stamps := stamps[deltas[i].dst := deltas[i].ts];
      } else {
        list := Without(list, deltas[i].dst);
        stamps := stamps - {deltas[i].dst};
      }
    }
    assert deltas[..|deltas|] == deltas;
    ids' := SortUnique(list);
    times' := [];
    for j := 0 to |ids'|
      invariant |times'| == j
      invariant forall k :: 0 <= k < j ==> ids'[k] in stamps && times'[k] == stamps[ids'[k]]
    {
      assert ids'[j] in Elems(ids');
      times' := times' + [if ids'[j] in stamps then stamps[ids'[j]] else 0];
    }
    forall e | e in stamps ensures e in ids' {
      assert e in Elems(ids');
    }
  }
}
