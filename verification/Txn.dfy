/** Transaction timestamps, the watermark and the commit-time conflict check
 * (src/txn.cc). */
module Txn {
  import opened Replay
  import opened Snapshot

  type Hash = nat
  type Committed = map<nat, set<Hash>>

  function Count(readers: map<nat, nat>, ts: nat): nat {
    if ts in readers then readers[ts] else 0
  }

  /** The oldest read time of `readers`. */
  predicate Oldest(readers: map<nat, nat>, m: nat) {
    m in readers && forall ts :: ts in readers ==> m <= ts
  }

  /** water_mark_t: how many active readers there are per read time. */
  class WaterMark {
    var readers: map<nat, nat>

    predicate Valid()
      reads this
    {
      forall ts :: ts in readers ==> readers[ts] > 0
    }

    constructor ()
      ensures Valid() && readers == map[]
    {
      readers := map[];
    }

    method AddReader(ts: nat)
      requires Valid()
      modifies this
      ensures Valid()
      ensures forall t :: Count(readers, t) == Count(old(readers), t) + if t == ts then 1 else 0
      ensures readers.Keys == old(readers).Keys + {ts}
      ensures readers[ts] == 1 + (if ts in old(readers) then old(readers)[ts] else 0)
      ensures forall t :: t in old(readers) && t != ts ==> readers[t] == old(readers)[t]
    {
      readers := readers[ts := (if ts in readers then readers[ts] else 0) + 1];
    }

    /** Removing a reader that is not registered changes nothing. */
    method RemoveReader(ts: nat)
      requires Valid()
      modifies this
      ensures Valid()
      ensures forall t :: Count(readers, t) == Count(old(readers), t) - if t == ts && t in old(readers) then 1 else 0
      ensures readers.Keys == if ts in old(readers) && old(readers)[ts] == 1 then old(readers).Keys - {ts} else old(readers).Keys
      ensures forall t :: t in readers ==> readers[t] == old(readers)[t] - if t == ts then 1 else 0
    {
      if ts in readers {
        if readers[ts] - 1 == 0 {
          readers := readers - {ts};
        } else {
          readers := readers[ts := readers[ts] - 1];
        }
      }
    }

    /** The least key of the ordered map. */
    method Watermark() returns (m: Option<nat>)
      requires Valid()
      ensures m == None <==> readers == map[]
      ensures m.Some? ==> Oldest(readers, m.value)
      ensures m.Some? ==> m.value in readers && forall ts :: ts in readers ==> m.value <= ts
    {
      if readers == map[] {
        return None;
      }
      var first :| first in readers;
      var least := first;
      var todo := readers.Keys;
      while todo != {}
        invariant least in readers && todo <= readers.Keys
        invariant forall ts :: ts in readers && ts !in todo ==> least <= ts
        decreases todo
      {
        var ts :| ts in todo;
        if ts < least {
          least := ts;
        }
        todo := todo - {ts};
      }
      m := Some(least);
    }
  }

  /** Somebody committed after `readTs` and wrote what this reader read. */
  ghost predicate Conflict(committed: Committed, readTs: nat, readSet: set<Hash>) {
    exists ts :: ts in committed && ts > readTs && committed[ts] * readSet != {}
  }

  lemma ConflictMeans(committed: Committed, readTs: nat, readSet: set<Hash>)
    ensures Conflict(committed, readTs, readSet)
        <==> exists ts, h :: ts in committed && ts > readTs && h in committed[ts] && h in readSet
  {
    if Conflict(committed, readTs, readSet) {
      var ts :| ts in committed && ts > readTs && committed[ts] * readSet != {};
      var h :| h in committed[ts] * readSet;
    }
    if ts, h :| ts in committed && ts > readTs && h in committed[ts] && h in readSet {
      assert h in committed[ts] * readSet;
    }
  }

  function Below(committed: Committed, w: nat): Committed {
    map ts | ts in committed && ts >= w :: committed[ts]
  }

  /** txn_manager_t.  `history` is every write set ever committed; `floor` is the highest
   *  watermark that was ever used for pruning. */
  class TxnManager {
    var currentTs: nat
    const watermark: WaterMark
    var committed: Committed
    ghost var history: Committed
    ghost var floor: nat

    ghost predicate Valid()
      reads this, watermark
    {
      && watermark.Valid()
      && floor <= currentTs
      && (forall ts :: ts in watermark.readers ==> floor <= ts <= currentTs)
      && (forall ts :: ts in committed ==> ts in history && committed[ts] == history[ts])
      && (forall ts :: ts in history ==> ts <= currentTs && (ts in committed || ts < floor))
    }

    /** The timestamp below which everything is settled. */
    ghost predicate IsWatermark(w: nat)
      reads this, watermark
    {
      if watermark.readers == map[] then w == currentTs else Oldest(watermark.readers, w)
    }

    constructor (initialTs: nat)
      ensures Valid() && currentTs == initialTs && history == map[] && floor == 0
      ensures watermark.readers == map[] && fresh(watermark)
    {
      currentTs := initialTs;
      watermark := new WaterMark();
      committed, history, floor := map[], map[], 0;
    }

    /** begin_txn: read the last commit time and register at it. */
    method Begin() returns (readTs: nat)
      requires Valid()
      modifies watermark
      ensures Valid() && readTs == currentTs
      ensures forall t :: Count(watermark.readers, t) == Count(old(watermark.readers), t) + if t == readTs then 1 else 0
      ensures watermark.readers.Keys == old(watermark.readers).Keys + {readTs}
    {
      readTs := currentTs;
      watermark.AddReader(readTs);
    }

    method End(readTs: nat)
      requires Valid()
      modifies watermark
      ensures Valid()
      ensures forall t :: Count(watermark.readers, t) ==
                            Count(old(watermark.readers), t) - if t == readTs && t in old(watermark.readers) then 1 else 0
    {
      watermark.RemoveReader(readTs);
    }

    method GetWatermark() returns (w: nat)
      requires Valid()
      ensures IsWatermark(w)
      ensures floor <= w <= currentTs
      ensures forall ts :: ts in watermark.readers ==> w <= ts
    {
      var oldest := watermark.Watermark();
      w := if oldest.Some? then oldest.value else currentTs;
    }

    method AllocCommitTs() returns (ts: nat)
      requires Valid()
      modifies `currentTs
      ensures Valid() && ts == currentTs == old(currentTs) + 1
    {
      currentTs := currentTs + 1;
      ts := currentTs;
    }

    /** Inserting under a time that is taken would be ignored; commit times never repeat. */
    method AddCommittedTxn(commitTs: nat, hashes: set<Hash>)
      requires Valid() && commitTs <= currentTs && commitTs !in history
      modifies `committed, `history
      ensures Valid() && history == old(history)[commitTs := hashes]
    {
      if commitTs !in committed {
        committed := committed[commitTs := hashes];
      }
      history := history[commitTs := hashes];
    }

    /** The check looks only at what was not pruned, and answers as if nothing ever had
     *  been: no active transaction reads below the floor. */
    method CheckSerializableConflict(readTs: nat, readSet: set<Hash>) returns (conflict: bool)
      requires Valid() && readTs >= floor
      ensures conflict <==> Conflict(history, readTs, readSet)
      ensures conflict <==> exists ts, h :: ts in history && ts > readTs && h in history[ts] && h in readSet
    {
      conflict := false;
      var todo := committed.Keys;
      while todo != {}
        invariant todo <= committed.Keys
        invariant conflict ==> Conflict(history, readTs, readSet)
        invariant !conflict ==> forall ts :: ts in committed && ts !in todo && ts > readTs ==> committed[ts] * readSet == {}
        decreases todo
      {
        var ts :| ts in todo;
        if ts > readTs && committed[ts] * readSet != {} {
          assert ts in history && history[ts] * readSet != {};
          conflict := true;
        }
        todo := todo - {ts};
      }
      ConflictMeans(history, readTs, readSet);
      if !conflict {
        forall ts | ts in history && ts > readTs ensures history[ts] * readSet == {} {
          assert ts in committed;
        }
      }
    }

    /** Erase from the front of the ordered map what was committed below the watermark.
     *  The floor rises to that watermark and never falls. */
    method CleanupOldTxns()
      requires Valid()
      modifies `committed, `floor
      ensures Valid() && IsWatermark(floor) && floor >= old(floor)
      ensures committed == Below(old(committed), floor)
      ensures forall ts :: ts in committed <==> ts in old(committed) && ts >= floor
      ensures forall ts :: ts in committed ==> committed[ts] == old(committed)[ts]
    {
      var w := GetWatermark();
      var todo := committed.Keys;
      ghost var was := committed;
      while todo != {}
        invariant todo <= was.Keys
        invariant forall ts :: ts in committed <==> ts in was && (ts in todo || ts >= w)
        invariant forall ts :: ts in committed ==> committed[ts] == was[ts]
        decreases todo
      {
        var ts :| ts in todo;
        if ts < w {
          committed := committed - {ts};
        }
        todo := todo - {ts};
      }
      floor := w;
    }
  }

  datatype Outcome = Refused | Conflicting | Done

  /** txn_t: a transaction and its buffered writes to one vertex. */
  class Transaction {
    const manager: TxnManager
    const readTs: nat
    const serializable: bool
    var finished: bool
    var ops: seq<Op>
    var readSet: set<Hash>
    var writeSet: set<Hash>

    /** The reader of this transaction is registered. */
    ghost predicate Active()
      reads this, manager, manager.watermark
    {
      manager.Valid() && readTs in manager.watermark.readers
    }

    constructor (manager: TxnManager, serializable: bool)
      requires manager.Valid()
      modifies manager.watermark
      ensures Active() && this.manager == manager && this.serializable == serializable && readTs == manager.currentTs
      ensures !finished && ops == [] && readSet == {} && writeSet == {}
    {
      var ts := manager.Begin();
      this.manager, this.readTs, this.serializable := manager, ts, serializable;
      finished, ops, readSet, writeSet := false, [], {}, {};
    }

    /** Buffer a write; a finished transaction refuses it. */
    method Write(op: Op, hash: Hash) returns (ok: bool)
      modifies this
      ensures ok <==> !old(finished)
      ensures finished == old(finished) && readSet == old(readSet)
      ensures ops == if ok then old(ops) + [op] else old(ops)
      ensures writeSet == if ok && serializable then old(writeSet) + {hash} else old(writeSet)
    {
      ok := !finished;
      if ok {
        ops := ops + [op];
        if serializable {
          writeSet := writeSet + {hash};
        }
      }
    }

    /** Commit: a conflicting transaction takes no commit time and writes nothing; any
     *  other one gets the next time, the same for all its records, and its write set is
     *  on record for those that still run. */
    method Commit() returns (outcome: Outcome, stamped: seq<TRec>)
      requires Active()
      modifies this, manager
      ensures Active() && finished && readSet == old(readSet)
      ensures outcome == Refused <==> old(finished)
      ensures outcome == Conflicting <==>
        !old(finished) && ops != [] && serializable && old(writeSet) != {}
        && (exists ts, h :: ts in old(manager.history) && ts > readTs && h in old(manager.history)[ts] && h in readSet)
      ensures outcome == Done && ops != [] ==>
        && manager.currentTs == old(manager.currentTs) + 1
        && stamped == Stamp(ops, manager.currentTs) && |stamped| == |ops|
        && (forall i :: 0 <= i < |ops| ==> stamped[i] == TRec(ops[i].dst, ops[i].kind, manager.currentTs))
        && manager.history == if serializable then old(manager.history)[manager.currentTs := old(writeSet)]
                              else old(manager.history)
      ensures !(outcome == Done && ops != []) ==>
        stamped == [] && manager.currentTs == old(manager.currentTs) && manager.history == old(manager.history)
      ensures ops == old(ops) && manager.floor >= old(manager.floor)
    {
      stamped := [];
      if finished {
        return Refused, stamped;
      }
      finished := true;
      if ops == [] {
        return Done, stamped;
      }
      if serializable && writeSet != {} {
        var conflict := manager.CheckSerializableConflict(readTs, readSet);
        if conflict {
          return Conflicting, stamped;
        }
      }
      var commitTs := manager.AllocCommitTs();
      for i := 0 to |ops|
        invariant stamped == Stamp(ops[..i], commitTs)
      {
        assert ops[..i + 1][..i] == ops[..i];
        stamped := stamped + [TRec(ops[i].dst, ops[i].kind, commitTs)];
      }
      assert ops[..|ops|] == ops;
      if serializable {
        manager.AddCommittedTxn(commitTs, writeSet);
        manager.CleanupOldTxns();
      }
      outcome := Done;
    }

    /** Abort: an unfinished transaction drops its writes. */
    method Abort()
      modifies this
      ensures finished && (old(finished) ==> ops == old(ops)) && (!old(finished) ==> ops == [])
    {
      if !finished {
        finished, ops := true, [];
      }
    }
  }
}
