/** Meaning of a delta log.
 *
 * An edge list of one vertex is a set of destinations.  A log is kept oldest
 * first; the reader walks it newest first (src/db.cc) while consolidation
 * replays it oldest first (src/smo.cc).  `Newest` is the bridge between both.
 */
module Replay {

  type Vid = nat

  datatype Kind = Insert | Delete

  datatype Op = Op(dst: Vid, kind: Kind)

  datatype Option<+T> = None | Some(value: T)

  /** The edge set of a stored list. */
  function Elems(list: seq<Vid>): set<Vid> {
    set e | e in list
  }

  /** The edge set after one record. */
  function Apply(edges: set<Vid>, op: Op): set<Vid> {
    if op.kind == Insert then edges + {op.dst} else edges - {op.dst}
  }

  /** The edge set after a whole log, oldest record first. */
  function Run(edges: set<Vid>, ops: seq<Op>): set<Vid> {
    if ops == [] then edges else Apply(Run(edges, ops[..|ops| - 1]), ops[|ops| - 1])
  }

  /** The kind of the newest record about `e`, if there is one. */
  function Newest(ops: seq<Op>, e: Vid): Option<Kind> {
    if ops == [] then None
    else if ops[|ops| - 1].dst == e then Some(ops[|ops| - 1].kind)
    else Newest(ops[..|ops| - 1], e)
  }

  /** What a reader that consults the newest record first sees of `e`. */
  predicate Visible(edges: set<Vid>, ops: seq<Op>, e: Vid) {
    match Newest(ops, e)
    case None => e in edges
    case Some(k) => k == Insert
  }

  lemma {:induction false} RunIsVisible(edges: set<Vid>, ops: seq<Op>, e: Vid)
    ensures e in Run(edges, ops) <==> Visible(edges, ops, e)
  {
    if ops != [] {
      RunIsVisible(edges, ops[..|ops| - 1], e);
    }
  }

  /** An edge is there if the last record about it is an insertion, or if there is no record
   *  about it and it was there before. */
  lemma {:induction false} RunMeans(edges: set<Vid>, ops: seq<Op>, e: Vid)
    ensures (forall j: nat :: j < |ops| ==> ops[j].dst != e) ==> (e in Run(edges, ops) <==> e in edges)
    ensures forall i: nat :: i < |ops| && ops[i].dst == e && (forall j: nat :: i < j < |ops| ==> ops[j].dst != e) ==>
      (e in Run(edges, ops) <==> ops[i].kind == Insert)
  {
    if ops != [] {
      var front, last := ops[..|ops| - 1], ops[|ops| - 1];
      assert ops == front + [last];
      RunMeans(edges, front, e);
      forall i: nat | i < |ops| && ops[i].dst == e && (forall j: nat :: i < j < |ops| ==> ops[j].dst != e)
        ensures e in Run(edges, ops) <==> ops[i].kind == Insert
      {
        if i < |front| {
          assert front[i] == ops[i] && ops[|front|].dst != e;
          assert forall j: nat :: i < j < |front| ==> front[j] == ops[j];
        }
      }
    }
  }

  lemma {:induction false} NewestConcat(a: seq<Op>, b: seq<Op>, e: Vid)
    ensures Newest(a + b, e) == if Newest(b, e) == None then Newest(a, e) else Newest(b, e)
    decreases |b|
  {
    if b == [] {
      assert a + b == a;
    } else {
      assert (a + b)[..|a + b| - 1] == a + b[..|b| - 1];
      NewestConcat(a, b[..|b| - 1], e);
    }
  }

  lemma {:induction false} RunConcat(edges: set<Vid>, a: seq<Op>, b: seq<Op>)
    ensures Run(edges, a + b) == Run(Run(edges, a), b)
    decreases |b|
  {
    if b == [] {
      assert a + b == a;
    } else {
      assert (a + b)[..|a + b| - 1] == a + b[..|b| - 1];
      RunConcat(edges, a, b[..|b| - 1]);
    }
  }

  /** Replaying a log over a base that already contains it changes nothing:
   *  a re-inserted stray, or a giant list written before the chain is cut,
   *  leaves every read as it was. */
  lemma ReplayAbsorbs(edges: set<Vid>, done: seq<Op>, more: seq<Op>)
    ensures Run(Run(edges, done), done + more) == Run(edges, done + more)
  {
    forall e
      ensures e in Run(Run(edges, done), done + more) <==> e in Run(edges, done + more)
    {
      RunIsVisible(Run(edges, done), done + more, e);
      RunIsVisible(edges, done + more, e);
      RunIsVisible(edges, done, e);
      NewestConcat(done, more, e);
    }
  }

  /** One more record moves exactly its own edge. */
  lemma VisibleSnoc(edges: set<Vid>, ops: seq<Op>, op: Op, e: Vid)
    ensures Visible(edges, ops + [op], e)
        <==> if e == op.dst then op.kind == Insert else Visible(edges, ops, e)
    ensures Newest(ops + [op], e) == if e == op.dst then Some(op.kind) else Newest(ops, e)
  {
    assert (ops + [op])[..|ops + [op]| - 1] == ops;
  }

  lemma RunSnoc(edges: set<Vid>, ops: seq<Op>, op: Op)
    ensures Run(edges, ops + [op]) == Apply(Run(edges, ops), op)
  {
    assert (ops + [op])[..|ops + [op]| - 1] == ops;
  }
}
