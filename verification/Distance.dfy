/** Distances in a directed graph: walks, and the layers of a breadth-first search. */
module Distance {
  import opened Graph

  ghost predicate Walk(adj: Adj, path: seq<nat>) {
    && path != []
    && forall i :: 0 < i < |path| ==> Follows(adj, path, i)
  }

  ghost predicate Follows(adj: Adj, path: seq<nat>, i: nat)
    requires 0 < i < |path|
  {
    Edge(adj, path[i - 1], path[i])
  }

  /** There is a walk of d edges from s to v. */
  ghost predicate WalkOf(adj: Adj, s: nat, v: nat, d: nat) {
    exists path :: Walk(adj, path) && |path| == d + 1 && path[0] == s && path[d] == v
  }

  /** d edges are needed, and enough, to get from s to v. */
  ghost predicate IsDistance(adj: Adj, s: nat, v: nat, d: nat) {
    WalkOf(adj, s, v, d) && forall k :: 0 <= k < d ==> !WalkOf(adj, s, v, k)
  }

  lemma DistanceUnique(adj: Adj, s: nat, v: nat, d: nat, e: nat)
    requires IsDistance(adj, s, v, d) && IsDistance(adj, s, v, e)
    ensures d == e
  {
  }

  function Range(n: nat): (numbers: set<nat>)
    ensures forall v: nat :: v in numbers <==> v < n
    ensures |numbers| == n
  {
    if n == 0 then {} else Range(n - 1) + {n - 1}
  }

  predicate HasPred(adj: Adj, from: set<nat>, v: nat) {
    exists a :: a in from && Edge(adj, a, v)
  }

  /** The vertices with an edge from a vertex of `from`. */
  function Successors(adj: Adj, from: set<nat>): (next: set<nat>)
    ensures forall v: nat :: v in next <==> v < |adj| && HasPred(adj, from, v)
  {
    set v | v in Range(|adj|) && HasPred(adj, from, v)
  }

  /** Vertices at most k edges away. */
  function Within(adj: Adj, s: nat, k: nat): set<nat> {
    if k == 0 then {s} else Within(adj, s, k - 1) + Successors(adj, Within(adj, s, k - 1))
  }

  /** Vertices exactly k edges away. */
  function Layer(adj: Adj, s: nat, k: nat): set<nat> {
    if k == 0 then {s} else Within(adj, s, k) - Within(adj, s, k - 1)
  }

  lemma {:induction false} WithinGrows(adj: Adj, s: nat, j: nat, k: nat)
    requires j <= k
    ensures Within(adj, s, j) <= Within(adj, s, k)
    decreases k - j
  {
    if j < k {
      WithinGrows(adj, s, j + 1, k);
    }
  }

  lemma {:induction false} WithinInside(adj: Adj, s: nat, k: nat)
    requires s < |adj|
    ensures Within(adj, s, k) <= Range(|adj|)
  {
    if k > 0 {
      WithinInside(adj, s, k - 1);
    }
  }

  /** A neighbour of a vertex within k steps is within k + 1. */
  lemma NextWithin(adj: Adj, s: nat, k: nat, a: nat, v: nat)
    requires Edge(adj, a, v) && v < |adj|
    ensures a in Within(adj, s, k) ==> v in Within(adj, s, k + 1)
  {
    assert a in Within(adj, s, k) ==> HasPred(adj, Within(adj, s, k), v);
  }

  /** The next layer is found from the last one alone. */
  lemma NextLayer(adj: Adj, s: nat, k: nat)
    ensures Layer(adj, s, k + 1) == Successors(adj, Layer(adj, s, k)) - Within(adj, s, k)
  {
    hide Successors;
    forall v: nat ensures v in Layer(adj, s, k + 1) <==> v in Successors(adj, Layer(adj, s, k)) - Within(adj, s, k) {
      if v in Successors(adj, Within(adj, s, k)) && v !in Within(adj, s, k) {
        var a :| a in Within(adj, s, k) && Edge(adj, a, v);
        if k > 0 {
          NextWithin(adj, s, k - 1, a, v);
        }
        assert HasPred(adj, Layer(adj, s, k), v);
      }
      if v in Successors(adj, Layer(adj, s, k)) {
        var a :| a in Layer(adj, s, k) && Edge(adj, a, v);
        NextWithin(adj, s, k, a, v);
      }
    }
  }

  lemma {:induction false} WithinWalks(adj: Adj, s: nat, k: nat, v: nat)
    requires v in Within(adj, s, k)
    ensures exists d :: 0 <= d <= k && WalkOf(adj, s, v, d)
  {
    if v == s {
      assert Walk(adj, [s]);
      assert WalkOf(adj, s, v, 0);
    } else if v in Within(adj, s, k - 1) {
      WithinWalks(adj, s, k - 1, v);
    } else {
      assert HasPred(adj, Within(adj, s, k - 1), v);
      var a :| a in Within(adj, s, k - 1) && Edge(adj, a, v);
      WithinWalks(adj, s, k - 1, a);
      var d :| 0 <= d <= k - 1 && WalkOf(adj, s, a, d);
      WalkOn(adj, s, a, v, d);
    }
  }

  lemma WalkOn(adj: Adj, s: nat, a: nat, v: nat, d: nat)
    requires WalkOf(adj, s, a, d) && Edge(adj, a, v)
    ensures WalkOf(adj, s, v, d + 1)
  {
    var path :| Walk(adj, path) && |path| == d + 1 && path[0] == s && path[d] == a;
    var longer := path + [v];
    forall i | 0 < i < |longer| ensures Follows(adj, longer, i) {
      if i < |path| {
        assert Follows(adj, path, i);
      }
    }
    assert Walk(adj, longer);
  }

  lemma {:induction false} WalksWithin(adj: Adj, s: nat, v: nat, d: nat)
    requires WellFormed(adj) && WalkOf(adj, s, v, d)
    ensures v in Within(adj, s, d)
    decreases d
  {
    var path :| Walk(adj, path) && |path| == d + 1 && path[0] == s && path[d] == v;
    if d > 0 {
      var front := path[..d];
      forall i | 0 < i < |front| ensures Follows(adj, front, i) {
        assert Follows(adj, path, i);
      }
      assert Walk(adj, front);
      assert WalkOf(adj, s, path[d - 1], d - 1);
      WalksWithin(adj, s, path[d - 1], d - 1);
      assert Follows(adj, path, d);
      EdgeInside(adj, path[d - 1], v);
      NextWithin(adj, s, d - 1, path[d - 1], v);
    }
  }

  /** The layers are the distances. */
  lemma LayerHasDistance(adj: Adj, s: nat, v: nat, k: nat)
    requires WellFormed(adj) && v in Layer(adj, s, k)
    ensures IsDistance(adj, s, v, k)
  {
    hide WalkOf, Successors;
    WithinWalks(adj, s, k, v);
    var d :| 0 <= d <= k && WalkOf(adj, s, v, d);
    forall j | 0 <= j < k ensures !WalkOf(adj, s, v, j) {
      if WalkOf(adj, s, v, j) {
        WalksWithin(adj, s, v, j);
        WithinGrows(adj, s, j, k - 1);
      }
    }
  }

  /** The layers are the distances. */
  lemma LayerIsDistance(adj: Adj, s: nat, v: nat, k: nat)
    requires WellFormed(adj)
    ensures v in Layer(adj, s, k) <==> IsDistance(adj, s, v, k)
  {
    if v in Layer(adj, s, k) {
      LayerHasDistance(adj, s, v, k);
    }
    if IsDistance(adj, s, v, k) {
      WalksWithin(adj, s, v, k);
      var d := SomeLayer(adj, s, k, v);
      LayerHasDistance(adj, s, v, d);
      DistanceUnique(adj, s, v, d, k);
    }
  }

  /** Once a layer is empty, everything reachable has been seen. */
  lemma EmptyLayer(adj: Adj, s: nat, k: nat)
    requires Layer(adj, s, k + 1) == {}
    ensures Within(adj, s, k + 1) == Within(adj, s, k)
  {
    hide Successors;
    WithinGrows(adj, s, k, k + 1);
    forall v: nat | v in Within(adj, s, k + 1) ensures v in Within(adj, s, k) {
      assert v !in Layer(adj, s, k + 1);
    }
  }

  lemma {:induction false} ClosedAt(adj: Adj, s: nat, k: nat, j: nat)
    requires Layer(adj, s, k + 1) == {} && j >= k
    ensures Within(adj, s, j) == Within(adj, s, k)
  {
    hide Successors, Layer;
    if j > k {
      ClosedAt(adj, s, k, j - 1);
      EmptyLayer(adj, s, k);
    }
  }

  /** Every vertex of a layered set lies in exactly one layer. */
  lemma {:induction false} SomeLayer(adj: Adj, s: nat, k: nat, v: nat) returns (d: nat)
    requires v in Within(adj, s, k)
    ensures d <= k && v in Layer(adj, s, d)
  {
    if k == 0 {
      d := 0;
    } else if v in Within(adj, s, k - 1) {
      d := SomeLayer(adj, s, k - 1, v);
    } else {
      d := k;
    }
  }

  lemma LaterLayer(adj: Adj, s: nat, v: nat, d: nat, e: nat)
    requires v in Layer(adj, s, d) && d < e
    ensures v in Within(adj, s, e - 1) && v !in Layer(adj, s, e)
  {
    assert v in Within(adj, s, d);
    WithinGrows(adj, s, d, e - 1);
  }

  lemma WithinStep(adj: Adj, s: nat, k: nat)
    ensures Within(adj, s, k + 1) == Within(adj, s, k) + Layer(adj, s, k + 1)
    ensures Within(adj, s, 0) == Layer(adj, s, 0) == {s}
  {
    WithinGrows(adj, s, k, k + 1);
  }
}
