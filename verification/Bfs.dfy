/** Breadth-first search by frontier (parallel_bfs_map) and by queue (bfs)
 * (src/db_algorithm.cc, include/bw_graph/algo/edge_map.h). */
module Bfs {
  import opened Graph
  import opened Distance

  /** Vertex ids are 32 bits wide; the largest marks a vertex nobody claimed. */
  const INVALID_VID := 0xFFFF_FFFF

  function Claimed(parent: seq<nat>): (claimed: set<nat>)
    ensures forall v: nat :: v in claimed <==> v < |parent| && parent[v] != INVALID_VID
  {
    set v | v in Range(|parent|) && parent[v] != INVALID_VID
  }

  predicate Distinct(list: seq<nat>) {
    forall i, j :: 0 <= i < j < |list| ==> list[i] != list[j]
  }

  function Members(list: seq<nat>): (members: set<nat>)
    ensures forall v :: v in members <==> v in list
  {
    set v | v in list
  }

  // ---------------------------------------------------------------------------
  // One edge map

  /** What a round of claims does: `next` lists, once each, the vertices claimed in it,
   *  each by a frontier vertex that has an edge to it; no other parent changes. */
  ghost predicate Claims(adj: Adj, frontier: set<nat>, before: seq<nat>, after: seq<nat>, next: seq<nat>) {
    && |after| == |before| == |adj|
    && Distinct(next)
    && (forall v :: v in next ==> v < |adj| && before[v] == INVALID_VID && after[v] in frontier && Edge(adj, after[v], v))
    && (forall v :: 0 <= v < |adj| && v !in next ==> after[v] == before[v])
  }

  /** Nothing left to claim among the edges from `from` to `to`. */
  ghost predicate AllClaimed(adj: Adj, parent: seq<nat>, u: nat, to: set<nat>) {
    forall v: nat :: v in to && v < |parent| && Edge(adj, u, v) ==> parent[v] != INVALID_VID
  }

  lemma ClaimOne(adj: Adj, frontier: set<nat>, before: seq<nat>, after: seq<nat>, next: seq<nat>, u: nat, v: nat)
    requires Claims(adj, frontier, before, after, next) && u in frontier && Edge(adj, u, v) && v < |adj|
    requires after[v] == INVALID_VID && u != INVALID_VID
    requires INVALID_VID !in frontier
    ensures Claims(adj, frontier, before, after[v := u], next + [v])
  {
    assert v !in next;
  }

  /** Sparse: every edge out of the frontier, claiming what is free. */
  method EdgeMapSparse(adj: Adj, parent: array<nat>, frontier: seq<nat>) returns (next: seq<nat>)
    requires WellFormed(adj) && parent.Length == |adj| <= INVALID_VID
    requires forall u :: u in frontier ==> u < |adj|
    modifies parent
    ensures Claims(adj, Members(frontier), old(parent[..]), parent[..], next)
    ensures forall u :: u in frontier ==> AllClaimed(adj, parent[..], u, Range(|adj|))
  {
    next := [];
    ghost var was, from := parent[..], Members(frontier);
    for i := 0 to |frontier|
      invariant Claims(adj, from, was, parent[..], next)
      invariant forall k :: 0 <= k < i ==> AllClaimed(adj, parent[..], frontier[k], Range(|adj|))
    {
      var src := frontier[i];
      assert src in frontier;
      for j := 0 to |adj[src]|
        invariant Claims(adj, from, was, parent[..], next)
        invariant forall k :: 0 <= k < i ==> AllClaimed(adj, parent[..], frontier[k], Range(|adj|))
        invariant forall k :: 0 <= k < j ==> parent[adj[src][k]] != INVALID_VID
      {
        var dst := adj[src][j];
        assert Edge(adj, src, dst);
        if parent[dst] == INVALID_VID {
          ghost var now := parent[..];
          ClaimOne(adj, from, was, now, next, src, dst);
          parent[dst] := src;
          next := next + [dst];
          assert parent[..] == now[dst := src];
        }
      }
      assert AllClaimed(adj, parent[..], src, Range(|adj|));
    }
  }

  /** Dense: every unclaimed vertex looks for a neighbour in the frontier and stops at
   *  the first.  The lists of neighbours stand in for those of predecessors. */
  method EdgeMapDense(adj: Adj, parent: array<nat>, frontier: seq<nat>, order: seq<nat>) returns (next: seq<nat>)
    requires WellFormed(adj) && Symmetric(adj) && parent.Length == |adj| <= INVALID_VID
    requires forall u :: u in frontier ==> u < |adj|
    requires forall v: nat :: v in order <==> v < |adj|
    modifies parent
    ensures Claims(adj, Members(frontier), old(parent[..]), parent[..], next)
    ensures forall u :: u in frontier ==> AllClaimed(adj, parent[..], u, Range(|adj|))
  {
    next := [];
    ghost var was, from := parent[..], Members(frontier);
    for i := 0 to |order|
      invariant Claims(adj, from, was, parent[..], next)
      invariant forall u :: u in frontier ==> AllClaimed(adj, parent[..], u, Members(order[..i]))
    {
      var dst := order[i];
      assert dst in order;
      assert order[..i + 1] == order[..i] + [order[i]];
      if parent[dst] == INVALID_VID {
        ghost var now := parent[..];
        var j := 0;
        while j < |adj[dst]| && parent[dst] == INVALID_VID
          invariant 0 <= j <= |adj[dst]|
          invariant parent[dst] == INVALID_VID ==> parent[..] == now && forall k :: 0 <= k < j ==> adj[dst][k] !in frontier
          invariant parent[dst] != INVALID_VID ==> Claims(adj, from, was, parent[..], next + [dst])
          invariant forall v :: 0 <= v < |adj| && v != dst ==> parent[v] == now[v]
        {
          var src := adj[dst][j];
          if src in frontier {
            assert Edge(adj, dst, src);
            ClaimOne(adj, from, was, now, next, src, dst);
            parent[dst] := src;
            assert parent[..] == now[dst := src];
          }
          j := j + 1;
        }
        if parent[dst] != INVALID_VID {
          next := next + [dst];
        } else {
          assert forall u :: u in frontier ==> !Edge(adj, u, dst);
        }
      }
    }
    assert order[..|order|] == order;
    assert Members(order) == Range(|adj|);
  }

  /** Both modes, by the size of the frontier. */
  method EdgeMap(adj: Adj, parent: array<nat>, frontier: seq<nat>, order: seq<nat>, totalEdges: nat, divisor: nat)
    returns (next: seq<nat>)
    requires WellFormed(adj) && Symmetric(adj) && parent.Length == |adj| <= INVALID_VID && divisor > 0
    requires forall u :: u in frontier ==> u < |adj|
    requires forall v: nat :: v in order <==> v < |adj|
    modifies parent
    ensures Claims(adj, Members(frontier), old(parent[..]), parent[..], next)
    ensures forall u :: u in frontier ==> AllClaimed(adj, parent[..], u, Range(|adj|))
  {
    var threshold := if totalEdges > 0 then totalEdges / divisor else |adj| / divisor;
    if |frontier| > threshold {
      next := EdgeMapDense(adj, parent, frontier, order);
    } else {
      next := EdgeMapSparse(adj, parent, frontier);
    }
  }

  // ---------------------------------------------------------------------------
  // The search by frontiers

  /** Vertices of layer d have their parent in layer d - 1. */
  ghost predicate TreeOk(adj: Adj, s: nat, parent: seq<nat>, k: nat)
    requires |parent| == |adj|
  {
    && s < |parent| && parent[s] == s
    && forall d: nat, v: nat :: 1 <= d <= k && v in Layer(adj, s, d) ==> ParentOk(adj, s, parent, d, v)
  }

  ghost predicate ParentOk(adj: Adj, s: nat, parent: seq<nat>, d: nat, v: nat) {
    d > 0 && v < |parent| && parent[v] in Layer(adj, s, d - 1) && Edge(adj, parent[v], v)
  }

  /** After k rounds: claimed is what lies within distance k, the frontier is what lies
   *  at distance k. */
  ghost predicate AtLayer(adj: Adj, s: nat, parent: seq<nat>, frontier: seq<nat>, k: nat) {
    && |parent| == |adj| && TreeOk(adj, s, parent, k)
    && Claimed(parent) == Within(adj, s, k)
    && Members(frontier) == Layer(adj, s, k)
  }

  lemma NextFrontier(adj: Adj, s: nat, before: seq<nat>, frontier: seq<nat>, after: seq<nat>, next: seq<nat>, k: nat)
    requires AtLayer(adj, s, before, frontier, k) && Claims(adj, Members(frontier), before, after, next)
    requires forall u :: u in frontier ==> AllClaimed(adj, after, u, Range(|adj|))
    ensures Members(next) == Layer(adj, s, k + 1)
  {
    hide Successors, Layer, Within, TreeOk;
    NextLayer(adj, s, k);
    forall v: nat ensures v in next <==> v in Layer(adj, s, k + 1) {
      if v in next {
        assert HasPred(adj, Layer(adj, s, k), v);
      }
      if v in Layer(adj, s, k + 1) {
        var u :| u in Layer(adj, s, k) && Edge(adj, u, v);
        assert u in Members(frontier);
        assert AllClaimed(adj, after, u, Range(|adj|));
      }
    }
  }

  lemma NextTree(adj: Adj, s: nat, before: seq<nat>, frontier: seq<nat>, after: seq<nat>, next: seq<nat>, k: nat)
    requires AtLayer(adj, s, before, frontier, k) && Claims(adj, Members(frontier), before, after, next)
    requires Members(next) == Layer(adj, s, k + 1)
    ensures TreeOk(adj, s, after, k + 1)
  {
    hide Successors, Layer, Within;
    WithinStep(adj, s, k);
    forall d: nat, v: nat | 1 <= d <= k + 1 && v in Layer(adj, s, d) ensures ParentOk(adj, s, after, d, v) {
      if d <= k {
        assert ParentOk(adj, s, before, d, v);
        LaterLayer(adj, s, v, d, k + 1);
        assert v !in Members(next);
      } else {
        assert v in Members(next);
      }
    }
    LaterLayer(adj, s, s, 0, k + 1);
    assert s !in Members(next);
  }

  lemma NextRound(adj: Adj, s: nat, before: seq<nat>, frontier: seq<nat>, after: seq<nat>, next: seq<nat>, k: nat)
    requires |adj| <= INVALID_VID
    requires AtLayer(adj, s, before, frontier, k) && Claims(adj, Members(frontier), before, after, next)
    requires forall u :: u in frontier ==> AllClaimed(adj, after, u, Range(|adj|)) && u < |adj|
    ensures AtLayer(adj, s, after, next, k + 1)
    ensures Claimed(before) <= Claimed(after) <= Range(|adj|)
    ensures next != [] ==> Claimed(before) < Claimed(after)
  {
    hide Successors, TreeOk, Layer, Within, AllClaimed;
    NextFrontier(adj, s, before, frontier, after, next, k);
    NextTree(adj, s, before, frontier, after, next, k);
    assert Claimed(after) == Claimed(before) + Members(next);
    WithinStep(adj, s, k);
    if next != [] {
      assert next[0] in next;
      assert next[0] in Claimed(after) && next[0] !in Claimed(before);
    }
  }

  /** Rounds until a frontier is empty. */
  method ClaimAll(adj: Adj, parent: array<nat>, s: nat, order: seq<nat>, totalEdges: nat, divisor: nat)
    returns (ghost last: nat)
    requires WellFormed(adj) && Symmetric(adj) && parent.Length == |adj| <= INVALID_VID && divisor > 0 && s < |adj|
    requires forall v: nat :: v in order <==> v < |adj|
    requires AtLayer(adj, s, parent[..], [s], 0)
    modifies parent
    ensures AtLayer(adj, s, parent[..], [], last + 1)
  {
    hide AtLayer, Claims, AllClaimed;
    var frontier: seq<nat> := [s];
    last := 0;
    while frontier != []
      invariant AtLayer(adj, s, parent[..], frontier, last)
      invariant forall u :: u in frontier ==> u < |adj|
      invariant frontier == [] ==> last > 0
      decreases Range(|adj|) - Claimed(parent[..]), |frontier|
    {
      ghost var before := parent[..];
      var next := EdgeMap(adj, parent, frontier, order, totalEdges, divisor);
      NextRound(adj, s, before, frontier, parent[..], next, last);
      FrontierInside(adj, Members(frontier), before, parent[..], next);
      frontier := next;
      last := last + 1;
    }
    last := last - 1;
  }

  lemma FrontierInside(adj: Adj, frontier: set<nat>, before: seq<nat>, after: seq<nat>, next: seq<nat>)
    requires Claims(adj, frontier, before, after, next)
    ensures forall v :: v in next ==> v < |adj|
    ensures next == [] ==> after == before
  {
  }

  /** Steps from v up to the start. */
  method WalkUp(adj: Adj, parent: array<nat>, s: nat, v: nat, ghost k: nat, ghost d: nat) returns (dist: nat)
    requires parent.Length == |adj| && TreeOk(adj, s, parent[..], k) && d <= k && v in Layer(adj, s, d) && v < |adj|
    ensures dist == d
  {
    hide Successors, Layer;
    dist := 0;
    var curr := v;
    assert d == 0 ==> v == s by {
      StartLayer(adj, s);
    }
    while parent[curr] != curr
      invariant dist <= d && curr < |adj| && curr in Layer(adj, s, d - dist)
      decreases d - dist
    {
      TopIsStart(adj, s, parent[..], curr, k, d - dist);
      assert ParentOk(adj, s, parent[..], d - dist, curr);
      LayerInside(adj, s, parent[curr], d - dist - 1);
      dist := dist + 1;
      curr := parent[curr];
    }
    TopIsStart(adj, s, parent[..], curr, k, d - dist);
  }

  lemma StartLayer(adj: Adj, s: nat)
    ensures Layer(adj, s, 0) == {s}
  {
  }

  lemma {:induction false} LayerInside(adj: Adj, s: nat, v: nat, d: nat)
    requires v in Layer(adj, s, d) && s < |adj|
    ensures v < |adj|
  {
    WithinInside(adj, s, d);
    assert v in Within(adj, s, d);
  }

  /** Only the start is its own parent. */
  lemma TopIsStart(adj: Adj, s: nat, parent: seq<nat>, v: nat, k: nat, d: nat)
    requires |parent| == |adj| && TreeOk(adj, s, parent, k) && d <= k && v in Layer(adj, s, d) && v < |parent|
    ensures parent[v] == v <==> d == 0
  {
    hide Successors, Layer, Within;
    WithinStep(adj, s, 0);
    if d > 0 {
      assert ParentOk(adj, s, parent, d, v);
      LaterLayer(adj, s, parent[v], d - 1, d);
    }
  }


  /** Nothing further away was left out. */
  lemma FarIsClaimed(adj: Adj, s: nat, parent: seq<nat>, k: nat, v: nat, d: nat)
    requires AtLayer(adj, s, parent, [], k + 1) && v in Layer(adj, s, d)
    ensures v in Claimed(parent) && v in Within(adj, s, k + 1)
  {
    assert v in Within(adj, s, d);
    hide Successors, Layer, Within, TreeOk;
    if d <= k + 1 {
      WithinGrows(adj, s, d, k + 1);
    } else {
      ClosedAt(adj, s, k, d);
      WithinGrows(adj, s, k, k + 1);
    }
  }

  /** The pairs of a vertex and its distance, each vertex once. */
  ghost predicate AreDistances(adj: Adj, s: nat, results: seq<(nat, nat)>) {
    && (forall i, j :: 0 <= i < j < |results| ==> results[i].0 != results[j].0)
    && (forall v: nat, d: nat :: (v, d) in results <==> v < |adj| && IsDistance(adj, s, v, d))
  }

  lemma StartAtLayer(adj: Adj, s: nat, parent: seq<nat>)
    requires s < |adj| == |parent| && |adj| <= INVALID_VID
    requires forall v :: 0 <= v < |adj| ==> parent[v] == if v == s then s else INVALID_VID
    ensures AtLayer(adj, s, parent, [s], 0)
  {
  }

  /** The claimed vertices below v with their layers. */
  ghost predicate LayersBelow(adj: Adj, s: nat, claimed: set<nat>, results: seq<(nat, nat)>, v: nat) {
    && (forall i :: 0 <= i < |results| ==> results[i].0 < v && results[i].0 in Layer(adj, s, results[i].1))
    && (forall i, j :: 0 <= i < j < |results| ==> results[i].0 != results[j].0)
    && (forall u: nat :: u < v && u in claimed ==> exists d :: (u, d) in results)
  }

  lemma LayersBelowNext(adj: Adj, s: nat, claimed: set<nat>, results: seq<(nat, nat)>, v: nat, d: nat)
    requires LayersBelow(adj, s, claimed, results, v) && v in Layer(adj, s, d)
    ensures LayersBelow(adj, s, claimed, results + [(v, d)], v + 1)
  {
    hide Layer;
    var results' := results + [(v, d)];
    assert results'[|results|] == (v, d);
    forall u: nat | u < v + 1 && u in claimed ensures exists e :: (u, e) in results' {
      if u < v {
        var e :| (u, e) in results;
        assert (u, e) in results';
      }
    }
  }

  /** The distances are known from the tree. */
  method ReadDistances(adj: Adj, parent: array<nat>, s: nat, ghost k: nat) returns (results: seq<(nat, nat)>)
    requires WellFormed(adj) && parent.Length == |adj| && AtLayer(adj, s, parent[..], [], k + 1)
    ensures LayersBelow(adj, s, Claimed(parent[..]), results, |adj|)
  {
    hide Layer, Within, TreeOk, LayersBelow;
    results := [];
    StartBelow(adj, s, Claimed(parent[..]));
    for v := 0 to parent.Length
      invariant LayersBelow(adj, s, Claimed(parent[..]), results, v)
    {
      if parent[v] != INVALID_VID {
        ghost var d := SomeLayer(adj, s, k + 1, v);
        var dist := WalkUp(adj, parent, s, v, k + 1, d);
        LayersBelowNext(adj, s, Claimed(parent[..]), results, v, dist);
        results := results + [(v, dist)];
      } else {
        SkipUnclaimed(adj, s, Claimed(parent[..]), results, v);
      }
    }
  }

  lemma StartBelow(adj: Adj, s: nat, claimed: set<nat>)
    ensures LayersBelow(adj, s, claimed, [], 0)
  {
  }

  lemma SkipUnclaimed(adj: Adj, s: nat, claimed: set<nat>, results: seq<(nat, nat)>, v: nat)
    requires LayersBelow(adj, s, claimed, results, v) && v !in claimed
    ensures LayersBelow(adj, s, claimed, results, v + 1)
  {
    hide Layer;
  }

  lemma LayersAreDistances(adj: Adj, s: nat, parent: seq<nat>, k: nat, results: seq<(nat, nat)>)
    requires WellFormed(adj) && AtLayer(adj, s, parent, [], k + 1)
    requires LayersBelow(adj, s, Claimed(parent), results, |adj|)
    ensures AreDistances(adj, s, results)
  {
    hide IsDistance, Layer, Within, TreeOk;
    forall v: nat, d: nat ensures (v, d) in results <==> v < |adj| && IsDistance(adj, s, v, d) {
      LayerIsDistance(adj, s, v, d);
      if v < |adj| && v in Layer(adj, s, d) {
        FarIsClaimed(adj, s, parent, k, v, d);
        var e :| (v, e) in results;
        LayerIsDistance(adj, s, v, e);
        DistanceUnique(adj, s, v, d, e);
      }
    }
  }

  /** parallel_bfs_map: the vertices that can be reached, with their distances. */
  method ParallelBfs(adj: Adj, start: nat, order: seq<nat>, totalEdges: nat, divisor: nat)
    returns (results: seq<(nat, nat)>)
    requires WellFormed(adj) && Symmetric(adj) && |adj| <= INVALID_VID && divisor > 0
    requires forall v: nat :: v in order <==> v < |adj|
    ensures start < |adj| ==> AreDistances(adj, start, results)
    ensures start >= |adj| ==> results == []
  {
    hide AtLayer, LayersBelow;
    if |adj| == 0 || start >= |adj| {
      return [];
    }
    var parent := new nat[|adj|](i => INVALID_VID);
    parent[start] := start;
    StartAtLayer(adj, start, parent[..]);
    ghost var k := ClaimAll(adj, parent, start, order, totalEdges, divisor);
    results := ReadDistances(adj, parent, start, k);
    LayersAreDistances(adj, start, parent[..], k, results);
  }

  // ---------------------------------------------------------------------------
  // The search by queue

  /** Level k is being worked off: `done` of its vertices are, `rest` is at the front of
   *  the queue, `more` is what of level k + 1 has been found. */
  ghost predicate QueueOk(adj: Adj, s: nat, k: nat, done: set<nat>, rest: seq<nat>, more: seq<nat>) {
    && Distinct(rest) && Distinct(more)
    && done !! Members(rest) && done + Members(rest) == Layer(adj, s, k)
    && Members(more) == Successors(adj, done) - Within(adj, s, k)
  }

  /** visited and levels are as far as the queue says. */
  ghost predicate MarksOk(adj: Adj, s: nat, k: nat, more: seq<nat>, visited: seq<bool>, levels: seq<nat>) {
    && |visited| == |levels| == |adj|
    && (forall v: nat :: v < |adj| ==> (visited[v] <==> v in Within(adj, s, k) || v in more))
    && (forall v: nat :: v < |adj| && v in Layer(adj, s, k) ==> levels[v] == k)
    && (forall v :: v in more ==> v < |adj| && levels[v] == k + 1)
  }

  /** The results so far: all lower levels, and what is done of this one. */
  ghost predicate VisitedOk(adj: Adj, s: nat, k: nat, done: set<nat>, results: seq<(nat, nat)>) {
    && (forall i, j :: 0 <= i < j < |results| ==> results[i].0 != results[j].0)
    && (forall v: nat, d: nat :: (v, d) in results <==>
          (d < k && v in Layer(adj, s, d)) || (d == k && v in done))
  }

  /** A level is worked off: the next one has been found. */
  lemma NextLevel(adj: Adj, s: nat, k: nat, done: set<nat>, more: seq<nat>, visited: seq<bool>, levels: seq<nat>,
                  results: seq<(nat, nat)>)
    requires QueueOk(adj, s, k, done, [], more) && MarksOk(adj, s, k, more, visited, levels)
    requires VisitedOk(adj, s, k, done, results)
    ensures QueueOk(adj, s, k + 1, {}, more, []) && MarksOk(adj, s, k + 1, [], visited, levels)
    ensures VisitedOk(adj, s, k + 1, {}, results)
  {
    hide Layer, Within, Successors;
    assert done == Layer(adj, s, k);
    NextLayer(adj, s, k);
    WithinStep(adj, s, k);
    assert Successors(adj, {}) == {};
  }

  lemma VisitOne(adj: Adj, s: nat, k: nat, done: set<nat>, results: seq<(nat, nat)>, u: nat)
    requires VisitedOk(adj, s, k, done, results) && u !in done && u in Layer(adj, s, k)
    ensures VisitedOk(adj, s, k, done + {u}, results + [(u, k)])
  {
    hide Layer, Within;
    forall i | 0 <= i < |results| ensures results[i].0 != u {
      var (v, d) := results[i];
      assert (v, d) in results;
      if v == u && d < k {
        LaterLayer(adj, s, u, d, k);
      }
    }
    forall v: nat, d: nat
      ensures (v, d) in results + [(u, k)] <==> (d < k && v in Layer(adj, s, d)) || (d == k && v in done + {u})
    {
      assert (v, d) in results + [(u, k)] <==> (v, d) in results || (v, d) == (u, k);
    }
  }

  /** Vertices found from `done` and from the first j neighbours of u. */
  ghost predicate Found(adj: Adj, s: nat, k: nat, done: set<nat>, u: nat, j: nat, more: seq<nat>)
    requires u < |adj| && j <= |adj[u]|
  {
    && Distinct(more)
    && forall v: nat :: v in more <==>
         v < |adj| && v !in Within(adj, s, k) && (HasPred(adj, done, v) || v in adj[u][..j])
  }

  lemma FoundStart(adj: Adj, s: nat, k: nat, done: set<nat>, u: nat, rest: seq<nat>, more: seq<nat>)
    requires QueueOk(adj, s, k, done, rest, more) && u < |adj|
    ensures Found(adj, s, k, done, u, 0, more)
  {
    hide Layer, Within;
    forall v: nat
      ensures v in more <==> v < |adj| && v !in Within(adj, s, k) && (HasPred(adj, done, v) || v in adj[u][..0])
    {
      assert v in more <==> v in Members(more);
    }
  }

  lemma FoundEnd(adj: Adj, s: nat, k: nat, done: set<nat>, u: nat, rest: seq<nat>, more: seq<nat>)
    requires u < |adj| && Found(adj, s, k, done, u, |adj[u]|, more)
    requires Distinct([u] + rest) && done !! Members([u] + rest) && done + Members([u] + rest) == Layer(adj, s, k)
    ensures QueueOk(adj, s, k, done + {u}, rest, more)
  {
    hide Layer, Within;
    assert adj[u][..|adj[u]|] == adj[u];
    assert Members([u] + rest) == {u} + Members(rest);
    assert ([u] + rest)[0] == u;
    forall i, j | 0 <= i < j < |rest| ensures rest[i] != rest[j] {
      assert ([u] + rest)[i + 1] != ([u] + rest)[j + 1];
    }
    forall i | 0 <= i < |rest| ensures rest[i] != u {
      assert ([u] + rest)[i + 1] != ([u] + rest)[0];
    }
    forall v: nat ensures v in Members(more) <==> v in Successors(adj, done + {u}) - Within(adj, s, k) {
      assert HasPred(adj, done + {u}, v) <==> HasPred(adj, done, v) || Edge(adj, u, v) by {
        if HasPred(adj, done, v) {
          var a :| a in done && Edge(adj, a, v);
          assert a in done + {u};
        }
        if Edge(adj, u, v) {
          assert u in done + {u};
        }
      }
    }
  }

  lemma FoundNext(adj: Adj, s: nat, k: nat, done: set<nat>, u: nat, j: nat, more: seq<nat>, visited: bool)
    requires u < |adj| && j < |adj[u]| && Found(adj, s, k, done, u, j, more)
    requires adj[u][j] < |adj| ==> (visited <==> adj[u][j] in Within(adj, s, k) || adj[u][j] in more)
    ensures Found(adj, s, k, done, u, j + 1, if adj[u][j] < |adj| && !visited then more + [adj[u][j]] else more)
  {
    hide Layer, Within;
    assert adj[u][..j + 1] == adj[u][..j] + [adj[u][j]];
  }

  /** The neighbours of u: those not seen before are marked and queued. */
  method Expand(adj: Adj, visited: array<bool>, levels: array<nat>, u: nat, queue: seq<nat>, ghost more: seq<nat>,
                ghost s: nat, ghost k: nat, ghost done: set<nat>)
    returns (queue': seq<nat>, ghost more': seq<nat>)
    requires visited.Length == levels.Length == |adj| && u < |adj| && levels[u] == k
    requires MarksOk(adj, s, k, more, visited[..], levels[..]) && Found(adj, s, k, done, u, 0, more)
    requires u in Layer(adj, s, k)
    modifies visited, levels
    ensures more <= more' && queue' == queue + more'[|more|..]
    ensures MarksOk(adj, s, k, more', visited[..], levels[..]) && Found(adj, s, k, done, u, |adj[u]|, more')
  {
    hide Layer, Within, Found;
    var nextLevel := levels[u] + 1;
    queue', more' := queue, more;
    for j := 0 to |adj[u]|
      invariant more <= more' && queue' == queue + more'[|more|..]
      invariant MarksOk(adj, s, k, more', visited[..], levels[..]) && Found(adj, s, k, done, u, j, more')
    {
      var v := adj[u][j];
      FoundNext(adj, s, k, done, u, j, more', if v < |adj| then visited[v] else true);
      if v < |adj| && !visited[v] {
        MarkOne(adj, s, k, more', visited[..], levels[..], v);
        visited[v] := true;
        levels[v] := nextLevel;
        queue' := queue' + [v];
        more' := more' + [v];
      }
    }
  }

  lemma MarkOne(adj: Adj, s: nat, k: nat, more: seq<nat>, visited: seq<bool>, levels: seq<nat>, v: nat)
    requires MarksOk(adj, s, k, more, visited, levels) && v < |adj| && !visited[v]
    ensures MarksOk(adj, s, k, more + [v], visited[v := true], levels[v := k + 1])
  {
    hide Within;
    if v in Layer(adj, s, k) {
      LaterLayer(adj, s, v, k, k + 1);
    }
  }

  lemma StartQueue(adj: Adj, s: nat, visited: seq<bool>, levels: seq<nat>)
    requires s < |adj| == |visited| == |levels| && forall v :: 0 <= v < |adj| ==> visited[v] == (v == s) && levels[v] == 0
    ensures QueueOk(adj, s, 0, {}, [s], []) && MarksOk(adj, s, 0, [], visited, levels) && VisitedOk(adj, s, 0, {}, [])
  {
  }

  lemma FrontOk(adj: Adj, s: nat, k: nat, done: set<nat>, rest: seq<nat>, more: seq<nat>, visited: seq<bool>,
                levels: seq<nat>)
    requires QueueOk(adj, s, k, done, rest, more) && MarksOk(adj, s, k, more, visited, levels) && rest != [] && s < |adj|
    ensures rest[0] < |adj| && rest[0] in Layer(adj, s, k) && rest[0] !in done && levels[rest[0]] == k
  {
    hide Layer, Within, Successors;
    assert rest[0] in Members(rest);
    LayerInside(adj, s, rest[0], k);
  }

  lemma FrontSplit(adj: Adj, s: nat, k: nat, done: set<nat>, rest: seq<nat>, more: seq<nat>)
    requires QueueOk(adj, s, k, done, rest, more) && rest != []
    ensures var split := [rest[0]] + rest[1..];
      Distinct(split) && done !! Members(split) && done + Members(split) == Layer(adj, s, k)
  {
    hide Layer, Within, Successors;
    assert [rest[0]] + rest[1..] == rest;
  }

  function Firsts(results: seq<(nat, nat)>): (firsts: set<nat>)
    ensures forall r :: r in results ==> r.0 in firsts
    ensures forall v: nat :: v in firsts ==> exists d: nat :: (v, d) in results
  {
    set r | r in results :: r.0
  }

  lemma FirstsGrow(adj: Adj, s: nat, k: nat, done: set<nat>, results: seq<(nat, nat)>, u: nat)
    requires VisitedOk(adj, s, k, done, results) && u in Layer(adj, s, k) && u !in done && u < |adj|
    ensures Range(|adj|) - Firsts(results + [(u, k)]) < Range(|adj|) - Firsts(results)
  {
    hide Layer, Within;
    if u in Firsts(results) {
      var d: nat :| (u, d) in results;
      if d < k {
        LaterLayer(adj, s, u, d, k);
      }
    }
    forall v: nat | v in Firsts(results) ensures v in Firsts(results + [(u, k)]) {
      var d: nat :| (v, d) in results;
      assert (v, d) in results + [(u, k)];
    }
    assert (u, k) in results + [(u, k)];
  }

  lemma {:induction false} BeyondEmpty(adj: Adj, s: nat, k: nat, d: nat)
    requires Layer(adj, s, k + 1) == {} && d > k
    ensures Layer(adj, s, d) == {}
  {
    hide Within, Successors;
    ClosedAt(adj, s, k, d);
    ClosedAt(adj, s, k, d - 1);
  }

  lemma LastLevel(adj: Adj, s: nat, k: nat, done: set<nat>, results: seq<(nat, nat)>)
    requires WellFormed(adj) && s < |adj| && QueueOk(adj, s, k, done, [], []) && VisitedOk(adj, s, k, done, results)
    ensures AreDistances(adj, s, results)
  {
    hide Layer, Within, Successors, IsDistance;
    NextLayer(adj, s, k);
    assert done == Layer(adj, s, k);
    forall v: nat, d: nat ensures (v, d) in results <==> v < |adj| && IsDistance(adj, s, v, d) {
      LayerIsDistance(adj, s, v, d);
      if v in Layer(adj, s, d) {
        LayerInside(adj, s, v, d);
      }
      if d > k {
        BeyondEmpty(adj, s, k, d);
      }
    }
  }

  /** Both searches find the same distances. */
  lemma SearchesAgree(adj: Adj, s: nat, a: seq<(nat, nat)>, b: seq<(nat, nat)>)
    requires AreDistances(adj, s, a) && AreDistances(adj, s, b)
    ensures multiset(a) == multiset(b)
  {
    forall r ensures multiset(a)[r] == multiset(b)[r] {
      OnceEach(a, r);
      OnceEach(b, r);
      assert (r.0, r.1) in a <==> (r.0, r.1) in b;
    }
  }

  lemma {:induction false} OnceEach(list: seq<(nat, nat)>, r: (nat, nat))
    requires forall i, j :: 0 <= i < j < |list| ==> list[i].0 != list[j].0
    ensures multiset(list)[r] == if r in list then 1 else 0
  {
    if list != [] {
      var front, last := list[..|list| - 1], list[|list| - 1];
      assert list == front + [last];
      OnceEach(front, r);
    }
  }

  /** bfs: vertices by queue, with their levels. */
  method QueueBfs(adj: Adj, start: nat) returns (results: seq<(nat, nat)>)
    requires WellFormed(adj) && start < |adj|
    ensures AreDistances(adj, start, results)
  {
    hide Layer, Within, QueueOk, MarksOk, VisitedOk, Found, Firsts, AreDistances, Distinct, Members, Range;
    results := [];
    var visited := new bool[|adj|](i => false);
    var levels := new nat[|adj|](i => 0);
    var queue: seq<nat> := [start];
    visited[start] := true;
    levels[start] := 0;
    ghost var k, done, rest: seq<nat>, more: seq<nat> := 0, {}, [start], [];
    StartQueue(adj, start, visited[..], levels[..]);
    while queue != []
      invariant queue == rest + more
      invariant QueueOk(adj, start, k, done, rest, more) && MarksOk(adj, start, k, more, visited[..], levels[..])
      invariant VisitedOk(adj, start, k, done, results)
      decreases Range(|adj|) - Firsts(results)
    {
      if rest == [] {
        NextLevel(adj, start, k, done, more, visited[..], levels[..], results);
        k, done, rest, more := k + 1, {}, more, [];
      }
      var u := queue[0];
      queue := queue[1..];
      FrontOk(adj, start, k, done, rest, more, visited[..], levels[..]);
      FoundStart(adj, start, k, done, u, rest, more);
      VisitOne(adj, start, k, done, results, u);
      FirstsGrow(adj, start, k, done, results, u);
      results := results + [(u, levels[u])];
      ghost var found: seq<nat>;
      queue, found := Expand(adj, visited, levels, u, queue, more, start, k, done);
      FrontSplit(adj, start, k, done, rest, more);
      FoundEnd(adj, start, k, done, u, rest[1..], found);
      done, rest, more := done + {u}, rest[1..], found;
    }
    LastLevel(adj, start, k, done, results);
  }
}
