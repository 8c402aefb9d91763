/** Components by propagating the least label (parallel_wcc, src/db_algorithm.cc, over
 * bw_edge_scan, include/bw_graph/algo/edge_scan.h). */
module MinLabel {
  import opened Graph

  type Labels = seq<nat>

  /** Every label names a vertex of the same component, not above the vertex itself. */
  ghost predicate LabelsOk(adj: Adj, mark: Labels) {
    && |mark| == |adj|
    && forall v :: 0 <= v < |adj| ==> mark[v] <= v && Connected(adj, v, mark[v])
  }

  /** An edge over which a smaller label could flow. */
  predicate Pulls(adj: Adj, mark: Labels, u: nat, v: nat)
    requires |mark| == |adj|
  {
    Edge(adj, u, v) && v < |adj| && mark[u] < mark[v]
  }

  /** Every such edge starts at a vertex that is active. */
  ghost predicate Covered(adj: Adj, mark: Labels, active: seq<bool>) {
    && |active| == |mark| == |adj|
    && forall u: nat, v: nat :: Pulls(adj, mark, u, v) ==> active[u]
  }

  /** Every such edge starts at a vertex that is active in the next round, or that is
   *  still to come in this one: position i of `order`, neighbour j. */
  ghost predicate CoveredSoFar(adj: Adj, mark: Labels, active: seq<bool>, next: seq<bool>, order: seq<nat>, i: nat, j: nat)
    requires i <= |order|
  {
    && |next| == |active| == |mark| == |adj|
    && (forall k :: 0 <= k < |order| ==> order[k] < |adj|)
    && forall u: nat, v: nat :: Pulls(adj, mark, u, v) ==> next[u] || (active[u] && ToCome(adj, order, i, j, u, v))
  }

  predicate ToCome(adj: Adj, order: seq<nat>, i: nat, j: nat, u: nat, v: nat)
    requires i <= |order| && forall k :: 0 <= k < |order| ==> order[k] < |adj|
  {
    || u in order[(if i < |order| then i + 1 else i)..]
    || (i < |order| && order[i] == u && j <= |adj[u]| && v in adj[u][j..])
  }

  lemma LowerKeeps(adj: Adj, mark: Labels, u: nat, v: nat)
    requires LabelsOk(adj, mark) && Pulls(adj, mark, u, v) && u < |adj|
    ensures LabelsOk(adj, mark[v := mark[u]]) && Sum(mark[v := mark[u]]) < Sum(mark)
  {
    ConnectedLink(adj, v, u);
    ConnectedTrans(adj, v, u, mark[u]);
    SumLower(mark, v, mark[u]);
  }

  /** Lowering one label makes its vertex active and settles the edge it came over. */
  lemma LowerCovers(adj: Adj, mark: Labels, active: seq<bool>, next: seq<bool>, order: seq<nat>, i: nat, j: nat)
    requires i < |order| && CoveredSoFar(adj, mark, active, next, order, i, j)
    requires j < |adj[order[i]]| && Pulls(adj, mark, order[i], adj[order[i]][j])
    ensures var u, v := order[i], adj[order[i]][j];
      CoveredSoFar(adj, mark[v := mark[u]], active, next[v := true], order, i, j + 1)
  {
    var u, v := order[i], adj[order[i]][j];
    var mark', next' := mark[v := mark[u]], next[v := true];
    forall a: nat, b: nat | Pulls(adj, mark', a, b)
      ensures next'[a] || (active[a] && ToCome(adj, order, i, j + 1, a, b))
    {
      if a != v {
        assert Pulls(adj, mark, a, b);
        assert adj[u][j..] == [v] + adj[u][j + 1..];
      }
    }
  }

  lemma SkipCovers(adj: Adj, mark: Labels, active: seq<bool>, next: seq<bool>, order: seq<nat>, i: nat, j: nat)
    requires i < |order| && CoveredSoFar(adj, mark, active, next, order, i, j)
    requires j < |adj[order[i]]| && !Pulls(adj, mark, order[i], adj[order[i]][j])
    ensures CoveredSoFar(adj, mark, active, next, order, i, j + 1)
  {
    var u := order[i];
    assert adj[u][j..] == [adj[u][j]] + adj[u][j + 1..];
  }

  lemma NextSource(adj: Adj, mark: Labels, active: seq<bool>, next: seq<bool>, order: seq<nat>, i: nat, j: nat)
    requires i < |order| && CoveredSoFar(adj, mark, active, next, order, i, j)
    requires !active[order[i]] || j == |adj[order[i]]|
    ensures CoveredSoFar(adj, mark, active, next, order, i + 1, 0)
  {
    forall u: nat, v: nat | Pulls(adj, mark, u, v) ensures next[u] || (active[u] && ToCome(adj, order, i + 1, 0, u, v)) {
      if !next[u] && i + 1 < |order| && u in order[i + 1..] {
        assert order[i + 1..] == [order[i + 1]] + order[i + 2..];
      }
    }
  }

  /** One pull over an edge: take the smaller label of the source, mark the target. */
  method Process(adj: Adj, mark: array<nat>, next: array<bool>, src: nat, dst: nat) returns (moved: nat)
    requires mark.Length == next.Length == |adj| && src < |adj| && dst < |adj| && Edge(adj, src, dst)
    modifies mark, next
    ensures moved == if Pulls(adj, old(mark[..]), src, dst) then 1 else 0
    ensures mark[..] == if moved == 1 then old(mark[..])[dst := old(mark[src])] else old(mark[..])
    ensures next[..] == if moved == 1 then old(next[..])[dst := true] else old(next[..])
  {
    moved := 0;
    if mark[src] < mark[dst] {
      ghost var was, marks := mark[..], next[..];
      var old_label := mark[dst];
      if mark[src] < old_label {
        mark[dst] := mark[src];
        next[dst] := true;
        assert mark[..] == was[dst := was[src]] && next[..] == marks[dst := true];
        moved := 1;
      }
    }
  }

  /** One scan over the edges of the active vertices.  Afterwards every edge whose source
   *  has the smaller label starts at a vertex that is active in the next round. */
  method ScanRound(adj: Adj, mark: array<nat>, active: array<bool>, next: array<bool>, order: seq<nat>)
    returns (moved: nat)
    requires WellFormed(adj) && mark.Length == next.Length == active.Length == |adj|
    requires active != next
    requires LabelsOk(adj, mark[..]) && Covered(adj, mark[..], active[..])
    requires forall k :: 0 <= k < |order| ==> order[k] < |adj|
    requires forall v :: 0 <= v < |adj| ==> v in order
    modifies mark, next
    ensures LabelsOk(adj, mark[..]) && Covered(adj, mark[..], next[..])
    ensures moved > 0 ==> Sum(mark[..]) < Sum(old(mark[..]))
    ensures moved == 0 ==> mark[..] == old(mark[..]) && forall v :: 0 <= v < |adj| ==> !next[v]
  {
    hide LabelsOk, CoveredSoFar, Covered, Sum;
    moved := 0;
    for i := 0 to next.Length
      invariant forall v :: 0 <= v < i ==> !next[v]
      invariant mark[..] == old(mark[..]) && active[..] == old(active[..])
    {
      next[i] := false;
    }
    StartCovered(adj, mark[..], active[..], next[..], order);
    ghost var was := mark[..];
    for i := 0 to |order|
      invariant LabelsOk(adj, mark[..]) && active[..] == old(active[..])
      invariant CoveredSoFar(adj, mark[..], active[..], next[..], order, i, 0)
      invariant moved > 0 ==> Sum(mark[..]) < Sum(was)
      invariant moved == 0 ==> mark[..] == was && forall v :: 0 <= v < |adj| ==> !next[v]
    {
      var src := order[i];
      if active[src] {
        for j := 0 to |adj[src]|
          invariant LabelsOk(adj, mark[..]) && active[..] == old(active[..])
          invariant CoveredSoFar(adj, mark[..], active[..], next[..], order, i, j)
          invariant moved > 0 ==> Sum(mark[..]) < Sum(was)
          invariant moved == 0 ==> mark[..] == was && forall v :: 0 <= v < |adj| ==> !next[v]
        {
          ScanStep(adj, mark[..], active[..], next[..], order, i, j);
          var one := Process(adj, mark, next, src, adj[src][j]);
          moved := moved + one;
        }
        NextSource(adj, mark[..], active[..], next[..], order, i, |adj[src]|);
      } else {
        NextSource(adj, mark[..], active[..], next[..], order, i, 0);
      }
    }
    EndCovered(adj, mark[..], active[..], next[..], order);
  }

  lemma ScanStep(adj: Adj, mark: Labels, active: seq<bool>, next: seq<bool>, order: seq<nat>, i: nat, j: nat)
    requires WellFormed(adj) && LabelsOk(adj, mark) && i < |order| && CoveredSoFar(adj, mark, active, next, order, i, j)
    requires j < |adj[order[i]]|
    ensures var u, v := order[i], adj[order[i]][j];
      && Edge(adj, u, v)
      && (Pulls(adj, mark, u, v) ==>
            && LabelsOk(adj, mark[v := mark[u]]) && Sum(mark[v := mark[u]]) < Sum(mark)
            && CoveredSoFar(adj, mark[v := mark[u]], active, next[v := true], order, i, j + 1))
      && (!Pulls(adj, mark, u, v) ==> CoveredSoFar(adj, mark, active, next, order, i, j + 1))
  {
    var u, v := order[i], adj[order[i]][j];
    assert v in adj[u];
    if Pulls(adj, mark, u, v) {
      LowerKeeps(adj, mark, u, v);
      LowerCovers(adj, mark, active, next, order, i, j);
    } else {
      SkipCovers(adj, mark, active, next, order, i, j);
    }
  }

  lemma StartCovered(adj: Adj, mark: Labels, active: seq<bool>, next: seq<bool>, order: seq<nat>)
    requires Covered(adj, mark, active) && |next| == |adj|
    requires forall k :: 0 <= k < |order| ==> order[k] < |adj|
    requires forall v :: 0 <= v < |adj| ==> v in order
    ensures CoveredSoFar(adj, mark, active, next, order, 0, 0)
  {
    forall u: nat, v: nat | Pulls(adj, mark, u, v) ensures active[u] && ToCome(adj, order, 0, 0, u, v) {
      assert u in order && order == [order[0]] + order[1..];
      assert adj[u][0..] == adj[u];
    }
  }

  lemma EndCovered(adj: Adj, mark: Labels, active: seq<bool>, next: seq<bool>, order: seq<nat>)
    requires CoveredSoFar(adj, mark, active, next, order, |order|, 0)
    ensures Covered(adj, mark, next)
  {
  }

  /** No label can flow any more: with edges in both directions the labels are the same
   *  at both ends of every edge, so each is the least of its component. */
  lemma FixpointIsLeast(adj: Adj, mark: Labels, v: nat)
    requires WellFormed(adj) && Symmetric(adj) && LabelsOk(adj, mark) && v < |adj|
    requires forall a: nat, b: nat :: !Pulls(adj, mark, a, b)
    ensures LeastOf(adj, v, mark[v])
  {
    forall a: nat, b: nat | Edge(adj, a, b) ensures a < |adj| && b < |adj| && mark[a] == mark[b] {
      EdgeInside(adj, a, b);
      assert !Pulls(adj, mark, a, b) && !Pulls(adj, mark, b, a);
    }
    forall u: nat | Connected(adj, v, u) ensures mark[v] <= u {
      if u < |adj| {
        var value := (x: nat) => if x < |mark| then mark[x] else 0;
        SameOnComponent(adj, value, v, u);
      }
    }
  }

  /** parallel_wcc: scan from the vertices whose label changed until none does. */
  method ParallelWcc(adj: Adj, order: seq<nat>) returns (labels: Labels)
    requires WellFormed(adj) && Symmetric(adj)
    requires forall k :: 0 <= k < |order| ==> order[k] < |adj|
    requires forall v :: 0 <= v < |adj| ==> v in order
    ensures |labels| == |adj|
    ensures forall v :: 0 <= v < |adj| ==> LeastOf(adj, v, labels[v])
  {
    var mark := new nat[|adj|](i => i);
    var activeIn := new bool[|adj|](i => false);
    var activeOut := new bool[|adj|](i => true);
    var moved: nat := |adj|;
    StartLabels(adj, mark[..]);
    while moved != 0
      invariant mark.Length == activeIn.Length == activeOut.Length == |adj|
      invariant activeIn != activeOut
      invariant fresh(mark) && fresh(activeIn) && fresh(activeOut)
      invariant LabelsOk(adj, mark[..]) && Covered(adj, mark[..], activeOut[..])
      invariant moved == 0 ==> forall v :: 0 <= v < |adj| ==> !activeOut[v]
      decreases Sum(mark[..]), moved
    {
      activeIn, activeOut := activeOut, activeIn;
      moved := ScanRound(adj, mark, activeIn, activeOut, order);
    }
    labels := mark[..];
    NoneActive(adj, labels, activeOut[..]);
    forall v | 0 <= v < |adj| ensures LeastOf(adj, v, labels[v]) {
      FixpointIsLeast(adj, labels, v);
    }
  }

  lemma NoneActive(adj: Adj, mark: Labels, active: seq<bool>)
    requires Covered(adj, mark, active) && forall v :: 0 <= v < |adj| ==> !active[v]
    ensures forall a: nat, b: nat :: !Pulls(adj, mark, a, b)
  {
  }

  lemma StartLabels(adj: Adj, mark: Labels)
    requires |mark| == |adj| && forall v :: 0 <= v < |adj| ==> mark[v] == v
    ensures LabelsOk(adj, mark)
  {
    forall v | 0 <= v < |adj| ensures Connected(adj, v, v) {
      ConnectedSelf(adj, v);
    }
  }
}
