/** Connected components by hooking and compression (src/db_algorithm.cc,
 * include/bw_graph/algo/edge_map.h, include/bw_graph/algo/vertex_map.h). */
module Components {
  import opened Graph

  type Forest = seq<nat>

  /** Every vertex points to itself or to a smaller vertex of its component. */
  ghost predicate Inside(adj: Adj, parent: Forest) {
    && |parent| == |adj|
    && forall v :: 0 <= v < |parent| ==> parent[v] <= v && Connected(adj, v, parent[v])
  }

  predicate Descending(parent: Forest) {
    forall v :: 0 <= v < |parent| ==> parent[v] <= v
  }

  function Root(parent: Forest, v: nat): (r: nat)
    requires Descending(parent) && v < |parent|
    ensures r <= v && parent[r] == r
  {
    if parent[v] == v then v else Root(parent, parent[v])
  }

  function Roots(parent: Forest): (roots: set<nat>) {
    set v | 0 <= v < |parent| && parent[v] == v
  }

  lemma {:induction false} RootConnected(adj: Adj, parent: Forest, v: nat)
    requires Inside(adj, parent) && v < |parent|
    ensures Connected(adj, v, Root(parent, v))
    decreases v
  {
    if parent[v] == v {
      ConnectedSelf(adj, v);
    } else {
      RootConnected(adj, parent, parent[v]);
      ConnectedTrans(adj, v, parent[v], Root(parent, parent[v]));
    }
  }

  // ---------------------------------------------------------------------------
  // Compression

  /** Pointing a vertex to its grandparent moves no root. */
  lemma {:induction false} CompressRoot(parent: Forest, v: nat, x: nat)
    requires Descending(parent) && v < |parent| && x < |parent|
    ensures parent[parent[v]] <= v && Descending(parent[v := parent[parent[v]]])
    ensures Root(parent[v := parent[parent[v]]], x) == Root(parent, x)
    decreases x
  {
    var parent' := parent[v := parent[parent[v]]];
    if parent[x] != x {
      CompressRoot(parent, v, parent[x]);
      if x == v {
        CompressRoot(parent, v, parent[parent[v]]);
      }
    }
  }

  lemma CompressKeeps(adj: Adj, parent: Forest, v: nat)
    requires Inside(adj, parent) && v < |parent|
    ensures parent[parent[v]] <= parent[v] <= v
    ensures var parent' := parent[v := parent[parent[v]]];
      && Inside(adj, parent') && Roots(parent') == Roots(parent)
      && (forall x :: 0 <= x < |parent| ==> Root(parent', x) == Root(parent, x))
      && (parent[parent[v]] != parent[v] ==> Sum(parent') < Sum(parent))
  {
    var parent' := parent[v := parent[parent[v]]];
    ConnectedTrans(adj, v, parent[v], parent[parent[v]]);
    forall x | 0 <= x < |parent| ensures Root(parent', x) == Root(parent, x) {
      CompressRoot(parent, v, x);
    }
    if parent[parent[v]] != parent[v] {
      SumLower(parent, v, parent[parent[v]]);
    }
  }

  // ---------------------------------------------------------------------------
  // Hooking

  /** Attaching a root to a smaller vertex of its component, seen now or earlier: one
   *  root less. */
  lemma HookKeeps(adj: Adj, parent: Forest, hi: nat, lo: nat)
    requires Inside(adj, parent) && hi < |parent| && parent[hi] == hi && lo < hi && Connected(adj, hi, lo)
    ensures Inside(adj, parent[hi := lo])
    ensures Roots(parent[hi := lo]) == Roots(parent) - {hi} && hi in Roots(parent)
    ensures |Roots(parent[hi := lo])| < |Roots(parent)|
  {
  }

  /** The two ends of every edge have the same root. */
  ghost predicate Settled(adj: Adj, parent: Forest) {
    && Descending(parent) && |parent| == |adj|
    && forall a: nat, b: nat :: Edge(adj, a, b) ==> b < |adj| && Root(parent, a) == Root(parent, b)
  }

  /** All edges examined, none joins two roots: the roots are the components. */
  lemma SettledIsExact(adj: Adj, parent: Forest, u: nat, v: nat)
    requires WellFormed(adj) && Inside(adj, parent) && u < |adj| && v < |adj|
    requires Settled(adj, parent)
    ensures Root(parent, u) == Root(parent, v) <==> Connected(adj, u, v)
  {
    RootConnected(adj, parent, u);
    RootConnected(adj, parent, v);
    if Root(parent, u) == Root(parent, v) {
      ConnectedBack(adj, v, Root(parent, v));
      ConnectedTrans(adj, u, Root(parent, u), v);
    }
    if Connected(adj, u, v) {
      var value := (x: nat) => if x < |parent| then Root(parent, x) else 0;
      SameOnComponent(adj, value, u, v);
    }
  }

  lemma SettledIsLeast(adj: Adj, parent: Forest, v: nat)
    requires WellFormed(adj) && Inside(adj, parent) && v < |adj|
    requires Settled(adj, parent)
    ensures LeastOf(adj, v, Root(parent, v))
  {
    RootConnected(adj, parent, v);
    forall u: nat | Connected(adj, v, u) ensures Root(parent, v) <= u {
      if u < |adj| {
        SettledIsExact(adj, parent, v, u);
      }
    }
  }

  // ---------------------------------------------------------------------------
  // The code

  method FindRoot(parent: array<nat>, v: nat) returns (r: nat)
    requires Descending(parent[..]) && v < parent.Length
    ensures r < parent.Length && r == Root(parent[..], v)
  {
    r := v;
    while parent[r] != r
      invariant r <= v && Root(parent[..], r) == Root(parent[..], v)
      decreases r
    {
      r := parent[r];
    }
  }

  /** wcc_hook_functor_t: hook the larger root of an edge to the smaller one. */
  method Hook(adj: Adj, parent: array<nat>, src: nat, dst: nat) returns (hooked: bool)
    requires Inside(adj, parent[..]) && src < parent.Length && dst < parent.Length && Linked(adj, src, dst)
    modifies parent
    ensures Inside(adj, parent[..])
    ensures hooked <==> Root(old(parent[..]), src) != Root(old(parent[..]), dst)
    ensures hooked ==> |Roots(parent[..])| < |Roots(old(parent[..]))|
    ensures !hooked ==> parent[..] == old(parent[..])
  {
    var srcRoot := FindRoot(parent, src);
    var dstRoot := FindRoot(parent, dst);
    if srcRoot == dstRoot {
      return false;
    }
    var hi := if srcRoot > dstRoot then srcRoot else dstRoot;
    var lo := if srcRoot > dstRoot then dstRoot else srcRoot;
    ghost var was := parent[..];
    RootConnected(adj, was, src);
    RootConnected(adj, was, dst);
    RootsLinked(adj, src, dst, srcRoot, dstRoot);
    if parent[hi] == hi {
      HookKeeps(adj, was, hi, lo);
      parent[hi] := lo;
      assert parent[..] == was[hi := lo];
      return true;
    }
    hooked := false;
  }

  lemma RootsLinked(adj: Adj, u: nat, v: nat, ru: nat, rv: nat)
    requires Linked(adj, u, v) && Connected(adj, u, ru) && Connected(adj, v, rv)
    ensures Connected(adj, ru, rv) && Connected(adj, rv, ru)
  {
    ConnectedLink(adj, u, v);
    ConnectedBack(adj, u, ru);
    ConnectedTrans(adj, ru, u, v);
    ConnectedTrans(adj, ru, v, rv);
    ConnectedBack(adj, ru, rv);
  }

  /** An edge seen from u joins two roots. */
  ghost predicate Joins(parent: Forest, u: nat, v: nat)
    requires Descending(parent)
  {
    u < |parent| && v < |parent| && Root(parent, u) != Root(parent, v)
  }

  /** What one round of edge map does to the forest: either nothing, and then no edge of
   *  the processed vertices joins two roots, or there are fewer roots. */
  ghost predicate Progress(adj: Adj, before: Forest, after: Forest, seen: seq<nat>, hooked: bool) {
    && Inside(adj, before) && Inside(adj, after)
    && (hooked ==> |Roots(after)| < |Roots(before)|)
    && (!hooked ==> after == before && forall u, v :: u in seen && Edge(adj, u, v) ==> !Joins(before, u, v))
  }

  /** The neighbours of one vertex, as the sparse scan or the dense scan with its early
   *  exit after the first success visits them. */
  method ScanVertex(adj: Adj, parent: array<nat>, u: nat, dense: bool) returns (hooked: bool)
    requires WellFormed(adj) && Inside(adj, parent[..]) && u < parent.Length
    modifies parent
    ensures Progress(adj, old(parent[..]), parent[..], [u], hooked)
  {
    hooked := false;
    ghost var was := parent[..];
    var j := 0;
    while j < |adj[u]|
      invariant 0 <= j <= |adj[u]| && Inside(adj, parent[..])
      invariant hooked ==> |Roots(parent[..])| < |Roots(was)|
      invariant !hooked ==> parent[..] == was && forall k :: 0 <= k < j ==> !Joins(was, u, adj[u][k])
    {
      assert adj[u][j] in adj[u];
      var src, dst := if dense then adj[u][j] else u, if dense then u else adj[u][j];
      var ok := Hook(adj, parent, src, dst);
      if ok {
        hooked := true;
        if dense {
          return;
        }
      }
      j := j + 1;
    }
  }

  /** One edge map over the full frontier: dense if more vertices are active than the
   *  threshold, else sparse; the vertices come in any order. */
  method EdgeMap(adj: Adj, parent: array<nat>, order: seq<nat>, totalEdges: nat, divisor: nat) returns (changed: bool)
    requires WellFormed(adj) && Inside(adj, parent[..]) && divisor > 0
    requires forall k :: 0 <= k < |order| ==> order[k] < |adj|
    modifies parent
    ensures Progress(adj, old(parent[..]), parent[..], order, changed)
  {
    var threshold := if totalEdges > 0 then totalEdges / divisor else |adj| / divisor;
    var dense := |adj| > threshold;
    changed := false;
    ghost var was := parent[..];
    for i := 0 to |order|
      invariant Progress(adj, was, parent[..], order[..i], changed)
    {
      assert order[..i + 1] == order[..i] + [order[i]];
      var hooked := ScanVertex(adj, parent, order[i], dense);
      changed := changed || hooked;
    }
    assert order[..|order|] == order;
  }

  /** One pass of compression over all vertices. */
  method CompressPass(adj: Adj, parent: array<nat>, order: seq<nat>) returns (moved: bool)
    requires Inside(adj, parent[..]) && forall k :: 0 <= k < |order| ==> order[k] < |adj|
    modifies parent
    ensures SameTrees(adj, old(parent[..]), parent[..])
    ensures moved ==> Sum(parent[..]) < Sum(old(parent[..]))
    ensures !moved ==> parent[..] == old(parent[..])
    ensures !moved ==> forall v :: v in order ==> parent[parent[v]] == parent[v]
  {
    moved := false;
    ghost var was := parent[..];
    for i := 0 to |order|
      invariant SameTrees(adj, was, parent[..])
      invariant moved ==> Sum(parent[..]) < Sum(was)
      invariant !moved ==> parent[..] == was
      invariant !moved ==> forall k :: 0 <= k < i ==> parent[parent[order[k]]] == parent[order[k]]
    {
      var v := order[i];
      ghost var now := parent[..];
      CompressKeeps(adj, now, v);
      var p := parent[v];
      var gp := parent[p];
      if p != gp {
        parent[v] := gp;
        moved := true;
        assert parent[..] == now[v := now[now[v]]];
      }
    }
  }

  /** The same components with the same roots. */
  ghost predicate SameTrees(adj: Adj, before: Forest, after: Forest) {
    && Inside(adj, before) && Inside(adj, after)
    && Roots(after) == Roots(before)
    && forall x :: 0 <= x < |adj| ==> Root(after, x) == Root(before, x)
  }

  /** Passes until one moves nothing: every vertex then points to its root. */
  method Compress(adj: Adj, parent: array<nat>, order: seq<nat>)
    requires Inside(adj, parent[..]) && forall k :: 0 <= k < |order| ==> order[k] < |adj|
    modifies parent
    ensures SameTrees(adj, old(parent[..]), parent[..])
    ensures forall v :: v in order ==> parent[parent[v]] == parent[v]
  {
    ghost var was := parent[..];
    while true
      invariant SameTrees(adj, was, parent[..])
      decreases Sum(parent[..])
    {
      var moved := CompressPass(adj, parent, order);
      if !moved {
        break;
      }
    }
  }

  lemma SettledSame(adj: Adj, before: Forest, after: Forest)
    requires SameTrees(adj, before, after) && Settled(adj, before)
    ensures Settled(adj, after)
  {
    forall a: nat, b: nat | Edge(adj, a, b) ensures b < |adj| && Root(after, a) == Root(after, b) {
      assert Root(before, a) == Root(before, b);
    }
  }

  lemma NoneJoins(adj: Adj, parent: Forest, order: seq<nat>)
    requires WellFormed(adj) && Inside(adj, parent) && forall v :: 0 <= v < |adj| ==> v in order
    requires forall u, v :: u in order && Edge(adj, u, v) ==> !Joins(parent, u, v)
    ensures Settled(adj, parent)
  {
    forall a: nat, b: nat | Edge(adj, a, b) ensures b < |adj| && Root(parent, a) == Root(parent, b) {
      EdgeInside(adj, a, b);
      assert !Joins(parent, a, b);
    }
  }

  /** Hook, compress, until a round hooks nothing: each hooking round removes a root. */
  method Settle(adj: Adj, parent: array<nat>, order: seq<nat>, totalEdges: nat, divisor: nat)
    requires WellFormed(adj) && Inside(adj, parent[..]) && divisor > 0
    requires forall k :: 0 <= k < |order| ==> order[k] < |adj|
    requires forall v :: 0 <= v < |adj| ==> v in order
    modifies parent
    ensures Inside(adj, parent[..]) && Settled(adj, parent[..])
  {
    hide Inside, Settled;
    while true
      invariant Inside(adj, parent[..])
      decreases |Roots(parent[..])|
    {
      ghost var was := parent[..];
      var changed := EdgeMap(adj, parent, order, totalEdges, divisor);
      ghost var now := parent[..];
      Compress(adj, parent, order);
      if !changed {
        NoneJoins(adj, was, order);
        SettledSame(adj, now, parent[..]);
        break;
      }
    }
  }

  /** The root of every vertex. */
  method ReadLabels(parent: array<nat>) returns (labels: seq<nat>)
    requires Descending(parent[..])
    ensures |labels| == parent.Length
    ensures forall v :: 0 <= v < |labels| ==> labels[v] == Root(parent[..], v)
  {
    labels := [];
    for v := 0 to parent.Length
      invariant |labels| == v
      invariant forall k :: 0 <= k < v ==> labels[k] == Root(parent[..], k)
    {
      var r := FindRoot(parent, v);
      labels := labels + [r];
    }
  }

  lemma StartInside(adj: Adj, parent: Forest)
    requires |parent| == |adj| && forall v :: 0 <= v < |adj| ==> parent[v] == v
    ensures Inside(adj, parent)
  {
    forall v | 0 <= v < |adj| ensures Connected(adj, v, v) {
      ConnectedSelf(adj, v);
    }
  }

  /** wcc_sv: two vertices get the same label if and only if they are connected, and the
   *  label is the least vertex of the component. */
  method WccSv(adj: Adj, order: seq<nat>, totalEdges: nat, divisor: nat) returns (labels: seq<nat>)
    requires WellFormed(adj) && divisor > 0
    requires forall k :: 0 <= k < |order| ==> order[k] < |adj|
    requires forall v :: 0 <= v < |adj| ==> v in order
    ensures |labels| == |adj|
    ensures forall v :: 0 <= v < |adj| ==> LeastOf(adj, v, labels[v])
    ensures forall u, v :: 0 <= u < |adj| && 0 <= v < |adj| ==> (labels[u] == labels[v] <==> Connected(adj, u, v))
  {
    hide Settled, LeastOf, Connected;
    if |adj| == 0 {
      return [];
    }
    var parent := new nat[|adj|](i => i);
    StartInside(adj, parent[..]);
    Settle(adj, parent, order, totalEdges, divisor);
    labels := ReadLabels(parent);
    forall v | 0 <= v < |adj| ensures LeastOf(adj, v, labels[v]) {
      SettledIsLeast(adj, parent[..], v);
    }
    forall u, v | 0 <= u < |adj| && 0 <= v < |adj| ensures labels[u] == labels[v] <==> Connected(adj, u, v) {
      SettledIsExact(adj, parent[..], u, v);
    }
  }
}
