/** Adjacency lists, paths and components. */
module Graph {

  /** The neighbour list of each vertex; vertex ids are the positions. */
  type Adj = seq<seq<nat>>

  predicate WellFormed(adj: Adj) {
    forall u, j :: 0 <= u < |adj| && 0 <= j < |adj[u]| ==> adj[u][j] < |adj|
  }

  predicate Edge(adj: Adj, u: nat, v: nat) {
    u < |adj| && v in adj[u]
  }

  ghost predicate Symmetric(adj: Adj) {
    forall u, v :: Edge(adj, u, v) ==> Edge(adj, v, u)
  }

  lemma EdgeInside(adj: Adj, u: nat, v: nat)
    requires WellFormed(adj) && Edge(adj, u, v)
    ensures u < |adj| && v < |adj|
  {
    var j :| 0 <= j < |adj[u]| && adj[u][j] == v;
  }

  /** An edge in either direction. */
  predicate Linked(adj: Adj, u: nat, v: nat) {
    Edge(adj, u, v) || Edge(adj, v, u)
  }

  ghost predicate Chain(adj: Adj, path: seq<nat>) {
    && path != []
    && forall i :: 0 < i < |path| ==> Hop(adj, path, i)
  }

  ghost predicate Hop(adj: Adj, path: seq<nat>, i: nat)
    requires 0 < i < |path|
  {
    Linked(adj, path[i - 1], path[i])
  }

  /** u and v lie in the same component. */
  ghost predicate Connected(adj: Adj, u: nat, v: nat) {
    exists path :: Chain(adj, path) && path[0] == u && path[|path| - 1] == v
  }

  lemma ConnectedSelf(adj: Adj, u: nat)
    ensures Connected(adj, u, u)
  {
    assert Chain(adj, [u]);
  }

  lemma ConnectedLink(adj: Adj, u: nat, v: nat)
    requires Linked(adj, u, v)
    ensures Connected(adj, u, v)
  {
    assert Hop(adj, [u, v], 1);
    assert Chain(adj, [u, v]);
  }

  lemma Reversed(adj: Adj, path: seq<nat>) returns (back: seq<nat>)
    requires Chain(adj, path)
    ensures Chain(adj, back) && back[0] == path[|path| - 1] && back[|back| - 1] == path[0]
  {
    back := seq(|path|, i requires 0 <= i < |path| => path[|path| - 1 - i]);
    forall i | 0 < i < |back| ensures Hop(adj, back, i) {
      assert Hop(adj, path, |path| - i);
    }
  }

  lemma ConnectedBack(adj: Adj, u: nat, v: nat)
    requires Connected(adj, u, v)
    ensures Connected(adj, v, u)
  {
    var path :| Chain(adj, path) && path[0] == u && path[|path| - 1] == v;
    var back := Reversed(adj, path);
  }

  lemma Joined(adj: Adj, a: seq<nat>, b: seq<nat>)
    requires Chain(adj, a) && Chain(adj, b) && a[|a| - 1] == b[0]
    ensures Chain(adj, a + b[1..])
  {
    var path := a + b[1..];
    forall i | 0 < i < |path| ensures Hop(adj, path, i) {
      if i < |a| {
        assert Hop(adj, a, i);
      } else {
        assert Hop(adj, b, i - |a| + 1);
      }
    }
  }

  lemma ConnectedTrans(adj: Adj, u: nat, v: nat, w: nat)
    requires Connected(adj, u, v) && Connected(adj, v, w)
    ensures Connected(adj, u, w)
  {
    var a :| Chain(adj, a) && a[0] == u && a[|a| - 1] == v;
    var b :| Chain(adj, b) && b[0] == v && b[|b| - 1] == w;
    Joined(adj, a, b);
    assert (a + b[1..])[|a + b[1..]| - 1] == w;
  }

  /** A value that is the same at both ends of every edge is the same on a component. */
  lemma {:induction false} SameAlongPath(adj: Adj, value: nat -> nat, path: seq<nat>)
    requires Chain(adj, path)
    requires forall u, v :: Edge(adj, u, v) ==> value(u) == value(v)
    ensures value(path[0]) == value(path[|path| - 1])
    decreases |path|
  {
    if |path| > 1 {
      var front := path[..|path| - 1];
      forall i | 0 < i < |front| ensures Hop(adj, front, i) {
        assert Hop(adj, path, i);
      }
      SameAlongPath(adj, value, front);
      assert Hop(adj, path, |path| - 1);
    }
  }

  lemma SameOnComponent(adj: Adj, value: nat -> nat, u: nat, v: nat)
    requires Connected(adj, u, v)
    requires forall a, b :: Edge(adj, a, b) ==> value(a) == value(b)
    ensures value(u) == value(v)
  {
    var path :| Chain(adj, path) && path[0] == u && path[|path| - 1] == v;
    SameAlongPath(adj, value, path);
  }

  /** r is the least vertex of the component of v. */
  ghost predicate LeastOf(adj: Adj, v: nat, r: nat) {
    Connected(adj, v, r) && forall u :: Connected(adj, v, u) ==> r <= u
  }

  // ---------------------------------------------------------------------------
  // A measure of labels and parent links: it falls with each of them

  function Sum(numbers: seq<nat>): nat {
    if numbers == [] then 0 else Sum(numbers[..|numbers| - 1]) + numbers[|numbers| - 1]
  }

  lemma {:induction false} SumLower(numbers: seq<nat>, v: nat, x: nat)
    requires v < |numbers| && x < numbers[v]
    ensures Sum(numbers[v := x]) < Sum(numbers)
  {
    var last := |numbers| - 1;
    if v < last {
      SumLower(numbers[..last], v, x);
      assert numbers[v := x][..last] == numbers[..last][v := x];
    } else {
      assert numbers[v := x][..last] == numbers[..last];
    }
  }
}
