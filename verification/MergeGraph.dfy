/** `build_merged_graph` (src/smo.cc): replay of a page log over its lists. */
module MergeGraph {
  import opened Replay
  import opened Consolidation
  import opened DeltaChain
  import opened Selection

  type Graph = map<Vid, seq<Vid>>

  /** Records about vertices are skipped by the merge. */
  function EdgeRecs(deltas: seq<Record>): seq<Rec> {
    if deltas == [] then [] else
    var front, r := deltas[..|deltas| - 1], deltas[|deltas| - 1];
    if r.edge then EdgeRecs(front) + [RecOf(r)] else EdgeRecs(front)
  }

  /** The edge records of a log, in its order: source, destination, kind. */
  lemma {:induction false} EdgeRecsMean(deltas: seq<Record>) returns (picked: seq<Record>, at: seq<nat>)
    ensures Picks(deltas, picked, at) && forall i: nat :: i in at <==> i < |deltas| && deltas[i].edge
    ensures |EdgeRecs(deltas)| == |picked|
    ensures forall k :: 0 <= k < |picked| ==>
      EdgeRecs(deltas)[k] == Rec(picked[k].first, Op(picked[k].second, picked[k].kind))
  {
    if deltas == [] {
      picked, at := [], [];
    } else {
      var front, last := deltas[..|deltas| - 1], deltas[|deltas| - 1];
      assert deltas == front + [last];
      picked, at := EdgeRecsMean(front);
      at := PicksSnoc(front, picked, at, last, last.edge);
      picked := picked + if last.edge then [last] else [];
    }
  }

  function ListOf(graph: Graph, v: Vid): seq<Vid> {
    if v in graph then graph[v] else []
  }

  lemma ElemsConcat(a: seq<Vid>, b: seq<Vid>)
    ensures Elems(a + b) == Elems(a) + Elems(b)
  {
  }

  lemma ElemsCons(list: seq<Vid>)
    requires list != []
    ensures Elems(list) == {list[0]} + Elems(list[1..])
  {
    assert list == [list[0]] + list[1..];
    ElemsConcat([list[0]], list[1..]);
  }

  function Without(list: seq<Vid>, d: Vid): (r: seq<Vid>)
    ensures Elems(r) == Elems(list) - {d}
  {
    if list == [] then [] else
    ElemsCons(list);
    var rest := Without(list[1..], d);
    ElemsConcat([list[0]], rest);
    if list[0] == d then rest else [list[0]] + rest
  }

  predicate StrictlySorted(list: seq<Vid>) {
    forall i, j :: 0 <= i < j < |list| ==> list[i] < list[j]
  }

  function Place(list: seq<Vid>, x: Vid): seq<Vid> {
    if list == [] || x < list[0] then [x] + list
    else if x == list[0] then list
    else [list[0]] + Place(list[1..], x)
  }

  lemma {:induction false} PlaceElems(list: seq<Vid>, x: Vid)
    ensures Elems(Place(list, x)) == Elems(list) + {x}
  {
    if list == [] || x < list[0] {
      ElemsConcat([x], list);
    } else if x == list[0] {
    } else {
      PlaceElems(list[1..], x);
      ElemsCons(list);
      ElemsConcat([list[0]], Place(list[1..], x));
    }
  }

  lemma {:induction false} PlaceSorted(list: seq<Vid>, x: Vid)
    requires StrictlySorted(list)
    ensures StrictlySorted(Place(list, x))
  {
    if list != [] && list[0] < x {
      var rest := Place(list[1..], x);
      PlaceSorted(list[1..], x);
      PlaceElems(list[1..], x);
      forall i | 0 <= i < |rest| ensures list[0] < rest[i] {
        assert rest[i] in Elems(rest);
      }
    }
  }

  method SortUnique(list: seq<Vid>) returns (r: seq<Vid>)
    ensures StrictlySorted(r) && Elems(r) == Elems(list)
    ensures forall i, j :: 0 <= i < j < |r| ==> r[i] < r[j]
    ensures forall x :: x in r <==> x in list
  {
    r := [];
    for i := 0 to |list|
      invariant StrictlySorted(r) && Elems(r) == Elems(list[..i])
    {
      assert list[..i + 1] == list[..i] + [list[i]];
      ElemsConcat(list[..i], [list[i]]);
      PlaceElems(r, list[i]);
      PlaceSorted(r, list[i]);
      r := Place(r, list[i]);
    }
    assert list[..|list|] == list;
    forall x ensures x in r <==> x in list {
      assert x in Elems(r) <==> x in Elems(list);
    }
  }

  /** The state of the merge after a prefix of the log. */
  ghost predicate MergedSoFar(lists: Graph, recs: seq<Rec>, graph: Graph) {
    && (forall v :: v in graph <==> v in lists || exists d :: Rec(v, Op(d, Insert)) in recs)
    && (forall v :: Elems(ListOf(graph, v)) == Run(Elems(ListOf(lists, v)), Proj(recs, v)))
  }

  /** A deletion for a vertex the page does not hold finds nothing to delete. */
  function MergeOne(graph: Graph, r: Record): Graph {
    if !r.edge then graph
    else if r.kind == Insert then graph[r.first := ListOf(graph, r.first) + [r.second]]
    else if r.first in graph then graph[r.first := Without(graph[r.first], r.second)]
    else graph
  }

  lemma MergeOneElems(graph: Graph, r: Record, v: Vid)
    requires r.edge
    ensures Elems(ListOf(MergeOne(graph, r), v))
         == if v == r.first then Apply(Elems(ListOf(graph, v)), OpOf(r)) else Elems(ListOf(graph, v))
  {
    if v == r.first {
      ElemsConcat(ListOf(graph, v), [r.second]);
    }
  }

  lemma MergeOneList(list: seq<Vid>, recs: seq<Rec>, graph: Graph, r: Record, v: Vid)
    requires Elems(ListOf(graph, v)) == Run(Elems(list), Proj(recs, v)) && r.edge
    ensures Elems(ListOf(MergeOne(graph, r), v)) == Run(Elems(list), Proj(recs + [RecOf(r)], v))
  {
    MergeOneElems(graph, r, v);
    ProjSnoc(recs, RecOf(r), v);
    RunSnoc(Elems(list), Proj(recs, v), OpOf(r));
  }

  lemma MergeOneKeys(lists: Graph, recs: seq<Rec>, graph: Graph, r: Record, v: Vid)
    requires MergedSoFar(lists, recs, graph) && r.edge
    ensures v in MergeOne(graph, r) <==> v in lists || exists d :: Rec(v, Op(d, Insert)) in recs + [RecOf(r)]
  {
    var recs' := recs + [RecOf(r)];
    if v in graph && v !in lists {
      var d :| Rec(v, Op(d, Insert)) in recs;
      assert Rec(v, Op(d, Insert)) in recs';
    }
    if r.kind == Insert && v == r.first {
      assert Rec(v, Op(r.second, Insert)) == recs'[|recs|];
    }
  }

  lemma MergeOneStep(lists: Graph, recs: seq<Rec>, graph: Graph, r: Record)
    requires MergedSoFar(lists, recs, graph) && r.edge
    ensures MergedSoFar(lists, recs + [RecOf(r)], MergeOne(graph, r))
  {
    forall v
      ensures Elems(ListOf(MergeOne(graph, r), v)) == Run(Elems(ListOf(lists, v)), Proj(recs + [RecOf(r)], v))
    {
      MergeOneList(ListOf(lists, v), recs, graph, r, v);
    }
    forall v
      ensures v in MergeOne(graph, r) <==> v in lists || exists d :: Rec(v, Op(d, Insert)) in recs + [RecOf(r)]
    {
      MergeOneKeys(lists, recs, graph, r, v);
    }
  }

  /** Sort and deduplicate every list. */
  method NormalizeAll(graph: Graph) returns (r: Graph)
    ensures r.Keys == graph.Keys
    ensures forall v :: v in r ==> StrictlySorted(r[v]) && Elems(r[v]) == Elems(graph[v])
  {
    r := graph;
    var todo := graph.Keys;
    while todo != {}
      invariant r.Keys == graph.Keys && todo <= graph.Keys
      invariant forall v :: v in r ==> Elems(r[v]) == Elems(graph[v])
      invariant forall v :: v in r && v !in todo ==> StrictlySorted(r[v])
      decreases todo
    {
      var v :| v in todo;
      var list := SortUnique(r[v]);
      r := r[v := list];
      todo := todo - {v};
    }
  }

  /** The merged graph has a sorted, duplicate-free list for every vertex of the page
   *  and for every vertex an edge was inserted for, and each list is what a reader
   *  of the page with the whole log as delta chain would see. */
  method BuildMergedGraph(lists: Graph, deltas: seq<Record>) returns (graph: Graph)
    ensures forall v :: v in graph <==> v in lists || exists d :: Rec(v, Op(d, Insert)) in EdgeRecs(deltas)
    ensures forall v :: v in graph ==> forall i, j :: 0 <= i < j < |graph[v]| ==> graph[v][i] < graph[v][j]
    ensures forall v :: v in graph ==>
      Elems(graph[v]) == Run(Elems(ListOf(lists, v)), Proj(EdgeRecs(deltas), v))
  {
    graph := lists;
    for i := 0 to |deltas|
      invariant MergedSoFar(lists, EdgeRecs(deltas[..i]), graph)
    {
      assert deltas[..i + 1][..i] == deltas[..i];
      if deltas[i].edge {
        MergeOneStep(lists, EdgeRecs(deltas[..i]), graph, deltas[i]);
        if deltas[i].kind == Insert {
          graph := graph[deltas[i].first := ListOf(graph, deltas[i].first) + [deltas[i].second]];
        } else if deltas[i].first in graph {
          graph := graph[deltas[i].first := Without(graph[deltas[i].first], deltas[i].second)];
        }
      }
    }
    assert deltas[..|deltas|] == deltas;
    ghost var raw := graph;
    graph := NormalizeAll(graph);
    forall v | v in graph
      ensures Elems(graph[v]) == Run(Elems(ListOf(lists, v)), Proj(EdgeRecs(deltas), v))
    {
      assert Elems(ListOf(raw, v)) == Run(Elems(ListOf(lists, v)), Proj(EdgeRecs(deltas), v));
    }
  }
}
