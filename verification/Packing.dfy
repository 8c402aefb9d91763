/** Packing adjacency lists into pages, uncompressed and without timestamps
 * (src/builder.cc, the split loop of src/smo.cc, src/io_csr.cc). */
module Packing {
  import Graph

  type Vid = nat

  const HEADER_BYTES := 16
  const MAX_BLOCK_NEIGHBOR := 16
  const VERTEX_BYTES := 12
  const ID_BYTES := 4
  const UINT16_MAX := 65535
  const GIANT_DEGREE_BOUND := 128

  /** Header and neighbour-block array. */
  const FIXED_BYTES := HEADER_BYTES + MAX_BLOCK_NEIGHBOR * ID_BYTES

  /** csr_vertex_t. */
  datatype Entry = Entry(id: Vid, degree: nat, offset: nat)

  /** A page as it is stored: header fields, vertex array, neighbour data. */
  datatype Image = Image(numVertices: nat, numEdges: nat, usedBytes: nat, neighborPages: nat,
                         vertices: seq<Entry>, data: seq<Vid>)

  /** A vertex to pack: its list and the insertion slots reserved for it. */
  datatype Vertex = Vertex(id: Vid, neighbors: seq<Vid>, slots: nat)

  predicate IsGiant(v: Vertex) {
    |v.neighbors| >= GIANT_DEGREE_BOUND
  }

  /** Entries of the neighbour data that a vertex takes. */
  function Words(v: Vertex): nat {
    if IsGiant(v) then 0 else |v.neighbors| + v.slots
  }

  function Cost(v: Vertex): nat {
    VERTEX_BYTES + Words(v) * ID_BYTES
  }

  /** The vertex fits on a page of its own. */
  predicate FitsAlone(v: Vertex, pageSize: nat) {
    FIXED_BYTES + Cost(v) <= pageSize
  }

  // ---------------------------------------------------------------------------
  // Reading a page

  function Zeros(n: nat): (r: seq<Vid>)
    ensures |r| == n
  {
    seq(n, i => 0)
  }

  /** get_neighbors: nothing for an index beyond the page and for a giant degree. */
  function Neighbors(vertices: seq<Entry>, data: seq<Vid>, k: nat): seq<Vid> {
    if k >= |vertices| || vertices[k].degree >= GIANT_DEGREE_BOUND then []
    else
      var start := vertices[k].offset / ID_BYTES;
      if start + vertices[k].degree <= |data| then data[start..start + vertices[k].degree] else []
  }

  // ---------------------------------------------------------------------------
  // What the builder holds

  /** The vertices packed so far, as entries. */
  function Entries(vs: seq<Vertex>): (r: seq<Entry>)
    ensures |r| == |vs|
  {
    if vs == [] then []
    else
      var front, last := vs[..|vs| - 1], vs[|vs| - 1];
      Entries(front) + [Entry(last.id, |last.neighbors|, if IsGiant(last) then 0 else DataOf(front, |front|) * ID_BYTES)]
  }

  /** How much neighbour data the first k vertices take. */
  function DataOf(vs: seq<Vertex>, k: nat): nat
    requires k <= |vs|
  {
    if k == 0 then 0 else DataOf(vs, k - 1) + Words(vs[k - 1])
  }

  /** The neighbour data: lists and empty slots, one after the other. */
  function Data(vs: seq<Vertex>): seq<Vid> {
    if vs == [] then []
    else
      var last := vs[|vs| - 1];
      Data(vs[..|vs| - 1]) + if IsGiant(last) then [] else last.neighbors + Zeros(last.slots)
  }

  lemma {:induction false} DataPrefix(vs: seq<Vertex>, more: seq<Vertex>, k: nat)
    requires k <= |vs|
    ensures DataOf(vs + more, k) == DataOf(vs, k)
  {
    if k > 0 {
      DataPrefix(vs, more, k - 1);
    }
  }

  lemma {:induction false} DataLength(vs: seq<Vertex>)
    ensures |Data(vs)| == DataOf(vs, |vs|)
  {
    if vs != [] {
      var front, last := vs[..|vs| - 1], vs[|vs| - 1];
      assert vs == front + [last];
      DataLength(front);
      DataPrefix(front, [last], |front|);
    }
  }

  lemma EntriesSnoc(vs: seq<Vertex>, v: Vertex)
    ensures Entries(vs + [v]) == Entries(vs) + [Entry(v.id, |v.neighbors|, if IsGiant(v) then 0 else |Data(vs)| * ID_BYTES)]
    ensures Data(vs + [v]) == Data(vs) + if IsGiant(v) then [] else v.neighbors + Zeros(v.slots)
    ensures |Data(vs + [v])| == |Data(vs)| + Words(v)
  {
    assert (vs + [v])[..|vs|] == vs;
    DataLength(vs);
  }

  /** Every vertex of the page reads back as the list that was packed; a giant reads as
   *  empty, its list being kept elsewhere. */
  lemma {:induction false} ReadsBack(vs: seq<Vertex>, k: nat)
    requires k < |vs|
    ensures Entries(vs)[k].id == vs[k].id
    ensures Neighbors(Entries(vs), Data(vs), k)
         == if |vs[k].neighbors| >= GIANT_DEGREE_BOUND then [] else vs[k].neighbors
    decreases |vs|
  {
    var front, last := vs[..|vs| - 1], vs[|vs| - 1];
    assert vs == front + [last];
    EntriesSnoc(front, last);
    if k < |front| {
      ReadsBack(front, k);
      NeighborsGrow(Entries(front), Data(front), Entries(vs), Data(vs), k);
      InData(front, k);
    } else if !IsGiant(last) {
      var start := |Data(front)|;
      assert Data(vs)[start..start + |last.neighbors|] == last.neighbors;
    }
  }

  /** A list stays readable when vertices and data are added behind. */
  lemma NeighborsGrow(vertices: seq<Entry>, data: seq<Vid>, vertices': seq<Entry>, data': seq<Vid>, k: nat)
    requires k < |vertices| && vertices <= vertices' && data <= data'
    ensures (vertices[k].degree < GIANT_DEGREE_BOUND ==> vertices[k].offset / ID_BYTES + vertices[k].degree <= |data|) ==>
      Neighbors(vertices', data', k) == Neighbors(vertices, data, k)
  {
  }

  /** Every packed list lies inside the data. */
  lemma {:induction false} InData(vs: seq<Vertex>, k: nat)
    requires k < |vs|
    ensures Entries(vs)[k].degree == |vs[k].neighbors|
    ensures !IsGiant(vs[k]) ==> Entries(vs)[k].offset / ID_BYTES + Entries(vs)[k].degree <= |Data(vs)|
    ensures Entries(vs)[k].offset <= |Data(vs)| * ID_BYTES
    decreases |vs|
  {
    var front, last := vs[..|vs| - 1], vs[|vs| - 1];
    assert vs == front + [last];
    EntriesSnoc(front, last);
    if k < |front| {
      InData(front, k);
    }
  }

  /** Bytes of a page with these vertices. */
  function PageBytes(vs: seq<Vertex>): nat {
    FIXED_BYTES + |vs| * VERTEX_BYTES + |Data(vs)| * ID_BYTES
  }

  /** The ids on the list of giants. */
  function Ids(giants: seq<(Vid, seq<Vid>)>): (ids: set<Vid>)
    ensures forall g :: g in giants ==> g.0 in ids
  {
    set g | g in giants :: g.0
  }

  /** Degrees of the vertices whose id is not on the list of giants. */
  function EdgeCount(vs: seq<Vertex>, ids: set<Vid>): nat {
    if vs == [] then 0
    else EdgeCount(vs[..|vs| - 1], ids) + if vs[|vs| - 1].id in ids then 0 else |vs[|vs| - 1].neighbors|
  }

  /** The lengths of the lists that are not on the list of giants. */
  function Lengths(vs: seq<Vertex>, ids: set<Vid>): (lengths: seq<nat>)
    ensures |lengths| == |vs|
    ensures forall k :: 0 <= k < |vs| ==> lengths[k] == if vs[k].id in ids then 0 else |vs[k].neighbors|
  {
    seq(|vs|, k requires 0 <= k < |vs| => if vs[k].id in ids then 0 else |vs[k].neighbors|)
  }

  lemma {:induction false} EdgesAreLengths(vs: seq<Vertex>, ids: set<Vid>)
    ensures EdgeCount(vs, ids) == Graph.Sum(Lengths(vs, ids))
  {
    if vs != [] {
      EdgesAreLengths(vs[..|vs| - 1], ids);
      assert Lengths(vs, ids)[..|vs| - 1] == Lengths(vs[..|vs| - 1], ids);
    }
  }

  lemma {:induction false} EdgesInData(vs: seq<Vertex>, ids: set<Vid>)
    requires forall v :: v in vs && IsGiant(v) ==> v.id in ids
    ensures EdgeCount(vs, ids) <= |Data(vs)|
  {
    if vs != [] {
      var front, last := vs[..|vs| - 1], vs[|vs| - 1];
      assert vs == front + [last] && last in vs;
      assert forall v :: v in front ==> v in vs;
      EdgesInData(front, ids);
    }
  }

  function Built(vs: seq<Vertex>, ids: set<Vid>): Image {
    Image(|vs|, EdgeCount(vs, ids), PageBytes(vs), 0, Entries(vs), Data(vs))
  }

  // ---------------------------------------------------------------------------
  // Parsing

  /** parse_from_page_data: the checks on the header. */
  predicate Parses(page: Image, pageSize: nat) {
    || (page.numVertices == 0 && page.numEdges == 0)
    || (&& page.numVertices > 0 && page.neighborPages <= MAX_BLOCK_NEIGHBOR
        && FIXED_BYTES + page.numVertices * VERTEX_BYTES <= page.usedBytes <= pageSize)
  }

  /** A page of packed vertices within the page size passes every check: 16-bit counts and
   *  offsets, and the header. */
  lemma BuiltIsSound(vs: seq<Vertex>, ids: set<Vid>, pageSize: nat)
    requires vs != [] && PageBytes(vs) <= pageSize <= UINT16_MAX + 1
    requires forall v :: v in vs && IsGiant(v) ==> v.id in ids
    ensures |vs| <= UINT16_MAX && EdgeCount(vs, ids) <= UINT16_MAX
    ensures Parses(Built(vs, ids), pageSize)
    ensures forall k :: 0 <= k < |vs| ==> Entries(vs)[k].offset <= UINT16_MAX
  {
    EdgesInData(vs, ids);
    forall k | 0 <= k < |vs| ensures Entries(vs)[k].offset <= UINT16_MAX {
      InData(vs, k);
    }
  }

  // ---------------------------------------------------------------------------
  // The builder

  datatype AddOutcome = Added | Full | OffsetOverflow

  datatype Result<T> = Ok(value: T) | Err

  /** The parallel vectors of a builder hold these vertices. */
  ghost predicate Holds(vertices: seq<Vid>, degrees: seq<nat>, offsets: seq<nat>, edges: seq<Vid>, vs: seq<Vertex>) {
    && |vertices| == |degrees| == |offsets| == |vs|
    && (forall k :: 0 <= k < |vs| ==> Entries(vs)[k] == Entry(vertices[k], degrees[k], offsets[k]))
    && edges == Data(vs)
  }

  lemma HoldsMore(vertices: seq<Vid>, degrees: seq<nat>, offsets: seq<nat>, edges: seq<Vid>, vs: seq<Vertex>, v: Vertex)
    requires Holds(vertices, degrees, offsets, edges, vs)
    ensures Holds(vertices + [v.id], degrees + [|v.neighbors|],
                  offsets + [if IsGiant(v) then 0 else |edges| * ID_BYTES],
                  edges + if IsGiant(v) then [] else v.neighbors + Zeros(v.slots), vs + [v])
    ensures |Data(vs + [v])| == |Data(vs)| + Words(v)
  {
    hide Entries, Data;
    EntriesSnoc(vs, v);
  }

  lemma MoreIds(giants: seq<(Vid, seq<Vid>)>, g: (Vid, seq<Vid>))
    ensures Ids(giants + [g]) == Ids(giants) + {g.0}
  {
    assert g in giants + [g];
    forall id | id in Ids(giants) ensures id in Ids(giants + [g]) {
      var h :| h in giants && h.0 == id;
      assert h in giants + [g];
    }
  }

  /** csr_page_builder_t. */
  class Builder {
    const pageSize: nat
    var vertices: seq<Vid>
    var degrees: seq<nat>
    var offsets: seq<nat>
    var edges: seq<Vid>
    var currentEdgeOffset: nat
    var giants: seq<(Vid, seq<Vid>)>
    ghost var packed: seq<Vertex>

    ghost predicate Valid()
      reads this
    {
      && Holds(vertices, degrees, offsets, edges, packed) && currentEdgeOffset == |edges| * ID_BYTES
      && forall v :: v in packed && IsGiant(v) ==> v.id in Ids(giants)
    }

    constructor (pageSize: nat)
      ensures Valid() && packed == [] && giants == [] && this.pageSize == pageSize
    {
      this.pageSize := pageSize;
      vertices, degrees, offsets, edges, currentEdgeOffset, giants, packed := [], [], [], [], 0, [], [];
    }

    lemma BuilderSize()
      requires Valid()
      ensures |vertices| == |degrees| == |offsets| == |packed| && edges == Data(packed)
    {
    }

    method EstimatedSize() returns (bytes: nat)
      requires Valid()
      ensures bytes == PageBytes(packed)
      ensures bytes == 80 + 12 * |packed| + 4 * |Data(packed)|
    {
      bytes := HEADER_BYTES + MAX_BLOCK_NEIGHBOR * ID_BYTES + |vertices| * VERTEX_BYTES + |edges| * ID_BYTES;
    }

    /** add_vertex: refused if the page would overflow, unless it is empty. */
    method AddVertex(v: Vertex) returns (outcome: AddOutcome)
      requires Valid()
      modifies this
      ensures Valid()
      ensures outcome == Full <==> PageBytes(old(packed)) + Cost(v) > pageSize && old(packed) != []
      ensures outcome == OffsetOverflow ==> |Data(old(packed))| * ID_BYTES > UINT16_MAX
      ensures outcome == Added <==>
        (PageBytes(old(packed)) + Cost(v) <= pageSize || old(packed) == [])
        && (IsGiant(v) || |Data(old(packed))| * ID_BYTES <= UINT16_MAX)
      ensures packed == if outcome == Added then old(packed) + [v] else old(packed)
      ensures giants == if outcome == Added && |v.neighbors| >= GIANT_DEGREE_BOUND then old(giants) + [(v.id, v.neighbors)]
                        else old(giants)
    {
      hide Holds, Entries, Data;
      BuilderSize();
      var degree := |v.neighbors|;
      var isGiant := degree >= GIANT_DEGREE_BOUND;
      var size := EstimatedSize();
      size := size + VERTEX_BYTES;
      if !isGiant {
        size := size + (degree + v.slots) * ID_BYTES;
      }
      if size > pageSize && vertices != [] {
        return Full;
      }
      if !isGiant && currentEdgeOffset > UINT16_MAX {
        return OffsetOverflow;
      }
      HoldsMore(vertices, degrees, offsets, edges, packed, v);
      assert edges + [] == edges;
      vertices, degrees := vertices + [v.id], degrees + [degree];
      if isGiant {
        offsets := offsets + [0];
        MoreIds(giants, (v.id, v.neighbors));
        giants := giants + [(v.id, v.neighbors)];
      } else {
        offsets := offsets + [currentEdgeOffset];
        edges := edges + (v.neighbors + Zeros(v.slots));
        currentEdgeOffset := currentEdgeOffset + (degree + v.slots) * ID_BYTES;
      }
      packed := packed + [v];
      outcome := Added;
    }

    /** Sum the degrees of the vertices that are not on the list of giants. */
    method CountEdges() returns (count: nat)
      requires Valid()
      ensures count == EdgeCount(packed, Ids(giants))
    {
      count := 0;
      ghost var ids := Ids(giants);
      var giantSet := GiantSet();
      for i := 0 to |vertices|
        invariant count == EdgeCount(packed[..i], ids)
      {
        assert packed[..i + 1][..i] == packed[..i];
        InData(packed, i);
        ReadsBack(packed, i);
        if vertices[i] !in giantSet {
          count := count + degrees[i];
        }
      }
      assert packed[..|packed|] == packed;
    }

    method GiantSet() returns (ids: set<Vid>)
      ensures ids == Ids(giants)
    {
      ids := {};
      for i := 0 to |giants|
        invariant ids == Ids(giants[..i])
      {
        MoreIds(giants[..i], giants[i]);
        assert giants[..i + 1] == giants[..i] + [giants[i]];
        ids := ids + {giants[i].0};
      }
      assert giants[..|giants|] == giants;
    }

    /** clear_all: the list of giants stays. */
    method ClearAll()
      modifies this
      ensures Valid() && packed == [] && giants == old(giants)
    {
      currentEdgeOffset, edges, vertices, degrees, offsets, packed := 0, [], [], [], [], [];
    }

    lemma EntryHere(i: nat)
      requires Valid() && i < |vertices|
      ensures |vertices| == |degrees| == |offsets| == |packed|
      ensures Entries(packed)[i] == Entry(vertices[i], degrees[i], offsets[i]) && packed[i].id == vertices[i]
    {
      ReadsBack(packed, i);
    }

    /** The vertex array and the index of every vertex. */
    method WriteVertices() returns (entries: seq<Entry>, vertexMap: seq<(Vid, nat)>)
      requires Valid()
      ensures entries == Entries(packed) && |vertexMap| == |packed|
      ensures forall k :: 0 <= k < |vertexMap| ==> vertexMap[k] == (packed[k].id, k)
    {
      hide Holds, Entries, Data;
      BuilderSize();
      entries, vertexMap := [], [];
      for i := 0 to |vertices|
        invariant |entries| == i && entries == Entries(packed)[..i]
        invariant |vertexMap| == i && forall k :: 0 <= k < i ==> vertexMap[k] == (packed[k].id, k)
      {
        EntryHere(i);
        entries := entries + [Entry(vertices[i], degrees[i], offsets[i])];
        vertexMap := vertexMap + [(vertices[i], i)];
      }
    }

    /** build: the page image and the index of every vertex.  It fails for an empty
     *  builder, for counts beyond 16 bits and for more bytes than a page has. */
    method Build() returns (page: Result<Image>, vertexMap: seq<(Vid, nat)>)
      requires Valid()
      modifies this
      ensures Valid() && giants == old(giants)
      ensures page.Ok? <==>
        var vs := old(packed);
        vs != [] && |vs| <= UINT16_MAX && EdgeCount(vs, Ids(giants)) <= UINT16_MAX && PageBytes(vs) <= pageSize
      ensures page.Ok? ==>
        && page.value == Built(old(packed), Ids(giants)) && packed == []
        && page.value.numEdges == Graph.Sum(Lengths(old(packed), Ids(giants)))
        && |vertexMap| == |old(packed)|
        && forall k :: 0 <= k < |vertexMap| ==> vertexMap[k] == (old(packed)[k].id, k)
      ensures page.Err? ==> packed == old(packed)
    {
      hide Holds, Entries, Data, EdgeCount, Lengths;
      BuilderSize();
      vertexMap := [];
      if vertices == [] {
        return Err, vertexMap;
      }
      var numEdges := CountEdges();
      EdgesAreLengths(packed, Ids(giants));
      var totalSize := EstimatedSize();
      if |vertices| > UINT16_MAX || numEdges > UINT16_MAX || totalSize > pageSize {
        return Err, vertexMap;
      }
      var entries;
      entries, vertexMap := WriteVertices();
      page := Ok(Image(|vertices|, numEdges, totalSize, 0, entries, edges));
      ClearAll();
    }
  }

  // ---------------------------------------------------------------------------
  // Splitting a list of vertices over pages

  function Flat(groups: seq<seq<Vertex>>): seq<Vertex> {
    if groups == [] then [] else Flat(groups[..|groups| - 1]) + groups[|groups| - 1]
  }

  lemma FlatSnoc(groups: seq<seq<Vertex>>, group: seq<Vertex>)
    ensures Flat(groups + [group]) == Flat(groups) + group
  {
    assert (groups + [group])[..|groups|] == groups;
  }

  predicate DistinctIds(vs: seq<Vertex>) {
    forall i, j :: 0 <= i < j < |vs| ==> vs[i].id != vs[j].id
  }

  function IdsOf(vs: seq<Vertex>): (ids: set<Vid>)
    ensures forall v :: v in vs ==> v.id in ids
  {
    set v | v in vs :: v.id
  }

  /** Page g holds group g: its entries and data, within the page size. */
  ghost predicate PageHolds(page: Image, group: seq<Vertex>, pageSize: nat) {
    && group != [] && page.vertices == Entries(group) && page.data == Data(group)
    && PageBytes(group) <= pageSize && Parses(page, pageSize)
  }

  ghost predicate PagesHold(pages: seq<Image>, groups: seq<seq<Vertex>>, pageSize: nat): (ok: bool)
    ensures ok ==> |pages| == |groups|
  {
    |pages| == |groups| && forall g :: 0 <= g < |groups| ==> PageHolds(pages[g], groups[g], pageSize)
  }

  /** Every vertex of every group is located at its page and position, and nothing else is. */
  ghost predicate Located(groups: seq<seq<Vertex>>, locations: map<Vid, (nat, nat)>) {
    && locations.Keys == IdsOf(Flat(groups))
    && forall g, k :: 0 <= g < |groups| && 0 <= k < |groups[g]| ==> At(groups, locations, g, k)
  }

  ghost predicate At(groups: seq<seq<Vertex>>, locations: map<Vid, (nat, nat)>, g: nat, k: nat)
    requires g < |groups| && k < |groups[g]|
  {
    groups[g][k].id in locations && locations[groups[g][k].id] == (g, k)
  }

  lemma {:induction false} GroupInFlat(groups: seq<seq<Vertex>>, g: nat, k: nat)
    requires g < |groups| && k < |groups[g]|
    ensures groups[g][k] in Flat(groups)
    decreases |groups|
  {
    var last := |groups| - 1;
    if g < last {
      GroupInFlat(groups[..last], g, k);
    }
  }

  lemma {:induction false} FlatInGroup(groups: seq<seq<Vertex>>, v: Vertex) returns (g: nat, k: nat)
    requires v in Flat(groups)
    ensures g < |groups| && k < |groups[g]| && groups[g][k] == v
    decreases |groups|
  {
    var last := |groups| - 1;
    if v in Flat(groups[..last]) {
      g, k := FlatInGroup(groups[..last], v);
    } else {
      g := last;
      k :| 0 <= k < |groups[last]| && groups[last][k] == v;
    }
  }

  /** The locations of a group just written. */
  method Locate(vertexMap: seq<(Vid, nat)>, page: nat, locations: map<Vid, (nat, nat)>)
    returns (located: map<Vid, (nat, nat)>)
    requires forall i, j :: 0 <= i < j < |vertexMap| ==> vertexMap[i].0 != vertexMap[j].0
    ensures forall k :: 0 <= k < |vertexMap| ==> vertexMap[k].0 in located && located[vertexMap[k].0] == (page, vertexMap[k].1)
    ensures forall id :: id in located <==> id in locations || exists k :: 0 <= k < |vertexMap| && vertexMap[k].0 == id
    ensures forall id :: id in locations && (forall k :: 0 <= k < |vertexMap| ==> vertexMap[k].0 != id) ==>
      located[id] == locations[id]
  {
    located := locations;
    for i := 0 to |vertexMap|
      invariant forall k :: 0 <= k < i ==> vertexMap[k].0 in located && located[vertexMap[k].0] == (page, vertexMap[k].1)
      invariant forall id :: id in located <==> id in locations || exists k :: 0 <= k < i && vertexMap[k].0 == id
      invariant forall id :: id in locations && (forall k :: 0 <= k < i ==> vertexMap[k].0 != id) ==>
        located[id] == locations[id]
    {
      located := located[vertexMap[i].0 := (page, vertexMap[i].1)];
    }
  }

  /** `located` is `locations` with the k-th vertex of the group at (page, k). */
  ghost predicate Adds(locations: map<Vid, (nat, nat)>, group: seq<Vertex>, page: nat, located: map<Vid, (nat, nat)>) {
    && (forall k :: 0 <= k < |group| ==> group[k].id in located && located[group[k].id] == (page, k))
    && (forall id :: id in located <==> id in locations || HasId(group, id))
    && (forall id :: id in locations && !HasId(group, id) ==> located[id] == locations[id])
  }

  predicate HasId(group: seq<Vertex>, id: Vid) {
    exists k :: 0 <= k < |group| && group[k].id == id
  }

  lemma MapAdds(locations: map<Vid, (nat, nat)>, group: seq<Vertex>, page: nat, located: map<Vid, (nat, nat)>,
                vertexMap: seq<(Vid, nat)>)
    requires |vertexMap| == |group| && forall k :: 0 <= k < |vertexMap| ==> vertexMap[k] == (group[k].id, k)
    requires forall k :: 0 <= k < |vertexMap| ==> vertexMap[k].0 in located && located[vertexMap[k].0] == (page, vertexMap[k].1)
    requires forall id :: id in located <==> id in locations || exists k :: 0 <= k < |vertexMap| && vertexMap[k].0 == id
    requires forall id :: id in locations && (forall k :: 0 <= k < |vertexMap| ==> vertexMap[k].0 != id) ==>
      located[id] == locations[id]
    ensures Adds(locations, group, page, located)
  {
    forall id ensures HasId(group, id) <==> exists k :: 0 <= k < |vertexMap| && vertexMap[k].0 == id {
      if HasId(group, id) {
        var k :| 0 <= k < |group| && group[k].id == id;
        assert vertexMap[k].0 == id;
      }
    }
    forall k | 0 <= k < |group| ensures group[k].id in located && located[group[k].id] == (page, k) {
      assert vertexMap[k].0 in located;
    }
  }

  lemma LocatedKeys(groups: seq<seq<Vertex>>, locations: map<Vid, (nat, nat)>, group: seq<Vertex>, page: nat,
                    located: map<Vid, (nat, nat)>)
    requires locations.Keys == IdsOf(Flat(groups)) && Adds(locations, group, page, located)
    ensures located.Keys == IdsOf(Flat(groups) + group)
  {
    hide Flat;
    forall id ensures id in located <==> id in IdsOf(Flat(groups) + group) {
      if id in IdsOf(Flat(groups)) {
        var v :| v in Flat(groups) && v.id == id;
        assert v in Flat(groups) + group;
      }
      if HasId(group, id) {
        var k :| 0 <= k < |group| && group[k].id == id;
        assert group[k] in Flat(groups) + group;
      }
      if id in IdsOf(Flat(groups) + group) {
        var v :| v in Flat(groups) + group && v.id == id;
        assert v in Flat(groups) || v in group;
      }
    }
  }

  /** One more group: its vertices are new. */
  lemma LocatedMore(groups: seq<seq<Vertex>>, locations: map<Vid, (nat, nat)>, group: seq<Vertex>,
                    located: map<Vid, (nat, nat)>)
    requires Located(groups, locations) && DistinctIds(Flat(groups) + group)
    requires Adds(locations, group, |groups|, located)
    ensures Located(groups + [group], located)
  {
    hide Flat, DistinctIds, IdsOf;
    FlatSnoc(groups, group);
    LocatedKeys(groups, locations, group, |groups|, located);
    var groups' := groups + [group];
    forall g, k | 0 <= g < |groups'| && 0 <= k < |groups'[g]| ensures At(groups', located, g, k) {
      if g < |groups| {
        assert At(groups, locations, g, k);
        GroupInFlat(groups, g, k);
        NewIds(Flat(groups), group, groups[g][k]);
      }
    }
  }

  lemma NewIds(before: seq<Vertex>, group: seq<Vertex>, v: Vertex)
    requires DistinctIds(before + group) && v in before
    ensures !HasId(group, v.id)
  {
    var i :| 0 <= i < |before| && before[i] == v;
    forall k | 0 <= k < |group| ensures group[k].id != v.id {
      assert (before + group)[i] == v && (before + group)[|before| + k] == group[k];
    }
  }

  lemma PageBytesMore(vs: seq<Vertex>, v: Vertex)
    ensures PageBytes(vs + [v]) == PageBytes(vs) + Cost(v)
    ensures PageBytes([]) == FIXED_BYTES && PageBytes([v]) == FIXED_BYTES + Cost(v)
  {
    EntriesSnoc(vs, v);
    EntriesSnoc([], v);
    assert [] + [v] == [v];
  }

  lemma {:induction false} MemberFits(vs: seq<Vertex>, pageSize: nat, v: Vertex)
    requires PageBytes(vs) <= pageSize && v in vs
    ensures FitsAlone(v, pageSize)
  {
    var front, last := vs[..|vs| - 1], vs[|vs| - 1];
    assert vs == front + [last];
    PageBytesMore(front, last);
    if v in front {
      MemberFits(front, pageSize, v);
    }
  }

  /** The builder between two vertices: its page still fits, or it holds one vertex that
   *  fits no page. */
  ghost predicate Current(vs: seq<Vertex>, pageSize: nat) {
    PageBytes(vs) <= pageSize || vs == [] || (|vs| == 1 && !FitsAlone(vs[0], pageSize))
  }

  /** Every vertex is on exactly one page, at a 16-bit offset, and reads back as its list;
   *  nothing else is on the pages. */
  ghost predicate IsPacked(vs: seq<Vertex>, pageSize: nat, pages: seq<Image>, locations: map<Vid, (nat, nat)>) {
    && locations.Keys == IdsOf(vs)
    && (forall p :: 0 <= p < |pages| ==> Parses(pages[p], pageSize))
    && (forall v :: v in vs ==> FoundAt(v, pages, locations))
    && (forall p, k :: 0 <= p < |pages| && 0 <= k < |pages[p].vertices| ==> Named(pages, locations, p, k))
  }

  ghost predicate FoundAt(v: Vertex, pages: seq<Image>, locations: map<Vid, (nat, nat)>) {
    v.id in locations
    && var (p, k) := locations[v.id];
       && p < |pages| && k < |pages[p].vertices|
       && pages[p].vertices[k].id == v.id && pages[p].vertices[k].offset <= UINT16_MAX
       && Neighbors(pages[p].vertices, pages[p].data, k) == if IsGiant(v) then [] else v.neighbors
  }

  /** The k-th vertex of page p is located there. */
  ghost predicate Named(pages: seq<Image>, locations: map<Vid, (nat, nat)>, p: nat, k: nat)
    requires p < |pages| && k < |pages[p].vertices|
  {
    pages[p].vertices[k].id in locations && locations[pages[p].vertices[k].id] == (p, k)
  }

  lemma GroupsArePacked(groups: seq<seq<Vertex>>, pageSize: nat, pages: seq<Image>, locations: map<Vid, (nat, nat)>)
    requires PagesHold(pages, groups, pageSize) && Located(groups, locations) && pageSize <= UINT16_MAX + 1
    ensures IsPacked(Flat(groups), pageSize, pages, locations)
    ensures forall v :: v in Flat(groups) ==> FitsAlone(v, pageSize)
  {
    forall p | 0 <= p < |pages| ensures Parses(pages[p], pageSize) {
      assert PageHolds(pages[p], groups[p], pageSize);
    }
    forall v | v in Flat(groups) ensures FoundAt(v, pages, locations) && FitsAlone(v, pageSize) {
      var g, k := FlatInGroup(groups, v);
      assert PageHolds(pages[g], groups[g], pageSize) && At(groups, locations, g, k);
      ReadsBack(groups[g], k);
      InData(groups[g], k);
      MemberFits(groups[g], pageSize, v);
    }
    forall p, k | 0 <= p < |pages| && 0 <= k < |pages[p].vertices| ensures Named(pages, locations, p, k) {
      assert PageHolds(pages[p], groups[p], pageSize) && At(groups, locations, p, k);
      ReadsBack(groups[p], k);
    }
  }

  /** flush_current_page: build the page, locate its vertices. */
  method Flush(builder: Builder, pages: seq<Image>, locations: map<Vid, (nat, nat)>, ghost groups: seq<seq<Vertex>>)
    returns (ok: bool, pages': seq<Image>, locations': map<Vid, (nat, nat)>, ghost groups': seq<seq<Vertex>>)
    requires builder.Valid() && builder.pageSize <= UINT16_MAX + 1 && Current(builder.packed, builder.pageSize)
    requires PagesHold(pages, groups, builder.pageSize) && Located(groups, locations)
    requires DistinctIds(Flat(groups) + builder.packed)
    modifies builder
    ensures builder.Valid()
    ensures ok <==> old(builder.packed) == [] || PageBytes(old(builder.packed)) <= builder.pageSize
    ensures ok ==>
      && builder.packed == [] && Flat(groups') == Flat(groups) + old(builder.packed)
      && groups' == (if old(builder.packed) == [] then groups else groups + [old(builder.packed)])
      && PagesHold(pages', groups', builder.pageSize) && Located(groups', locations')
  {
    hide Entries, Data, PageBytes, Located, Builder.Valid, EdgeCount, Flat, DistinctIds, PageHolds, PagesHold, IsGiant,
         Current, Built, Ids, Adds;
    ok, pages', locations', groups' := true, pages, locations, groups;
    builder.BuilderSize();
    if builder.vertices == [] {
      assert Flat(groups) + [] == Flat(groups);
      return;
    }
    ghost var group := builder.packed;
    SoundHere(builder);
    var page, vertexMap := builder.Build();
    if page.Err? {
      return false, pages, locations, groups;
    }
    MapDistinct(Flat(groups), group, vertexMap);
    locations' := Locate(vertexMap, |pages|, locations);
    MapAdds(locations, group, |pages|, locations', vertexMap);
    pages' := pages + [page.value];
    groups' := groups + [group];
    LocatedMore(groups, locations, group, locations');
    FlatSnoc(groups, group);
    BuiltHolds(group, Ids(builder.giants), builder.pageSize);
    PagesMore(pages, groups, builder.pageSize, page.value, group);
  }

  lemma PagesMore(pages: seq<Image>, groups: seq<seq<Vertex>>, pageSize: nat, page: Image, group: seq<Vertex>)
    requires PagesHold(pages, groups, pageSize) && PageHolds(page, group, pageSize)
    ensures PagesHold(pages + [page], groups + [group], pageSize)
  {
    hide PageHolds;
  }

  lemma BuiltHolds(group: seq<Vertex>, ids: set<Vid>, pageSize: nat)
    requires group != [] && PageBytes(group) <= pageSize <= UINT16_MAX + 1
    requires forall v :: v in group && IsGiant(v) ==> v.id in ids
    ensures PageHolds(Built(group, ids), group, pageSize)
  {
    BuiltIsSound(group, ids, pageSize);
  }

  lemma MapDistinct(before: seq<Vertex>, group: seq<Vertex>, vertexMap: seq<(Vid, nat)>)
    requires DistinctIds(before + group) && |vertexMap| == |group|
    requires forall k :: 0 <= k < |vertexMap| ==> vertexMap[k] == (group[k].id, k)
    ensures forall i, j :: 0 <= i < j < |vertexMap| ==> vertexMap[i].0 != vertexMap[j].0
  {
    forall i, j | 0 <= i < j < |vertexMap| ensures vertexMap[i].0 != vertexMap[j].0 {
      assert (before + group)[|before| + i] == group[i] && (before + group)[|before| + j] == group[j];
    }
  }

  lemma SoundHere(builder: Builder)
    requires builder.Valid() && builder.pageSize <= UINT16_MAX + 1
    ensures builder.packed != [] && PageBytes(builder.packed) <= builder.pageSize ==>
      |builder.packed| <= UINT16_MAX && EdgeCount(builder.packed, Ids(builder.giants)) <= UINT16_MAX
    ensures forall v :: v in builder.packed && IsGiant(v) ==> v.id in Ids(builder.giants)
  {
    if builder.packed != [] && PageBytes(builder.packed) <= builder.pageSize {
      BuiltIsSound(builder.packed, Ids(builder.giants), builder.pageSize);
    }
  }

  /** The first vertex of `after` would not have fitted on the page of `group`. */
  ghost predicate Overflows(group: seq<Vertex>, after: seq<Vertex>, pageSize: nat) {
    after != [] && PageBytes(group) + Cost(after[0]) > pageSize
  }

  /** No page was begun before the one before it was full. */
  ghost predicate Tight(groups: seq<seq<Vertex>>, current: seq<Vertex>, pageSize: nat) {
    && (forall g :: 0 <= g < |groups| - 1 ==> Overflows(groups[g], groups[g + 1], pageSize))
    && (groups != [] ==> Overflows(groups[|groups| - 1], current, pageSize))
  }

  /** The first vertices are packed: some on the pages, the last ones in the builder. */
  ghost predicate PackedSoFar(vs: seq<Vertex>, i: nat, current: seq<Vertex>, groups: seq<seq<Vertex>>, pages: seq<Image>,
                              locations: map<Vid, (nat, nat)>, pageSize: nat)
    requires i <= |vs|
  {
    && Flat(groups) + current == vs[..i] && Current(current, pageSize) && Tight(groups, current, pageSize)
    && PagesHold(pages, groups, pageSize) && Located(groups, locations)
  }

  lemma OneMore(vs: seq<Vertex>, i: nat, current: seq<Vertex>, groups: seq<seq<Vertex>>, pages: seq<Image>,
                locations: map<Vid, (nat, nat)>, pageSize: nat)
    requires i < |vs| && PackedSoFar(vs, i, current, groups, pages, locations, pageSize)
    requires Current(current + [vs[i]], pageSize)
    ensures PackedSoFar(vs, i + 1, current + [vs[i]], groups, pages, locations, pageSize)
  {
    hide Current, PagesHold, Located, PageBytes, Cost, Flat;
    assert vs[..i + 1] == vs[..i] + [vs[i]];
    assert Flat(groups) + (current + [vs[i]]) == Flat(groups) + current + [vs[i]];
  }

  lemma NewPage(vs: seq<Vertex>, i: nat, before: seq<Vertex>, groups: seq<seq<Vertex>>, groups': seq<seq<Vertex>>,
                pages: seq<Image>, locations: map<Vid, (nat, nat)>, pageSize: nat)
    requires i < |vs| && before != [] && Tight(groups, before, pageSize) && groups' == groups + [before]
    requires Flat(groups') == vs[..i] && PagesHold(pages, groups', pageSize) && Located(groups', locations)
    requires Overflows(before, [vs[i]], pageSize) && Current([] + [vs[i]], pageSize)
    ensures PackedSoFar(vs, i + 1, [] + [vs[i]], groups', pages, locations, pageSize)
  {
    hide Current, PagesHold, Located, PageBytes, Cost, Flat;
    assert vs[..i + 1] == vs[..i] + [vs[i]];
    assert [] + [vs[i]] == [vs[i]];
  }

  /** One vertex of the split loop: to the builder, on a new page if this one is full. */
  method PackOne(builder: Builder, vs: seq<Vertex>, i: nat, pages: seq<Image>, locations: map<Vid, (nat, nat)>,
                 ghost groups: seq<seq<Vertex>>)
    returns (ok: bool, pages': seq<Image>, locations': map<Vid, (nat, nat)>, ghost groups': seq<seq<Vertex>>)
    requires builder.Valid() && builder.pageSize <= UINT16_MAX + 1 && i < |vs| && DistinctIds(vs)
    requires PackedSoFar(vs, i, builder.packed, groups, pages, locations, builder.pageSize)
    modifies builder
    ensures builder.Valid()
    ensures ok ==> PackedSoFar(vs, i + 1, builder.packed, groups', pages', locations', builder.pageSize)
    ensures !ok ==> !(forall v :: v in vs ==> FitsAlone(v, builder.pageSize))
  {
    hide Entries, Data, PageBytes, Located, PagesHold, FitsAlone, Current, Flat, DistinctIds, Builder.Valid, Cost, Tight;
    ok, pages', locations', groups' := true, pages, locations, groups;
    ghost var before, done := builder.packed, Flat(groups);
    AddFits(before, vs[i], builder.pageSize);
    var outcome := builder.AddVertex(vs[i]);
    if outcome == Full {
      PrefixDistinct(vs, i);
      ok, pages', locations', groups' := Flush(builder, pages, locations, groups);
      if !ok {
        NotAllFit(vs, done, before, i, builder.pageSize);
        return;
      }
      AddFits([], vs[i], builder.pageSize);
      outcome := builder.AddVertex(vs[i]);
      NewPage(vs, i, before, groups, groups', pages', locations', builder.pageSize);
    } else {
      OneMore(vs, i, before, groups, pages, locations, builder.pageSize);
    }
  }

  /** do_split: pack the vertices in the given order, a new page whenever one is full.  It
   *  succeeds exactly if every vertex fits on a page of its own. */
  method PackVertices(vs: seq<Vertex>, pageSize: nat)
    returns (result: Result<seq<Image>>, locations: map<Vid, (nat, nat)>, ghost groups: seq<seq<Vertex>>)
    requires DistinctIds(vs) && pageSize <= UINT16_MAX + 1
    ensures result.Ok? <==> forall v :: v in vs ==> FitsAlone(v, pageSize)
    ensures result.Ok? ==> IsPacked(vs, pageSize, result.value, locations)
    ensures result.Ok? ==> Flat(groups) == vs && PagesHold(result.value, groups, pageSize)
    ensures result.Ok? ==> forall g :: 0 <= g < |groups| - 1 ==> Overflows(groups[g], groups[g + 1], pageSize)
  {
    hide Entries, Data, PageBytes, Located, PagesHold, IsPacked, FitsAlone, Current, Flat, DistinctIds, Builder.Valid, Cost,
         Overflows;
    var builder := new Builder(pageSize);
    var pages: seq<Image> := [];
    locations, groups := map[], [];
    StartPacking(pageSize);
    for i := 0 to |vs|
      invariant builder.Valid() && builder.pageSize == pageSize && fresh(builder)
      invariant PackedSoFar(vs, i, builder.packed, groups, pages, locations, pageSize)
    {
      var ok;
      ok, pages, locations, groups := PackOne(builder, vs, i, pages, locations, groups);
      if !ok {
        return Err, locations, groups;
      }
    }
    assert vs[..|vs|] == vs;
    ghost var before, done := builder.packed, Flat(groups);
    var ok;
    ok, pages, locations, groups := Flush(builder, pages, locations, groups);
    if !ok {
      NotAllFit(vs, done, before, |vs|, pageSize);
      return Err, locations, groups;
    }
    GroupsArePacked(groups, pageSize, pages, locations);
    result := Ok(pages);
  }

  lemma StartPacking(pageSize: nat)
    ensures PagesHold([], [], pageSize) && Located([], map[]) && Current([], pageSize) && Flat([]) == []
  {
  }

  lemma PrefixDistinct(vs: seq<Vertex>, i: nat)
    requires DistinctIds(vs) && i <= |vs|
    ensures DistinctIds(vs[..i])
  {
  }

  /** A vertex that is not refused fits, or starts a page of its own; its offset has 16 bits. */
  lemma AddFits(before: seq<Vertex>, v: Vertex, pageSize: nat)
    requires Current(before, pageSize) && pageSize <= UINT16_MAX + 1
    ensures PageBytes(before) + Cost(v) <= pageSize || before == [] ==>
      Current(before + [v], pageSize) && |Data(before)| * ID_BYTES <= UINT16_MAX
  {
    PageBytesMore(before, v);
    PageBytesMore([], v);
    assert [] + [v] == [v];
  }

  lemma NotAllFit(vs: seq<Vertex>, done: seq<Vertex>, before: seq<Vertex>, i: nat, pageSize: nat)
    requires i <= |vs| && done + before == vs[..i] && Current(before, pageSize)
    requires before != [] && PageBytes(before) > pageSize
    ensures !(forall v :: v in vs ==> FitsAlone(v, pageSize))
  {
    assert (done + before)[|done|] == before[0];
    assert vs[|done|] == before[0];
  }

  // ---------------------------------------------------------------------------
  // Inserting into a reserved slot

  datatype InsertStatus = Inserted | SlotFull | Failed

  predicate Readable(e: Entry) {
    e.degree < GIANT_DEGREE_BOUND
  }

  /** Entry i ends before entry j starts.  An offset of 0 behind another vertex marks a
   *  list that is kept elsewhere (or an empty one). */
  predicate Before(vertices: seq<Entry>, i: nat, j: nat)
    requires i < j < |vertices|
  {
    && (Readable(vertices[i]) && (Readable(vertices[j]) || vertices[j].offset != 0) ==>
          vertices[i].offset / ID_BYTES + vertices[i].degree <= vertices[j].offset / ID_BYTES)
    && (vertices[i].offset != 0 && (Readable(vertices[j]) || vertices[j].offset != 0) ==>
          vertices[i].offset / ID_BYTES <= vertices[j].offset / ID_BYTES)
  }

  /** The lists lie one behind the other inside the data. */
  ghost predicate Apart(vertices: seq<Entry>, data: seq<Vid>) {
    && (forall i, j :: 0 <= i < j < |vertices| ==> Before(vertices, i, j))
    && (forall i :: 0 <= i < |vertices| && Readable(vertices[i]) ==>
          vertices[i].offset / ID_BYTES + vertices[i].degree <= |data|)
    && (forall i :: 0 <= i < |vertices| ==> vertices[i].offset / ID_BYTES <= |data|)
  }

  /** Pages as the builder writes them are like that. */
  lemma {:induction false} BuiltApart(vs: seq<Vertex>)
    ensures Apart(Entries(vs), Data(vs))
  {
    forall i | 0 <= i < |vs| ensures Readable(Entries(vs)[i]) ==>
      Entries(vs)[i].offset / ID_BYTES + Entries(vs)[i].degree <= |Data(vs)|
      ensures Entries(vs)[i].offset / ID_BYTES <= |Data(vs)|
    {
      InData(vs, i);
    }
    if vs != [] {
      var front, last := vs[..|vs| - 1], vs[|vs| - 1];
      assert vs == front + [last];
      BuiltApart(front);
      EntriesSnoc(front, last);
      forall i, j | 0 <= i < j < |vs| ensures Before(Entries(vs), i, j) {
        if j < |front| {
          assert Before(Entries(front), i, j);
        } else {
          InData(front, i);
        }
      }
    }
  }

  /** The entry limit of the space of vertex k: the offset of the next vertex, or the end
   *  of the data. */
  function CapacityEnd(vertices: seq<Entry>, data: seq<Vid>, k: nat): nat
    requires k < |vertices|
  {
    if k + 1 < |vertices| then vertices[k + 1].offset / ID_BYTES else |data|
  }

  /** Where the list of a vertex starts, and how far it may grow. */
  lemma {:induction false} OffsetOf(vs: seq<Vertex>, k: nat)
    requires k < |vs|
    ensures !IsGiant(vs[k]) ==> Entries(vs)[k].offset == DataOf(vs, k) * ID_BYTES
    ensures IsGiant(vs[k]) ==> Entries(vs)[k].offset == 0
    decreases |vs|
  {
    var front, last := vs[..|vs| - 1], vs[|vs| - 1];
    assert vs == front + [last];
    EntriesSnoc(front, last);
    if k < |front| {
      OffsetOf(front, k);
      DataPrefix(front, [last], k);
    } else {
      DataLength(front);
      DataPrefix(front, [last], k);
    }
  }

  /** A list may grow over its own slots, but not at all if the list of a giant is packed
   *  right behind it. */
  lemma RoomOf(vs: seq<Vertex>, k: nat)
    requires k < |vs| && !IsGiant(vs[k])
    ensures CapacityEnd(Entries(vs), Data(vs), k)
         == if k + 1 < |vs| && IsGiant(vs[k + 1]) then 0
            else Entries(vs)[k].offset / ID_BYTES + |vs[k].neighbors| + vs[k].slots
  {
    hide Entries, Data;
    OffsetOf(vs, k);
    if k + 1 < |vs| {
      OffsetOf(vs, k + 1);
    } else {
      DataLength(vs);
    }
  }

  /** A page in memory that was built of these vertices; slots may have been filled since. */
  ghost predicate GrownFrom(vertices: seq<Entry>, data: seq<Vid>, vs: seq<Vertex>) {
    && |vertices| == |vs| && |data| == |Data(vs)|
    && forall k :: 0 <= k < |vs| ==>
         && vertices[k].id == vs[k].id && vertices[k].offset == Entries(vs)[k].offset
         && |vs[k].neighbors| <= vertices[k].degree && (!IsGiant(vs[k]) ==> vertices[k].degree <= |vs[k].neighbors| + vs[k].slots)
  }

  lemma BuiltGrown(vs: seq<Vertex>)
    ensures GrownFrom(Entries(vs), Data(vs), vs)
  {
    forall k | 0 <= k < |vs|
      ensures Entries(vs)[k].id == vs[k].id && Entries(vs)[k].degree == |vs[k].neighbors|
    {
      ReadsBack(vs, k);
      InData(vs, k);
    }
  }

  /** When a slot is refused, on a page as it was built and after. */
  lemma FullExactly(vertices: seq<Entry>, data: seq<Vid>, vs: seq<Vertex>, k: nat)
    requires GrownFrom(vertices, data, vs) && k < |vertices| && Readable(vertices[k])
    ensures |vertices| == |vs|
    ensures EndOf(vertices, k) >= CapacityEnd(vertices, data, k) <==>
      (k + 1 < |vs| && |vs[k + 1].neighbors| >= GIANT_DEGREE_BOUND)
      || vertices[k].degree == |vs[k].neighbors| + vs[k].slots
  {
    hide Entries, Data;
    RoomOf(vs, k);
  }

  lemma GrowthKept(vertices: seq<Entry>, data: seq<Vid>, vs: seq<Vertex>, k: nat, at: nat, dst: Vid)
    requires GrownFrom(vertices, data, vs) && k < |vertices| && Readable(vertices[k]) && at < |data|
    requires EndOf(vertices, k) < CapacityEnd(vertices, data, k)
    ensures GrownFrom(WithEdge(vertices, k), data[at := dst], vs)
  {
    hide Entries, Data;
    FullExactly(vertices, data, vs, k);
  }

  /** A page in memory. */
  class CsrPage {
    var numEdges: nat
    var usedBytes: nat
    var vertices: seq<Entry>
    var data: seq<Vid>
    /** What the page was built of. */
    ghost const built: seq<Vertex>

    ghost predicate Valid()
      reads this
    {
      && Apart(vertices, data) && GrownFrom(vertices, data, built)
      && usedBytes == FIXED_BYTES + |vertices| * VERTEX_BYTES + |data| * ID_BYTES
    }

    constructor (ghost vs: seq<Vertex>, page: Image)
      requires page.vertices == Entries(vs) && page.data == Data(vs)
      requires page.numVertices == |page.vertices| && page.usedBytes == PageBytes(vs)
      ensures Valid() && vertices == page.vertices && data == page.data && numEdges == page.numEdges && built == vs
    {
      numEdges, usedBytes, vertices, data := page.numEdges, page.usedBytes, page.vertices, page.data;
      built := vs;
      BuiltApart(vs);
      BuiltGrown(vs);
    }

    /** insert_edge_in_slot.  An inserted edge is at the end of the list of its vertex,
     *  unless the list has now reached the giant bound and reads as empty; no other list
     *  changes, and neither does anything if the insertion is refused. */
    method InsertEdgeInSlot(k: nat, src: Vid, dst: Vid) returns (status: InsertStatus)
      requires Valid()
      modifies this
      ensures Valid()
      ensures status == Failed <==>
        k >= |old(vertices)| || old(vertices)[k].id != src || old(vertices)[k].degree >= GIANT_DEGREE_BOUND
      ensures status != Failed ==>
        && k < |built|
        && (status == SlotFull <==>
              || (k + 1 < |built| && |built[k + 1].neighbors| >= GIANT_DEGREE_BOUND)
              || old(vertices)[k].degree == |built[k].neighbors| + built[k].slots)
      ensures status != Inserted ==> vertices == old(vertices) && data == old(data) && numEdges == old(numEdges)
      ensures status == Inserted ==>
        && numEdges == old(numEdges) + 1 && |data| == |old(data)|
        && vertices == WithEdge(old(vertices), k)
        && (old(vertices)[k].degree + 1 < GIANT_DEGREE_BOUND ==>
              Neighbors(vertices, data, k) == Neighbors(old(vertices), old(data), k) + [dst])
        && (old(vertices)[k].degree + 1 >= GIANT_DEGREE_BOUND ==> Neighbors(vertices, data, k) == [])
        && forall j :: j != k ==> Neighbors(vertices, data, j) == Neighbors(old(vertices), old(data), j)
    {
      hide Apart, GrownFrom, Neighbors, WithEdge;
      if k >= |vertices| {
        return Failed;
      }
      if src != vertices[k].id {
        return Failed;
      }
      if vertices[k].degree >= GIANT_DEGREE_BOUND {
        return Failed;
      }
      FullExactly(vertices, data, built, k);
      var end := vertices[k].offset / ID_BYTES + vertices[k].degree;
      var capacityEnd;
      if k + 1 < |vertices| {
        capacityEnd := vertices[k + 1].offset / ID_BYTES;
      } else {
        capacityEnd := (usedBytes - FIXED_BYTES - |vertices| * VERTEX_BYTES) / ID_BYTES;
      }
      if end >= capacityEnd {
        return SlotFull;
      }
      SlotInside(vertices, data, k);
      SlotKeepsApart(vertices, data, k, dst);
      forall j | j != k
        ensures Neighbors(WithEdge(vertices, k), data[end := dst], j) == Neighbors(vertices, data, j)
      {
        SlotKeepsOthers(vertices, data, k, dst, j);
      }
      SlotAppends(vertices, data, k, dst);
      GrowthKept(vertices, data, built, k, end, dst);
      data := data[end := dst];
      vertices := WithEdge(vertices, k);
      numEdges := numEdges + 1;
      var required := FIXED_BYTES + |vertices| * VERTEX_BYTES + (end + 1) * ID_BYTES;
      usedBytes := Max(required, usedBytes);
      status := Inserted;
    }
  }

  function Max(a: nat, b: nat): nat {
    if a > b then a else b
  }

  function WithEdge(vertices: seq<Entry>, k: nat): (r: seq<Entry>)
    requires k < |vertices|
    ensures |r| == |vertices|
  {
    vertices[k := vertices[k].(degree := vertices[k].degree + 1)]
  }

  /** A vertex with room writes inside the data, before whatever follows it. */
  lemma SlotInside(vertices: seq<Entry>, data: seq<Vid>, k: nat)
    requires Apart(vertices, data) && k < |vertices| && Readable(vertices[k])
    requires EndOf(vertices, k) < CapacityEnd(vertices, data, k)
    ensures EndOf(vertices, k) < |data|
    ensures forall j :: k < j < |vertices| && (Readable(vertices[j]) || vertices[j].offset != 0) ==>
      EndOf(vertices, k) < vertices[j].offset / ID_BYTES
  {
    forall j | k < j < |vertices| && (Readable(vertices[j]) || vertices[j].offset != 0)
      ensures EndOf(vertices, k) < vertices[j].offset / ID_BYTES
    {
      assert Before(vertices, k, k + 1);
      if j > k + 1 {
        assert Before(vertices, k + 1, j);
      }
    }
  }

  /** The entry after the last neighbour. */
  function EndOf(vertices: seq<Entry>, k: nat): nat
    requires k < |vertices|
  {
    vertices[k].offset / ID_BYTES + vertices[k].degree
  }

  lemma SlotKeepsApart(vertices: seq<Entry>, data: seq<Vid>, k: nat, dst: Vid)
    requires Apart(vertices, data) && k < |vertices| && Readable(vertices[k])
    requires EndOf(vertices, k) < CapacityEnd(vertices, data, k) && EndOf(vertices, k) < |data|
    ensures Apart(WithEdge(vertices, k), data[EndOf(vertices, k) := dst])
  {
    SlotInside(vertices, data, k);
    var vertices' := WithEdge(vertices, k);
    forall i, j | 0 <= i < j < |vertices| ensures Before(vertices', i, j) {
      assert Before(vertices, i, j);
    }
  }

  lemma SlotAppends(vertices: seq<Entry>, data: seq<Vid>, k: nat, dst: Vid)
    requires k < |vertices| && Readable(vertices[k]) && EndOf(vertices, k) < |data|
    ensures var list := Neighbors(WithEdge(vertices, k), data[EndOf(vertices, k) := dst], k);
      list == if vertices[k].degree + 1 < GIANT_DEGREE_BOUND then Neighbors(vertices, data, k) + [dst] else []
  {
    var start, end := vertices[k].offset / ID_BYTES, EndOf(vertices, k);
    assert data[end := dst][start..end + 1] == data[start..end] + [dst];
  }

  lemma SlotKeepsOthers(vertices: seq<Entry>, data: seq<Vid>, k: nat, dst: Vid, j: nat)
    requires Apart(vertices, data) && k < |vertices| && Readable(vertices[k]) && j != k
    requires EndOf(vertices, k) < CapacityEnd(vertices, data, k) && EndOf(vertices, k) < |data|
    ensures Neighbors(WithEdge(vertices, k), data[EndOf(vertices, k) := dst], j) == Neighbors(vertices, data, j)
  {
    SlotInside(vertices, data, k);
    if j < |vertices| && Readable(vertices[j]) {
      var start, end := vertices[j].offset / ID_BYTES, EndOf(vertices, j);
      if j < k {
        assert Before(vertices, j, k);
      }
      assert data[EndOf(vertices, k) := dst][start..end] == data[start..end];
    }
  }
}
