/** The copy-on-write consolidation of CSR pages (src/smo.cc) run against
 * concurrent writers and readers (src/db_dyn.cc, src/db.cc), as a state machine.
 *
 * One step is one critical section: a writer under the vertex write latch, one
 * phase of the consolidation worker, one drained stray, one vertex switched.
 * Any number of pages may be under consolidation at once, including pages that
 * another consolidation in flight is still moving vertices to.
 */
module Consolidation {
  import opened Replay

  type PageNo = nat

  datatype Rec = Rec(src: Vid, op: Op)

  /** The records of a page log that concern `v`, oldest first. */
  function Proj(log: seq<Rec>, v: Vid): seq<Op> {
    if log == [] then []
    else if log[|log| - 1].src == v then Proj(log[..|log| - 1], v) + [log[|log| - 1].op]
    else Proj(log[..|log| - 1], v)
  }

  /** Failed: the compare-and-swap of a vertex version did not succeed. */
  datatype Phase = Fetched | Built | Forwarding | Draining | Failed

  /** One consolidation in flight.
   *  fetched: records taken from the page chain; merged: replacement lists;
   *  target: new page of each vertex (the forwarding table); giants: vertices
   *  kept outside CSR pages; stray: records still to be re-inserted;
   *  tail: position of the first rerouted record of each vertex;
   *  expected: the version of each vertex when its replacement was prepared;
   *  done: vertices switched. */
  datatype Smo = Smo(phase: Phase, fetched: seq<Rec>, merged: map<Vid, set<Vid>>,
                     target: map<Vid, PageNo>, giants: set<Vid>, stray: seq<Rec>,
                     tail: map<Vid, nat>, expected: map<Vid, nat>, done: set<Vid>)

  /** loc: published page of each vertex; ver: how often its version was replaced;
   *  csr: lists stored on each page; giant / giantList: the external store;
   *  chain: per-vertex delta chain; cut: how many records were cut off below it, so
   *  that positions of records stay what they are; log: per-page delta chain. */
  datatype State = State(loc: map<Vid, PageNo>, ver: map<Vid, nat>, csr: map<PageNo, map<Vid, set<Vid>>>,
                         giant: set<Vid>, giantList: map<Vid, set<Vid>>,
                         chain: map<Vid, seq<Op>>, cut: map<Vid, nat>, log: map<PageNo, seq<Rec>>,
                         smo: map<PageNo, Smo>, bound: nat)

  type Truth = map<Vid, set<Vid>>

  datatype Step =
    | Write(v: Vid, op: Op)
    | Fetch(p: PageNo)
    | Merge(p: PageNo, target: map<Vid, PageNo>)
    | Install(p: PageNo)
    | FetchStray(p: PageNo)
    | Drain(p: PageNo)
    | Switch(p: PageNo, w: Vid)
    | Detach(p: PageNo)

  // ---------------------------------------------------------------------------
  // Observations

  function Log(s: State, p: PageNo): seq<Rec> {
    if p in s.log then s.log[p] else []
  }

  /** The stored list a reader starts from. */
  function Base(s: State, v: Vid): set<Vid> {
    if v in s.giant then (if v in s.giantList then s.giantList[v] else {})
    else if v in s.loc && s.loc[v] in s.csr && v in s.csr[s.loc[v]] then s.csr[s.loc[v]][v]
    else {}
  }

  function Chain(s: State, v: Vid): seq<Op> {
    if v in s.chain then s.chain[v] else []
  }

  function Ver(s: State, v: Vid): nat {
    if v in s.ver then s.ver[v] else 0
  }

  /** Position of the oldest record of the chain. */
  function Cut(s: State, v: Vid): nat {
    if v in s.cut then s.cut[v] else 0
  }

  /** What `read_neighbor_clone` returns for `v`, as a set. */
  function Read(s: State, v: Vid): set<Vid> {
    Run(Base(s, v), Chain(s, v))
  }

  /** The forwarding table is installed. */
  predicate Forwards(phase: Phase) {
    phase == Forwarding || phase == Draining || phase == Failed
  }

  /** `v` is served by a forwarding table right now. */
  predicate Forwarded(s: State, v: Vid) {
    v in s.loc && s.loc[v] in s.smo && Forwards(s.smo[s.loc[v]].phase) && v in s.smo[s.loc[v]].target
  }

  /** The page whose delta chain receives a write to `v`. */
  function WritePage(s: State, v: Vid): PageNo
    requires v in s.loc
  {
    if Forwarded(s, v) then s.smo[s.loc[v]].target[v] else s.loc[v]
  }

  /** `v` is on its way from `p` to `q`: prepared there and not switched yet. */
  ghost predicate Heading(s: State, p: PageNo, v: Vid, q: PageNo) {
    p in s.smo && v in s.smo[p].target && s.smo[p].target[v] == q && v in s.loc && s.loc[v] == p
  }

  /** No vertex is on its way to `q`. */
  ghost predicate Alone(s: State, q: PageNo) {
    forall p, v :: !Heading(s, p, v, q)
  }

  /** Records of a forwarding consolidation that still sit on the old page. */
  function Pending(s: State, p: PageNo): seq<Rec>
    requires p in s.smo
  {
    if s.smo[p].phase == Draining || s.smo[p].phase == Failed then s.smo[p].stray else Log(s, p)
  }

  // ---------------------------------------------------------------------------
  // Steps

  predicate CanFetch(s: State, p: PageNo) {
    p in s.csr && p !in s.smo && Log(s, p) != []
  }

  predicate CanMerge(s: State, p: PageNo, target: map<Vid, PageNo>) {
    && p in s.smo && s.smo[p].phase == Fetched && p in s.csr
    && target.Keys == s.csr[p].Keys
    && (forall v :: v in target ==> target[v] !in s.csr)
  }

  predicate CanDrain(s: State, p: PageNo) {
    && p in s.smo && s.smo[p].phase == Draining && s.smo[p].stray != []
    && s.smo[p].stray[0].src in s.smo[p].target
  }

  predicate CanSwitch(s: State, p: PageNo, w: Vid) {
    && p in s.smo && s.smo[p].phase == Draining && s.smo[p].stray == []
    && w in s.smo[p].target && w !in s.smo[p].done
  }

  predicate CanDetach(s: State, p: PageNo) {
    && p in s.smo && s.smo[p].phase == Draining && s.smo[p].stray == []
    && s.smo[p].done == s.smo[p].target.Keys
  }

  /** Prepend `op` to the chain of `v` and append it to the log of page `q`. */
  function Append(s: State, v: Vid, op: Op, q: PageNo): State {
    s.(chain := s.chain[v := Chain(s, v) + [op]], log := s.log[q := Log(s, q) + [Rec(v, op)]])
  }

  /** Remember the first rerouted record of `v` (page_delta_t::note_rerouted_tail). */
  function NoteTail(c: Smo, v: Vid, at: nat): Smo {
    if v in c.tail then c else c.(tail := c.tail[v := at])
  }

  /** Position that the next record of `v` will have. */
  function Top(s: State, v: Vid): nat {
    Cut(s, v) + |Chain(s, v)|
  }

  function DoWrite(s: State, v: Vid, op: Op): State
    requires v in s.loc
  {
    var s' := Append(s, v, op, WritePage(s, v));
    if Forwarded(s, v) then
      s'.(smo := s.smo[s.loc[v] := NoteTail(s.smo[s.loc[v]], v, Top(s, v))])
    else s'
  }

  /** A consolidation that has just taken its records. */
  function Began(records: seq<Rec>): Smo {
    Smo(Fetched, records, map[], map[], {}, [], map[], map[], {})
  }

  function DoFetch(s: State, p: PageNo): State {
    s.(smo := s.smo[p := Began(Log(s, p))], log := s.log[p := []])
  }

  /** The list the merge starts from: the one on the page, for a giant the external one. */
  function Stored(s: State, p: PageNo, v: Vid): set<Vid>
    requires p in s.csr && v in s.csr[p]
  {
    if v in s.giant then (if v in s.giantList then s.giantList[v] else {}) else s.csr[p][v]
  }

  /** The replacement lists: the stored list of each vertex with the fetched records replayed. */
  function MergedLists(s: State, p: PageNo): (merged: map<Vid, set<Vid>>)
    requires p in s.smo && p in s.csr
    ensures merged.Keys == s.csr[p].Keys
  {
    map v | v in s.csr[p] :: Run(Stored(s, p, v), Proj(s.smo[p].fetched, v))
  }

  /** The versions the worker expects to replace. */
  function Expected(s: State, target: map<Vid, PageNo>): map<Vid, nat> {
    map v | v in target :: Ver(s, v)
  }

  function Prepare(c: Smo, merged: map<Vid, set<Vid>>, target: map<Vid, PageNo>, giants: set<Vid>,
                   expected: map<Vid, nat>): Smo {
    c.(phase := Built, merged := merged, target := target, giants := giants, expected := expected)
  }

  function Giants(s: State, merged: map<Vid, set<Vid>>): (giants: set<Vid>)
    ensures giants <= merged.Keys
  {
    set v | v in merged && (v in s.giant || |merged[v]| >= s.bound)
  }

  function NewPage(merged: map<Vid, set<Vid>>, giants: set<Vid>, target: map<Vid, PageNo>, q: PageNo)
    : map<Vid, set<Vid>>
    requires target.Keys <= merged.Keys
  {
    map v | v in target && target[v] == q :: if v in giants then {} else merged[v]
  }

  function DoMerge(s: State, p: PageNo, target: map<Vid, PageNo>): State
    requires CanMerge(s, p, target)
  {
    var merged := MergedLists(s, p);
    var giants := Giants(s, merged);
    s.(smo := s.smo[p := Prepare(s.smo[p], merged, target, giants, Expected(s, target))],
       giantList := s.giantList + (map v | v in giants :: merged[v]),
       csr := s.csr + (map q | q in target.Values :: NewPage(merged, giants, target, q)))
  }

  function DoInstall(s: State, p: PageNo): State
    requires p in s.smo
  {
    s.(smo := s.smo[p := s.smo[p].(phase := Forwarding)])
  }

  function DoFetchStray(s: State, p: PageNo): State
    requires p in s.smo
  {
    s.(smo := s.smo[p := s.smo[p].(phase := Draining, stray := Log(s, p))], log := s.log[p := []])
  }

  function DoDrain(s: State, p: PageNo): State
    requires CanDrain(s, p)
  {
    var c := s.smo[p];
    var r := c.stray[0];
    Append(s, r.src, r.op, c.target[r.src]).(
      smo := s.smo[p := NoteTail(c.(stray := c.stray[1..]), r.src, Top(s, r.src))])
  }

  /** How many records fall off the chain of `w`: those below the first rerouted record,
   *  all of them if there is none, and none if that record is not in the chain any more. */
  function Dropped(s: State, c: Smo, w: Vid): (k: nat)
    ensures k <= |Chain(s, w)|
  {
    if w !in c.tail then |Chain(s, w)|
    else if Cut(s, w) <= c.tail[w] <= Top(s, w) then c.tail[w] - Cut(s, w)
    else 0
  }

  /** The version to be replaced is still the one seen when the replacement was prepared. */
  predicate CasHolds(s: State, p: PageNo, w: Vid)
    requires p in s.smo
  {
    w in s.smo[p].expected && s.smo[p].expected[w] == Ver(s, w)
  }

  /** One vertex switched under its latch: the chain is cut and the vertex type set, and
   *  then the new version is published if the old one is still there.  If it is not, the
   *  worker throws. */
  function DoSwitch(s: State, p: PageNo, w: Vid): State
    requires CanSwitch(s, p, w)
  {
    var c, k := s.smo[p], Dropped(s, s.smo[p], w);
    var s' := s.(chain := s.chain[w := Chain(s, w)[k..]], cut := s.cut[w := Cut(s, w) + k],
                 giant := if w in c.giants then s.giant + {w} else s.giant - {w});
    if CasHolds(s, p, w) then
      s'.(loc := s.loc[w := c.target[w]], ver := s.ver[w := Ver(s, w) + 1],
          smo := s.smo[p := c.(done := c.done + {w})])
    else s'.(smo := s.smo[p := c.(phase := Failed)])
  }

  function DoDetach(s: State, p: PageNo): State {
    s.(smo := s.smo - {p}, csr := s.csr - {p})
  }

  ghost predicate Enabled(s: State, t: Step) {
    match t
    case Write(v, _) => v in s.loc
    case Fetch(p) => CanFetch(s, p)
    case Merge(p, target) => CanMerge(s, p, target)
    case Install(p) => p in s.smo && s.smo[p].phase == Built
    case FetchStray(p) => p in s.smo && s.smo[p].phase == Forwarding
    case Drain(p) => CanDrain(s, p)
    case Switch(p, w) => CanSwitch(s, p, w)
    case Detach(p) => CanDetach(s, p)
  }

  ghost function Next(s: State, t: Step): State
    requires Enabled(s, t)
  {
    match t
    case Write(v, op) => DoWrite(s, v, op)
    case Fetch(p) => DoFetch(s, p)
    case Merge(p, target) => DoMerge(s, p, target)
    case Install(p) => DoInstall(s, p)
    case FetchStray(p) => DoFetchStray(s, p)
    case Drain(p) => DoDrain(s, p)
    case Switch(p, w) => DoSwitch(s, p, w)
    case Detach(p) => DoDetach(s, p)
  }

  /** What the client meant: only writes change a vertex, in latch order. */
  function NextTruth(truth: Truth, t: Step): Truth {
    match t
    case Write(v, op) => truth[v := Apply(if v in truth then truth[v] else {}, op)]
    case _ => truth
  }

  /** The schedule hypotheses.  A rerouted write does not contradict a record of the same
   *  edge that is still waiting on the old page, and the replacement of a page is prepared
   *  when no vertex is on its way to that page. */
  ghost predicate Ordered(s: State, t: Step) {
    match t
    case Write(v, op) =>
      Forwarded(s, v) ==>
        Newest(Proj(Pending(s, s.loc[v]), v), op.dst) in {None, Some(op.kind)}
    case Merge(p, _) => Alone(s, p)
    case _ => true
  }

  // ---------------------------------------------------------------------------
  // Invariant, global part

  ghost predicate LocOk(s: State) {
    && s.chain.Keys == s.loc.Keys
    && (forall v :: v in s.loc ==> s.loc[v] in s.csr && v in s.csr[s.loc[v]])
    && (forall v :: v in s.giant ==> v in s.giantList)
  }

  /** A list of `v` is stored on `p` for one of three reasons: `p` serves it, `p`
   *  is going to, or `p` did until it was switched away. */
  ghost predicate Placed(s: State, p: PageNo, v: Vid) {
    v in s.loc && (s.loc[v] == p || Heading(s, s.loc[v], v, p) || Left(s, p, v))
  }

  ghost predicate Left(s: State, p: PageNo, v: Vid) {
    p in s.smo && v in s.smo[p].target && v in s.loc && s.loc[v] != p
  }

  ghost predicate AllPlaced(s: State) {
    forall p, v :: p in s.csr && v in s.csr[p] ==> Placed(s, p, v)
  }

  /** Every record of a page chain is about a vertex stored on the page. */
  ghost predicate LogAt(log: seq<Rec>, csr: map<PageNo, map<Vid, set<Vid>>>, p: PageNo) {
    log != [] ==> p in csr && forall r :: r in log ==> r.src in csr[p]
  }

  ghost predicate LogOk(s: State) {
    forall p :: LogAt(Log(s, p), s.csr, p)
  }

  ghost predicate TargetOk(s: State, p: PageNo, v: Vid)
    requires p in s.smo && v in s.smo[p].target && v in s.smo[p].merged
  {
    && v in s.loc && (v in s.smo[p].done <==> s.loc[v] != p)
    && (s.loc[v] == p ==> CasHolds(s, p, v) && DestinationOk(s, p, v))
  }

  /** The page a vertex is on its way to holds its replacement list and may itself be
   *  consolidated, but is not rebuilt yet. */
  ghost predicate DestinationOk(s: State, p: PageNo, v: Vid)
    requires p in s.smo && v in s.smo[p].target && v in s.smo[p].merged
  {
    var c, q := s.smo[p], s.smo[p].target[v];
    && q in s.csr && v in s.csr[q] && (q in s.smo ==> s.smo[q].phase == Fetched)
    && if v in c.giants then v in s.giantList && s.giantList[v] == c.merged[v]
       else v !in s.giant && s.csr[q][v] == c.merged[v]
  }

  ghost predicate FetchedOk(s: State, p: PageNo)
    requires p in s.smo && p in s.csr
  {
    var c := s.smo[p];
    && c.target == map[] && c.stray == [] && c.tail == map[] && c.done == {}
    && forall r :: r in c.fetched ==> r.src in s.csr[p]
  }

  ghost predicate SmoOk(s: State, p: PageNo)
    requires p in s.smo && p in s.csr
  {
    var c := s.smo[p];
    if c.phase == Fetched then FetchedOk(s, p)
    else
      && c.phase != Failed
      && c.target.Keys == c.merged.Keys == s.csr[p].Keys && c.done <= c.target.Keys
      && (c.phase != Draining ==> c.stray == [] && c.done == {})
      && (c.phase == Draining ==> Log(s, p) == [])
      && (forall v :: v in c.target ==> TargetOk(s, p, v))
      && (forall r :: r in c.stray ==> r.src in s.loc && s.loc[r.src] == p)
  }

  ghost predicate SmosOk(s: State) {
    forall p :: p in s.smo ==> p in s.csr && SmoOk(s, p)
  }

  ghost predicate Shape(s: State) {
    LocOk(s) && AllPlaced(s) && LogOk(s) && SmosOk(s)
  }

  // ---------------------------------------------------------------------------
  // Invariant, per vertex

  /** All that one vertex depends on. */
  datatype View =
    | Settled(base: set<Vid>, chain: seq<Op>, here: seq<Op>)
    | Taken(base: set<Vid>, chain: seq<Op>, fetched: seq<Op>, here: seq<Op>)
    | Prepared(base: set<Vid>, chain: seq<Op>, fetched: seq<Op>, here: seq<Op>, merged: set<Vid>)
    | Moving(base: set<Vid>, chain: seq<Op>, waiting: seq<Op>, merged: set<Vid>, moved: seq<Op>,
             tail: Option<int>)

  /** All records that reached a page and are not merged into its list. */
  function Arrived(s: State, q: PageNo): seq<Rec> {
    (if q in s.smo then s.smo[q].fetched else []) + Log(s, q)
  }

  function ViewOf(s: State, v: Vid): View
    requires v in s.loc
  {
    var p := s.loc[v];
    var base := Base(s, v);
    var here := Proj(Log(s, p), v);
    if p !in s.smo then Settled(base, Chain(s, v), here)
    else
      var c := s.smo[p];
      var merged := if v in c.merged then c.merged[v] else {};
      var moved := if v in c.target then Proj(Arrived(s, c.target[v]), v) else [];
      match c.phase
      case Fetched => Taken(base, Chain(s, v), Proj(c.fetched, v), here)
      case Built => Prepared(base, Chain(s, v), Proj(c.fetched, v), here, merged)
      case _ =>
        Moving(base, Chain(s, v), Proj(Pending(s, p), v), merged, moved,
               if v in c.tail then Some(c.tail[v] - Cut(s, v)) else None)
  }

  /** An edge of a moving vertex is right either through its newest waiting
   *  record or through the replacement list and the records already moved. */
  ghost predicate EdgeOk(w: View, t: set<Vid>, e: Vid)
    requires w.Moving?
  {
    && (Newest(w.waiting, e).Some? ==> (e in t <==> Newest(w.waiting, e) == Some(Insert)))
    && (Newest(w.waiting, e) == None ==> (e in t <==> Visible(w.merged, w.moved, e)))
    && (Newest(w.moved, e) == None ==> (e in t <==> Visible(w.base, w.chain, e)))
    && (Newest(w.moved, e).Some? ==> Newest(w.chain, e) == Newest(w.moved, e))
  }

  ghost predicate ViewOk(w: View, t: set<Vid>) {
    match w
    case Settled(base, chain, here) => chain == here && t == Run(base, chain)
    case Taken(base, chain, fetched, here) => chain == fetched + here && t == Run(base, chain)
    case Prepared(base, chain, fetched, here, merged) =>
      chain == fetched + here && t == Run(base, chain) && Run(base, fetched) == merged
    case Moving(base, chain, waiting, merged, moved, tail) =>
      && (tail.Some? <==> moved != [])
      && (tail.Some? ==> 0 <= tail.value <= |chain| && chain[tail.value..] == moved)
      && (forall e :: EdgeOk(w, t, e))
  }

  /** The new page holds nothing for `v` before forwarding starts. */
  ghost predicate Untouched(s: State, v: Vid)
    requires v in s.loc
  {
    s.loc[v] in s.smo && s.smo[s.loc[v]].phase == Built && v in s.smo[s.loc[v]].target ==>
      && v !in s.smo[s.loc[v]].tail
      && Proj(Arrived(s, s.smo[s.loc[v]].target[v]), v) == []
  }

  ghost predicate ViewHolds(s: State, truth: Truth, v: Vid) {
    v in s.loc && v in truth && ViewOk(ViewOf(s, v), truth[v]) && Untouched(s, v)
  }

  ghost predicate ViewsOk(s: State, truth: Truth) {
    && truth.Keys == s.loc.Keys
    && (forall v :: v in s.loc ==> ViewHolds(s, truth, v))
  }

  ghost predicate Inv(s: State, truth: Truth) {
    Shape(s) && ViewsOk(s, truth)
  }

  // ---------------------------------------------------------------------------
  // Projections

  lemma {:induction false} ProjConcat(a: seq<Rec>, b: seq<Rec>, v: Vid)
    ensures Proj(a + b, v) == Proj(a, v) + Proj(b, v)
    decreases |b|
  {
    if b == [] {
      assert a + b == a;
    } else {
      assert (a + b)[..|a + b| - 1] == a + b[..|b| - 1];
      ProjConcat(a, b[..|b| - 1], v);
    }
  }

  lemma ProjSnoc(a: seq<Rec>, r: Rec, v: Vid)
    ensures Proj(a + [r], v) == if r.src == v then Proj(a, v) + [r.op] else Proj(a, v)
  {
    assert (a + [r])[..|a + [r]| - 1] == a;
  }

  lemma ProjCons(a: seq<Rec>, v: Vid)
    requires a != []
    ensures Proj(a, v) == (if a[0].src == v then [a[0].op] else []) + Proj(a[1..], v)
  {
    assert a == [a[0]] + a[1..];
    ProjConcat([a[0]], a[1..], v);
    assert [a[0]][..0] == [];
  }

  // ---------------------------------------------------------------------------
  // One vertex seen alone

  /** A write to a vertex, by the kind of page that serves it. */
  function ViewWrite(w: View, op: Op): View {
    match w
    case Settled(base, chain, here) => Settled(base, chain + [op], here + [op])
    case Taken(base, chain, fetched, here) => Taken(base, chain + [op], fetched, here + [op])
    case Prepared(base, chain, fetched, here, merged) =>
      Prepared(base, chain + [op], fetched, here + [op], merged)
    case Moving(base, chain, waiting, merged, moved, tail) =>
      Moving(base, chain + [op], waiting, merged, moved + [op],
             if tail == None then Some(|chain|) else tail)
  }

  /** A waiting record of the vertex moved to the new page. */
  function ViewDrain(w: View): View
    requires w.Moving? && w.waiting != []
  {
    var op := w.waiting[0];
    Moving(w.base, w.chain + [op], w.waiting[1..], w.merged, w.moved + [op],
           if w.tail == None then Some(|w.chain|) else w.tail)
  }

  lemma WriteEdgeOk(w: View, t: set<Vid>, op: Op, e: Vid)
    requires w.Moving? && EdgeOk(w, t, e)
    requires Newest(w.waiting, op.dst) in {None, Some(op.kind)}
    ensures EdgeOk(ViewWrite(w, op), Apply(t, op), e)
  {
    VisibleSnoc(w.merged, w.moved, op, e);
    VisibleSnoc(w.base, w.chain, op, e);
    hide Newest, Visible;
  }

  lemma ViewWriteOk(w: View, t: set<Vid>, op: Op)
    requires ViewOk(w, t)
    requires w.Moving? ==> Newest(w.waiting, op.dst) in {None, Some(op.kind)}
    ensures ViewOk(ViewWrite(w, op), Apply(t, op))
  {
    hide Newest, Visible, EdgeOk;
    if w.Moving? {
      forall e ensures EdgeOk(ViewWrite(w, op), Apply(t, op), e) {
        assert EdgeOk(w, t, e);
        WriteEdgeOk(w, t, op, e);
      }
    } else {
      RunSnoc(w.base, w.chain, op);
      if !w.Settled? {
        assert w.fetched + w.here + [op] == w.fetched + (w.here + [op]);
      }
    }
  }

  /** Draining the oldest waiting record of the vertex. */
  lemma ViewDrainOk(w: View, t: set<Vid>)
    requires ViewOk(w, t) && w.Moving? && w.waiting != []
    ensures ViewOk(ViewDrain(w), t)
  {
    var op := w.waiting[0];
    var w' := ViewDrain(w);
    forall e ensures EdgeOk(w', t, e) {
      assert EdgeOk(w, t, e);
      VisibleSnoc(w.merged, w.moved, op, e);
      VisibleSnoc(w.base, w.chain, op, e);
      assert w.waiting == [op] + w'.waiting;
      NewestConcat([op], w'.waiting, e);
      assert [op][..0] == [];
    }
  }

  /** Installing the forwarder: all that is not merged waits. */
  lemma ViewInstallOk(w: View, t: set<Vid>)
    requires ViewOk(w, t) && w.Prepared?
    ensures ViewOk(Moving(w.base, w.chain, w.here, w.merged, [], None), t)
  {
    var w' := Moving(w.base, w.chain, w.here, w.merged, [], None);
    forall e ensures EdgeOk(w', t, e) {
      RunIsVisible(w.base, w.chain, e);
      RunIsVisible(w.base, w.fetched, e);
      NewestConcat(w.fetched, w.here, e);
    }
  }

  /** Switching: the cut chain over the replacement list is the truth. */
  lemma ViewSwitchOk(w: View, t: set<Vid>, fetched: seq<Op>, here: seq<Op>)
    requires ViewOk(w, t) && w.Moving? && w.waiting == [] && w.moved == fetched + here
    ensures fetched == [] ==> ViewOk(Settled(w.merged, w.moved, here), t)
    ensures ViewOk(Taken(w.merged, w.moved, fetched, here), t)
  {
    forall e ensures e in t <==> e in Run(w.merged, w.moved) {
      assert EdgeOk(w, t, e);
      RunIsVisible(w.merged, w.moved, e);
    }
    assert fetched == [] ==> w.moved == here;
  }

  // ---------------------------------------------------------------------------
  // Each step keeps the shape and moves each view as above

  /** Where the invariant puts a vertex of a page under consolidation. */
  ghost predicate Served(s: State, v: Vid) {
    && v in s.loc
    && (s.loc[v] in s.smo && s.smo[s.loc[v]].phase != Fetched ==>
          && s.smo[s.loc[v]].phase != Failed
          && v in s.smo[s.loc[v]].target && v in s.smo[s.loc[v]].merged
          && (s.smo[s.loc[v]].target[v] in s.smo ==> s.smo[s.smo[s.loc[v]].target[v]].phase == Fetched))
    && (s.loc[v] in s.smo && s.smo[s.loc[v]].phase == Fetched ==> s.smo[s.loc[v]].target == map[])
  }

  lemma ShapeServes(s: State, v: Vid)
    requires Shape(s) && v in s.loc
    ensures Served(s, v)
  {
    var p := s.loc[v];
    if p in s.smo {
      assert SmoOk(s, p);
      assert v in s.csr[p];
      if s.smo[p].phase != Fetched {
        assert TargetOk(s, p, v);
      }
    }
  }

  /** A view depends on nothing but these parts of the state. */
  ghost predicate SameParts(s: State, s': State, u: Vid)
    requires Served(s, u)
  {
    var p := s.loc[u];
    && u in s'.loc && s'.loc[u] == p
    && Base(s', u) == Base(s, u) && Chain(s', u) == Chain(s, u) && Cut(s', u) == Cut(s, u)
    && (p in s'.smo <==> p in s.smo)
    && (p !in s.smo || s.smo[p].phase != Draining ==>
          Proj(Log(s', p), u) == Proj(Log(s, p), u))
    && (p in s.smo ==>
          var c, c' := s.smo[p], s'.smo[p];
          && c'.phase == c.phase && c'.fetched == c.fetched && c'.merged == c.merged
          && c'.target == c.target
          && Proj(c'.stray, u) == Proj(c.stray, u)
          && (u in c'.tail <==> u in c.tail) && (u in c.tail ==> c'.tail[u] == c.tail[u])
          && (u in c.target ==> Proj(Arrived(s', c.target[u]), u) == Proj(Arrived(s, c.target[u]), u)))
  }

  lemma FrameView(s: State, s': State, u: Vid)
    requires Served(s, u) && SameParts(s, s', u)
    ensures ViewOf(s', u) == ViewOf(s, u)
    ensures Untouched(s, u) ==> Untouched(s', u)
  {
  }

  // Write


  lemma WriteFrame(s: State, v: Vid, op: Op)
    requires v in s.loc
    ensures var s' := DoWrite(s, v, op);
      && s'.loc == s.loc && s'.ver == s.ver && s'.cut == s.cut
      && s'.csr == s.csr && s'.giant == s.giant && s'.giantList == s.giantList
      && s'.chain == s.chain[v := Chain(s, v) + [op]]
      && s'.log == s.log[WritePage(s, v) := Log(s, WritePage(s, v)) + [Rec(v, op)]]
      && s'.smo.Keys == s.smo.Keys
  {
    hide NoteTail, Top, Chain, Log, WritePage, Forwarded, Append;
    AppendFrame(s, v, op, WritePage(s, v));
    ForwardedThere(s, v);
  }

  lemma AppendFrame(s: State, v: Vid, op: Op, q: PageNo)
    ensures Append(s, v, op, q)
         == s.(chain := s.chain[v := Chain(s, v) + [op]], log := s.log[q := Log(s, q) + [Rec(v, op)]])
  {
  }

  lemma ForwardedThere(s: State, v: Vid)
    ensures Forwarded(s, v) ==> v in s.loc && s.loc[v] in s.smo && v in s.smo[s.loc[v]].target
  {
  }

  lemma WriteSmoFrame(s: State, v: Vid, op: Op, p: PageNo)
    requires v in s.loc && p in s.smo
    ensures var c, c' := s.smo[p], DoWrite(s, v, op).smo[p];
      && c'.phase == c.phase && c'.fetched == c.fetched && c'.merged == c.merged
      && c'.target == c.target && c'.giants == c.giants && c'.stray == c.stray
      && c'.expected == c.expected && c'.done == c.done
      && c'.tail == if Forwarded(s, v) && p == s.loc[v] && v !in c.tail then c.tail[v := Top(s, v)] else c.tail
  {
  }

  lemma WriteProj(s: State, v: Vid, op: Op, r: PageNo, u: Vid)
    requires v in s.loc
    ensures Proj(Log(DoWrite(s, v, op), r), u)
         == if r == WritePage(s, v) && u == v then Proj(Log(s, r), u) + [op] else Proj(Log(s, r), u)
  {
    WriteFrame(s, v, op);
    ProjSnoc(Log(s, WritePage(s, v)), Rec(v, op), u);
  }

  lemma WriteArrived(s: State, v: Vid, op: Op, r: PageNo, u: Vid)
    requires v in s.loc
    ensures Proj(Arrived(DoWrite(s, v, op), r), u)
         == if r == WritePage(s, v) && u == v then Proj(Arrived(s, r), u) + [op] else Proj(Arrived(s, r), u)
  {
    hide Proj, DoWrite, WritePage, Log;
    WriteFrame(s, v, op);
    WriteProj(s, v, op, r, u);
    if r in s.smo {
      WriteSmoFrame(s, v, op, r);
    }
    ArrivedProj(s, r, u);
    ArrivedProj(DoWrite(s, v, op), r, u);
  }

  lemma ArrivedProj(s: State, r: PageNo, u: Vid)
    ensures Proj(Arrived(s, r), u) == (if r in s.smo then Proj(s.smo[r].fetched, u) else []) + Proj(Log(s, r), u)
  {
    hide Log;
    if r in s.smo {
      ProjConcat(s.smo[r].fetched, Log(s, r), u);
    } else {
      assert [] + Log(s, r) == Log(s, r);
    }
  }

  lemma WriteViewOther(s: State, v: Vid, op: Op, u: Vid)
    requires v in s.loc && Served(s, u) && u != v
    ensures ViewOf(DoWrite(s, v, op), u) == ViewOf(s, u)
    ensures Untouched(s, u) ==> Untouched(DoWrite(s, v, op), u)
  {
    var s' := DoWrite(s, v, op);
    var p := s.loc[u];
    WriteFrame(s, v, op);
    WriteProj(s, v, op, p, u);
    if p in s.smo {
      WriteSmoFrame(s, v, op, p);
      if u in s.smo[p].target {
        WriteArrived(s, v, op, s.smo[p].target[u], u);
      }
    }
    assert SameParts(s, s', u);
    FrameView(s, s', u);
  }

  lemma WriteSelfUnforwarded(s: State, v: Vid, op: Op)
    requires v in s.loc && Served(s, v) && !Forwarded(s, v)
    ensures ViewOf(DoWrite(s, v, op), v) == ViewWrite(ViewOf(s, v), op)
    ensures Untouched(s, v) ==> Untouched(DoWrite(s, v, op), v)
  {
    hide Proj, DoWrite;
    var p := s.loc[v];
    WriteFrame(s, v, op);
    WriteProj(s, v, op, p, v);
    if p in s.smo {
      WriteSmoFrame(s, v, op, p);
      if v in s.smo[p].target {
        WriteArrived(s, v, op, s.smo[p].target[v], v);
      }
    }
  }

  lemma WriteSelfForwarded(s: State, v: Vid, op: Op)
    requires v in s.loc && Served(s, v) && Forwarded(s, v)
    ensures ViewOf(DoWrite(s, v, op), v) == ViewWrite(ViewOf(s, v), op)
    ensures Untouched(DoWrite(s, v, op), v)
  {
    hide Proj, DoWrite;
    var p := s.loc[v];
    WriteFrame(s, v, op);
    WriteSmoFrame(s, v, op, p);
    WriteProj(s, v, op, p, v);
    WriteArrived(s, v, op, s.smo[p].target[v], v);
  }

  /** `TargetOk` only looks at the stored lists, the location, version and type of the vertex,
   *  and at whether the destination is rebuilt. */
  lemma FrameTarget(s: State, s': State, p: PageNo, v: Vid)
    requires p in s.smo && v in s.smo[p].target && v in s.smo[p].merged && TargetOk(s, p, v)
    requires p in s'.smo && SameJob(s.smo[p], s'.smo[p], v)
    requires v in s.loc ==> v in s'.loc && s'.loc[v] == s.loc[v] && Ver(s', v) == Ver(s, v)
    requires v in s'.giant <==> v in s.giant
    requires v in s.loc && s.loc[v] == p && v in s.giantList ==> v in s'.giantList && s'.giantList[v] == s.giantList[v]
    requires v in s.loc && s.loc[v] == p ==> SameDestination(s, s', s.smo[p].target[v])
    ensures TargetOk(s', p, v)
  {
  }

  ghost predicate SameJob(c: Smo, c': Smo, v: Vid) {
    && c'.target == c.target && c'.merged == c.merged && c'.giants == c.giants && c'.expected == c.expected
    && (v in c'.done <==> v in c.done)
  }

  ghost predicate SameDestination(s: State, s': State, q: PageNo) {
    && (q in s.csr ==> q in s'.csr && s'.csr[q] == s.csr[q])
    && (q in s'.smo && (q in s.smo ==> s.smo[q].phase == Fetched) ==> s'.smo[q].phase == Fetched)
  }

  lemma WriteSmo(s: State, v: Vid, op: Op, p: PageNo)
    requires v in s.loc && Served(s, v) && p in s.smo && p in s.csr && SmoOk(s, p)
    ensures SmoOk(DoWrite(s, v, op), p)
  {
    hide DoWrite;
    var s' := DoWrite(s, v, op);
    WriteFrame(s, v, op);
    WriteSmoFrame(s, v, op, p);
    if s.smo[p].phase == Draining {
      WriteNotTo(s, v, op, p);
    }
    if s.smo[p].phase != Fetched {
      forall u | u in s'.smo[p].target ensures TargetOk(s', p, u) {
        if s.smo[p].target[u] in s.smo {
          WriteSmoFrame(s, v, op, s.smo[p].target[u]);
        }
        FrameTarget(s, s', p, u);
      }
    }
  }

  /** Nothing is written to the page chain of an old page any more once it is drained. */
  lemma WriteNotTo(s: State, v: Vid, op: Op, p: PageNo)
    requires v in s.loc && Served(s, v) && p in s.smo && s.smo[p].phase == Draining
    ensures WritePage(s, v) != p
  {
  }

  /** `Placed` only looks at published locations and forwarding tables. */
  lemma FramePlaced(s: State, s': State, p: PageNo, u: Vid)
    requires Placed(s, p, u) && s'.loc == s.loc
    requires forall r :: r in s.smo ==> r in s'.smo && s'.smo[r].target == s.smo[r].target
    ensures Placed(s', p, u)
  {
  }

  lemma WriteSameTargets(s: State, v: Vid, op: Op)
    requires v in s.loc
    ensures var s' := DoWrite(s, v, op);
      && s'.smo.Keys == s.smo.Keys
      && (forall r :: r in s.smo ==> s'.smo[r].target == s.smo[r].target)
      && (forall r :: r in s.smo ==> s'.smo[r].phase == s.smo[r].phase)
  {
    WriteFrame(s, v, op);
    forall r | r in s.smo
      ensures DoWrite(s, v, op).smo[r].target == s.smo[r].target
      ensures DoWrite(s, v, op).smo[r].phase == s.smo[r].phase
    {
      WriteSmoFrame(s, v, op, r);
    }
  }

  /** Where a write goes, the vertex is stored. */
  lemma WriteStored(s: State, v: Vid)
    requires Shape(s) && v in s.loc
    ensures WritePage(s, v) in s.csr && v in s.csr[WritePage(s, v)]
  {
    if Forwarded(s, v) {
      assert SmoOk(s, s.loc[v]);
      assert TargetOk(s, s.loc[v], v);
    }
  }

  lemma WriteLogOk(s: State, v: Vid, op: Op)
    requires Shape(s) && v in s.loc
    ensures LogOk(DoWrite(s, v, op))
  {
    hide DoWrite, WritePage, SmosOk, AllPlaced;
    WriteFrame(s, v, op);
    WriteStored(s, v);
    forall p
      ensures LogAt(Log(DoWrite(s, v, op), p), s.csr, p)
    {
      assert LogAt(Log(s, p), s.csr, p);
    }
  }

  lemma WriteSmos(s: State, v: Vid, op: Op)
    requires SmosOk(s) && v in s.loc && Served(s, v)
    ensures SmosOk(DoWrite(s, v, op))
  {
    WriteFrame(s, v, op);
    forall p | p in DoWrite(s, v, op).smo ensures SmoOk(DoWrite(s, v, op), p) {
      WriteSmo(s, v, op, p);
    }
  }

  /** Steps that only move records keep the pages and who is placed on them. */
  lemma FrameAllPlaced(s: State, s': State)
    requires AllPlaced(s) && s'.loc == s.loc && s'.csr == s.csr
    requires forall r :: r in s.smo ==> r in s'.smo && s'.smo[r].target == s.smo[r].target
    ensures AllPlaced(s')
  {
    forall p, u | p in s'.csr && u in s'.csr[p] ensures Placed(s', p, u) {
      FramePlaced(s, s', p, u);
    }
  }

  lemma WriteLocOk(s: State, v: Vid, op: Op)
    requires LocOk(s) && v in s.loc
    ensures LocOk(DoWrite(s, v, op))
  {
    WriteFrame(s, v, op);
  }

  lemma WriteShape(s: State, v: Vid, op: Op)
    requires Shape(s) && v in s.loc
    ensures Shape(DoWrite(s, v, op))
  {
    ShapeServes(s, v);
    WriteFrame(s, v, op);
    WriteSameTargets(s, v, op);
    FrameAllPlaced(s, DoWrite(s, v, op));
    WriteLocOk(s, v, op);
    WriteLogOk(s, v, op);
    WriteSmos(s, v, op);
  }

  /** What the invariant says of one vertex. */
  ghost predicate VertexOk(s: State, truth: Truth, v: Vid) {
    Served(s, v) && ViewHolds(s, truth, v)
  }

  lemma InvVertex(s: State, truth: Truth, v: Vid)
    requires Inv(s, truth) && v in s.loc
    ensures VertexOk(s, truth, v)
  {
    ShapeServes(s, v);
  }

  /** The schedule hypothesis on a write, seen from its vertex. */
  lemma OrderedView(s: State, v: Vid, op: Op)
    requires v in s.loc && Served(s, v) && Ordered(s, Write(v, op))
    ensures ViewOf(s, v).Moving? ==> Newest(ViewOf(s, v).waiting, op.dst) in {None, Some(op.kind)}
  {
  }

  lemma WriteVertex(s: State, truth: Truth, v: Vid, op: Op, u: Vid)
    requires v in s.loc && Ordered(s, Write(v, op)) && VertexOk(s, truth, u)
    ensures ViewHolds(DoWrite(s, v, op), NextTruth(truth, Write(v, op)), u)
  {
    hide DoWrite, ViewOk, Untouched, ViewOf, Apply, Served, Ordered, Forwarded;
    if u == v {
      OrderedView(s, v, op);
      if Forwarded(s, v) {
        WriteSelfForwarded(s, v, op);
      } else {
        WriteSelfUnforwarded(s, v, op);
      }
      ViewWriteOk(ViewOf(s, v), truth[v], op);
    } else {
      WriteViewOther(s, v, op, u);
    }
    WriteFrame(s, v, op);
  }

  lemma WriteHolds(s: State, truth: Truth, v: Vid, op: Op, u: Vid)
    requires Inv(s, truth) && v in s.loc && Ordered(s, Write(v, op)) && u in s.loc
    ensures ViewHolds(DoWrite(s, v, op), NextTruth(truth, Write(v, op)), u)
  {
    InvVertex(s, truth, u);
    WriteVertex(s, truth, v, op, u);
  }

  lemma WriteKeys(s: State, truth: Truth, v: Vid, op: Op)
    requires v in s.loc && truth.Keys == s.loc.Keys
    ensures NextTruth(truth, Write(v, op)).Keys == DoWrite(s, v, op).loc.Keys
    ensures DoWrite(s, v, op).loc == s.loc
  {
    WriteFrame(s, v, op);
  }

  lemma WriteViews(s: State, truth: Truth, v: Vid, op: Op)
    requires Inv(s, truth) && v in s.loc && Ordered(s, Write(v, op))
    ensures ViewsOk(DoWrite(s, v, op), NextTruth(truth, Write(v, op)))
  {
    WriteKeys(s, truth, v, op);
    forall u | u in s.loc ensures ViewHolds(DoWrite(s, v, op), NextTruth(truth, Write(v, op)), u) {
      WriteHolds(s, truth, v, op, u);
    }
  }

  lemma WriteKeeps(s: State, truth: Truth, v: Vid, op: Op)
    requires Inv(s, truth) && v in s.loc && Ordered(s, Write(v, op))
    ensures Inv(DoWrite(s, v, op), NextTruth(truth, Write(v, op)))
  {
    WriteShape(s, v, op);
    WriteViews(s, truth, v, op);
  }

  // Fetch

  lemma FetchFrame(s: State, p: PageNo, r: PageNo)
    ensures var s' := DoFetch(s, p);
      && s'.loc == s.loc && s'.ver == s.ver && s'.cut == s.cut
      && s'.csr == s.csr && s'.giant == s.giant && s'.giantList == s.giantList
      && s'.chain == s.chain && s'.smo.Keys == s.smo.Keys + {p}
      && (r in s.smo && r != p ==> s'.smo[r] == s.smo[r])
      && s'.smo[p] == Began(Log(s, p))
      && Log(s', r) == if r == p then [] else Log(s, r)
  {
  }

  /** Taking the records of a page moves them within what arrived there. */
  lemma FetchArrived(s: State, p: PageNo, r: PageNo)
    requires p !in s.smo
    ensures Arrived(DoFetch(s, p), r) == Arrived(s, r)
  {
    FetchFrame(s, p, r);
    if r == p {
      assert Log(s, p) + [] == [] + Log(s, p);
    }
  }

  lemma FetchVertex(s: State, truth: Truth, p: PageNo, u: Vid)
    requires CanFetch(s, p) && VertexOk(s, truth, u)
    ensures ViewHolds(DoFetch(s, p), truth, u)
  {
    var s' := DoFetch(s, p);
    var r := s.loc[u];
    FetchFrame(s, p, r);
    if r == p {
      var w, w' := ViewOf(s, u), ViewOf(s', u);
      assert w' == Taken(w.base, w.chain, w.here, Proj([], u));
      assert w.here + [] == w.here;
    } else {
      if r in s.smo && u in s.smo[r].target {
        FetchArrived(s, p, s.smo[r].target[u]);
      }
      FrameView(s, s', u);
    }
  }

  lemma FetchSmo(s: State, p: PageNo, r: PageNo)
    requires CanFetch(s, p) && r in s.csr && LogOk(s)
    requires r in s.smo ==> SmoOk(s, r)
    requires r == p || r in s.smo
    ensures SmoOk(DoFetch(s, p), r)
  {
    hide DoFetch;
    var s' := DoFetch(s, p);
    FetchFrame(s, p, r);
    assert LogAt(Log(s, p), s.csr, p);
    if r != p && s.smo[r].phase != Fetched {
      forall u | u in s'.smo[r].target ensures TargetOk(s', r, u) {
        FetchFrame(s, p, s.smo[r].target[u]);
        FrameTarget(s, s', r, u);
      }
    }
  }

  lemma FetchLogOk(s: State, p: PageNo)
    requires CanFetch(s, p) && LogOk(s)
    ensures LogOk(DoFetch(s, p))
  {
    hide DoFetch;
    FetchFrame(s, p, p);
    forall q
      ensures LogAt(Log(DoFetch(s, p), q), s.csr, q)
    {
      FetchFrame(s, p, q);
      assert LogAt(Log(s, q), s.csr, q);
    }
  }

  lemma FetchPlaced(s: State, p: PageNo, q: PageNo, u: Vid)
    requires CanFetch(s, p) && Placed(s, q, u)
    ensures Placed(DoFetch(s, p), q, u)
  {
    FetchFrame(s, p, q);
    FetchFrame(s, p, s.loc[u]);
  }

  lemma FetchSmos(s: State, p: PageNo)
    requires SmosOk(s) && LogOk(s) && CanFetch(s, p)
    ensures SmosOk(DoFetch(s, p))
  {
    FetchFrame(s, p, p);
    forall r | r in DoFetch(s, p).smo ensures r in s.csr && SmoOk(DoFetch(s, p), r) {
      FetchSmo(s, p, r);
    }
  }

  lemma FetchAllPlaced(s: State, p: PageNo)
    requires AllPlaced(s) && CanFetch(s, p)
    ensures AllPlaced(DoFetch(s, p))
  {
    FetchFrame(s, p, p);
    forall q, u | q in s.csr && u in s.csr[q] ensures Placed(DoFetch(s, p), q, u) {
      FetchPlaced(s, p, q, u);
    }
  }

  lemma FetchLocOk(s: State, p: PageNo)
    requires LocOk(s)
    ensures LocOk(DoFetch(s, p))
  {
    FetchFrame(s, p, p);
  }

  lemma FetchViews(s: State, truth: Truth, p: PageNo)
    requires Inv(s, truth) && CanFetch(s, p)
    ensures ViewsOk(DoFetch(s, p), truth)
  {
    FetchFrame(s, p, p);
    forall u | u in s.loc
      ensures ViewHolds(DoFetch(s, p), truth, u)
    {
      InvVertex(s, truth, u);
      FetchVertex(s, truth, p, u);
    }
  }

  lemma FetchKeeps(s: State, truth: Truth, p: PageNo)
    requires Inv(s, truth) && CanFetch(s, p)
    ensures Inv(DoFetch(s, p), truth)
  {
    FetchLocOk(s, p);
    FetchLogOk(s, p);
    FetchSmos(s, p);
    FetchAllPlaced(s, p);
    FetchViews(s, truth, p);
  }

  // Install and FetchStray

  lemma InstallFrame(s: State, p: PageNo, r: PageNo)
    requires p in s.smo
    ensures var s' := DoInstall(s, p);
      && s'.loc == s.loc && s'.ver == s.ver && s'.cut == s.cut
      && s'.csr == s.csr && s'.giant == s.giant && s'.giantList == s.giantList
      && s'.chain == s.chain && s'.log == s.log && s'.smo.Keys == s.smo.Keys
      && (r in s.smo ==> s'.smo[r] == if r == p then s.smo[r].(phase := Forwarding) else s.smo[r])
  {
  }

  lemma InstallVertex(s: State, truth: Truth, p: PageNo, u: Vid)
    requires p in s.smo && s.smo[p].phase == Built && VertexOk(s, truth, u)
    ensures ViewHolds(DoInstall(s, p), truth, u)
  {
    hide DoInstall, ViewOk, Proj;
    var s' := DoInstall(s, p);
    InstallFrame(s, p, s.loc[u]);
    if s.loc[u] in s.smo && u in s.smo[s.loc[u]].target {
      InstallFrame(s, p, s.smo[s.loc[u]].target[u]);
    }
    if s.loc[u] == p {
      var w := ViewOf(s, u);
      ViewInstallOk(w, truth[u]);
      assert ViewOf(s', u) == Moving(w.base, w.chain, w.here, w.merged, [], None);
    } else {
      FrameView(s, s', u);
    }
  }

  lemma FetchStrayFrame(s: State, p: PageNo, r: PageNo)
    requires p in s.smo
    ensures var s' := DoFetchStray(s, p);
      && s'.loc == s.loc && s'.ver == s.ver && s'.cut == s.cut
      && s'.csr == s.csr && s'.giant == s.giant && s'.giantList == s.giantList
      && s'.chain == s.chain && s'.smo.Keys == s.smo.Keys
      && (r in s.smo ==>
            s'.smo[r] == if r == p then s.smo[r].(phase := Draining, stray := Log(s, p)) else s.smo[r])
      && Log(s', r) == if r == p then [] else Log(s, r)
  {
  }

  lemma FetchStrayVertex(s: State, truth: Truth, p: PageNo, u: Vid)
    requires p in s.smo && s.smo[p].phase == Forwarding && VertexOk(s, truth, u)
    ensures ViewHolds(DoFetchStray(s, p), truth, u)
  {
    hide DoFetchStray, ViewOk, Proj;
    var s' := DoFetchStray(s, p);
    var r := s.loc[u];
    FetchStrayFrame(s, p, r);
    if r in s.smo && u in s.smo[r].target {
      FetchStrayFrame(s, p, s.smo[r].target[u]);
    }
    if r == p {
      assert ViewOf(s', u) == ViewOf(s, u);
    } else {
      FrameView(s, s', u);
    }
  }

  lemma InstallSmo(s: State, p: PageNo, r: PageNo)
    requires p in s.smo && s.smo[p].phase == Built && r in s.smo && r in s.csr && SmoOk(s, r)
    ensures SmoOk(DoInstall(s, p), r)
  {
    var s' := DoInstall(s, p);
    InstallFrame(s, p, r);
    if s.smo[r].phase != Fetched {
      forall u | u in s'.smo[r].target ensures TargetOk(s', r, u) {
        InstallFrame(s, p, s.smo[r].target[u]);
        FrameTarget(s, s', r, u);
      }
    }
  }

  /** What is on the old page when the forwarder is up belongs to vertices still there. */
  lemma StraysHere(s: State, p: PageNo, r: Rec)
    requires Shape(s) && p in s.smo && s.smo[p].phase == Forwarding && r in Log(s, p)
    ensures r.src in s.loc && s.loc[r.src] == p
  {
    hide LocOk;
    assert SmoOk(s, p) && LogAt(Log(s, p), s.csr, p);
    assert Placed(s, p, r.src);
    NotToRebuilt(s, p, s.loc[r.src], r.src);
    assert TargetOk(s, p, r.src);
  }

  /** Nobody is on the way to a page that is rebuilt. */
  lemma NotToRebuilt(s: State, p: PageNo, r: PageNo, u: Vid)
    requires SmosOk(s) && p in s.smo && s.smo[p].phase != Fetched
    ensures !Heading(s, r, u, p)
  {
    if r in s.smo && u in s.smo[r].target {
      assert SmoOk(s, r);
    }
  }

  lemma FetchStraySmo(s: State, p: PageNo, r: PageNo)
    requires Shape(s) && p in s.smo && s.smo[p].phase == Forwarding && r in s.smo
    ensures SmoOk(DoFetchStray(s, p), r)
  {
    hide DoFetchStray, LocOk, AllPlaced, LogOk, TargetOk;
    var s' := DoFetchStray(s, p);
    FetchStrayFrame(s, p, r);
    assert SmoOk(s, r);
    if s.smo[r].phase != Fetched {
      forall u | u in s'.smo[r].target ensures TargetOk(s', r, u) {
        FetchStrayFrame(s, p, s.smo[r].target[u]);
        FrameTarget(s, s', r, u);
      }
      forall x | x in s'.smo[r].stray ensures x.src in s'.loc && s'.loc[x.src] == r {
        if r == p {
          StraysHere(s, p, x);
        }
      }
    }
  }

  lemma InstallShape(s: State, p: PageNo)
    requires Shape(s) && p in s.smo && s.smo[p].phase == Built
    ensures Shape(DoInstall(s, p))
  {
    InstallFrame(s, p, p);
    forall r | r in s.smo
      ensures DoInstall(s, p).smo[r].target == s.smo[r].target && SmoOk(DoInstall(s, p), r)
    {
      InstallFrame(s, p, r);
      InstallSmo(s, p, r);
    }
    FrameAllPlaced(s, DoInstall(s, p));
    InstallLogOk(s, p);
  }

  lemma InstallLogOk(s: State, p: PageNo)
    requires p in s.smo && LogOk(s)
    ensures LogOk(DoInstall(s, p))
  {
    hide DoInstall;
    InstallFrame(s, p, p);
    forall q
      ensures LogAt(Log(DoInstall(s, p), q), s.csr, q)
    {
      assert LogAt(Log(s, q), s.csr, q);
    }
  }

  lemma InstallKeeps(s: State, truth: Truth, p: PageNo)
    requires Inv(s, truth) && p in s.smo && s.smo[p].phase == Built
    ensures Inv(DoInstall(s, p), truth)
  {
    InstallShape(s, p);
    InstallFrame(s, p, p);
    forall u | u in s.loc
      ensures ViewHolds(DoInstall(s, p), truth, u)
    {
      InvVertex(s, truth, u);
      InstallVertex(s, truth, p, u);
    }
  }

  lemma FetchStrayLogOk(s: State, p: PageNo)
    requires p in s.smo && LogOk(s)
    ensures LogOk(DoFetchStray(s, p))
  {
    hide DoFetchStray;
    FetchStrayFrame(s, p, p);
    forall q
      ensures LogAt(Log(DoFetchStray(s, p), q), s.csr, q)
    {
      FetchStrayFrame(s, p, q);
      assert LogAt(Log(s, q), s.csr, q);
    }
  }

  lemma FetchStrayShape(s: State, p: PageNo)
    requires Shape(s) && p in s.smo && s.smo[p].phase == Forwarding
    ensures Shape(DoFetchStray(s, p))
  {
    FetchStrayFrame(s, p, p);
    FetchStrayLogOk(s, p);
    forall r | r in s.smo
      ensures DoFetchStray(s, p).smo[r].target == s.smo[r].target && SmoOk(DoFetchStray(s, p), r)
    {
      FetchStrayFrame(s, p, r);
      FetchStraySmo(s, p, r);
    }
    FrameAllPlaced(s, DoFetchStray(s, p));
  }

  lemma FetchStrayKeeps(s: State, truth: Truth, p: PageNo)
    requires Inv(s, truth) && p in s.smo && s.smo[p].phase == Forwarding
    ensures Inv(DoFetchStray(s, p), truth)
  {
    FetchStrayShape(s, p);
    FetchStrayFrame(s, p, p);
    forall u | u in s.loc
      ensures ViewHolds(DoFetchStray(s, p), truth, u)
    {
      InvVertex(s, truth, u);
      FetchStrayVertex(s, truth, p, u);
    }
  }

  // Drain

  lemma DrainFrame(s: State, p: PageNo, r: PageNo)
    requires CanDrain(s, p)
    ensures var s', c := DoDrain(s, p), s.smo[p];
      var x := c.stray[0];
      && s'.loc == s.loc && s'.ver == s.ver && s'.cut == s.cut
      && s'.csr == s.csr && s'.giant == s.giant && s'.giantList == s.giantList
      && s'.chain == s.chain[x.src := Chain(s, x.src) + [x.op]] && s'.smo.Keys == s.smo.Keys
      && s'.log == s.log[c.target[x.src] := Log(s, c.target[x.src]) + [x]]
      && (r in s.smo && r != p ==> s'.smo[r] == s.smo[r])
      && s'.smo[p] == c.(stray := c.stray[1..], tail := s'.smo[p].tail)
      && s'.smo[p].tail == if x.src in c.tail then c.tail else c.tail[x.src := Top(s, x.src)]
  {
  }

  lemma DrainProj(s: State, p: PageNo, r: PageNo, u: Vid)
    requires CanDrain(s, p)
    ensures var x := s.smo[p].stray[0];
      Proj(Log(DoDrain(s, p), r), u)
        == if r == s.smo[p].target[x.src] && u == x.src then Proj(Log(s, r), u) + [x.op]
           else Proj(Log(s, r), u)
  {
    DrainFrame(s, p, r);
    var x := s.smo[p].stray[0];
    ProjSnoc(Log(s, s.smo[p].target[x.src]), x, u);
  }

  lemma DrainArrived(s: State, p: PageNo, r: PageNo, u: Vid)
    requires CanDrain(s, p)
    ensures var x := s.smo[p].stray[0];
      Proj(Arrived(DoDrain(s, p), r), u)
        == if r == s.smo[p].target[x.src] && u == x.src then Proj(Arrived(s, r), u) + [x.op]
           else Proj(Arrived(s, r), u)
  {
    hide Proj, DoDrain, Log;
    DrainFrame(s, p, r);
    DrainProj(s, p, r, u);
    ArrivedProj(s, r, u);
    ArrivedProj(DoDrain(s, p), r, u);
  }

  lemma MovingView(s: State, v: Vid)
    requires v in s.loc && s.loc[v] in s.smo && s.smo[s.loc[v]].phase == Draining && v in s.smo[s.loc[v]].target
    ensures var c := s.smo[s.loc[v]];
      ViewOf(s, v) == Moving(Base(s, v), Chain(s, v), Proj(c.stray, v),
                             if v in c.merged then c.merged[v] else {}, Proj(Arrived(s, c.target[v]), v),
                             if v in c.tail then Some(c.tail[v] - Cut(s, v)) else None)
  {
  }

  lemma DrainParts(s: State, p: PageNo)
    requires CanDrain(s, p)
    requires var v := s.smo[p].stray[0].src; Served(s, v) && s.loc[v] == p
    ensures p in DoDrain(s, p).smo
    ensures var x, s', c := s.smo[p].stray[0], DoDrain(s, p), s.smo[p];
      var c' := s'.smo[p];
      && x.src in s.loc && x.src in s'.loc && s'.loc[x.src] == p && p in s'.smo
      && c'.phase == Draining && x.src in c'.target
      && c'.merged == c.merged && c'.target == c.target && Base(s', x.src) == Base(s, x.src)
      && Chain(s', x.src) == Chain(s, x.src) + [x.op] && Cut(s', x.src) == Cut(s, x.src)
      && Proj(c.stray, x.src) == [x.op] + Proj(c'.stray, x.src)
      && Proj(Arrived(s', c.target[x.src]), x.src) == Proj(Arrived(s, c.target[x.src]), x.src) + [x.op]
      && x.src in c'.tail
      && c'.tail[x.src] - Cut(s', x.src) == if x.src in c.tail then c.tail[x.src] - Cut(s, x.src) else |Chain(s, x.src)|
  {
    hide Proj, DoDrain, Arrived;
    var x := s.smo[p].stray[0];
    DrainFrame(s, p, p);
    DrainArrived(s, p, s.smo[p].target[x.src], x.src);
    ProjCons(s.smo[p].stray, x.src);
  }

  lemma DrainViewSelf(s: State, p: PageNo)
    requires CanDrain(s, p)
    requires var v := s.smo[p].stray[0].src; Served(s, v) && s.loc[v] == p
    ensures var v := s.smo[p].stray[0].src;
      var w := ViewOf(s, v);
      && w.Moving? && w.waiting != [] && ViewOf(DoDrain(s, p), v) == ViewDrain(w)
  {
    hide Proj, DoDrain, ViewOf, Base, Chain, Cut, Arrived, Served, ViewDrain;
    var x := s.smo[p].stray[0];
    DrainParts(s, p);
    MovingView(s, x.src);
    MovingView(DoDrain(s, p), x.src);
    DrainedView(ViewOf(s, x.src), x.op, Proj(DoDrain(s, p).smo[p].stray, x.src));
  }

  lemma DrainedView(w: View, op: Op, rest: seq<Op>)
    requires w.Moving? && w.waiting == [op] + rest
    ensures w.waiting != []
    ensures ViewDrain(w) == Moving(w.base, w.chain + [op], rest, w.merged, w.moved + [op],
                                   if w.tail == None then Some(|w.chain|) else w.tail)
  {
    assert w.waiting[0] == op && w.waiting[1..] == rest;
  }

  lemma DrainViewOther(s: State, p: PageNo, u: Vid)
    requires CanDrain(s, p) && u != s.smo[p].stray[0].src && Served(s, u)
    ensures ViewOf(DoDrain(s, p), u) == ViewOf(s, u)
    ensures Untouched(s, u) ==> Untouched(DoDrain(s, p), u)
  {
    hide DoDrain, Proj, Arrived, ViewOf, Untouched;
    var r := s.loc[u];
    DrainFrame(s, p, r);
    DrainProj(s, p, r, u);
    if r in s.smo && u in s.smo[r].target {
      DrainArrived(s, p, s.smo[r].target[u], u);
    }
    ProjCons(s.smo[p].stray, u);
    assert Proj(s.smo[p].stray, u) == Proj(s.smo[p].stray[1..], u);
    FrameView(s, DoDrain(s, p), u);
  }

  lemma DrainVertex(s: State, truth: Truth, p: PageNo, u: Vid)
    requires CanDrain(s, p) && VertexOk(s, truth, u)
    requires var v := s.smo[p].stray[0].src; Served(s, v) && s.loc[v] == p
    ensures ViewHolds(DoDrain(s, p), truth, u)
  {
    if u == s.smo[p].stray[0].src {
      DrainViewSelf(s, p);
      ViewDrainOk(ViewOf(s, u), truth[u]);
      DrainFrame(s, p, p);
    } else {
      DrainViewOther(s, p, u);
    }
  }

  /** A drained record goes to a page that is not rebuilt. */
  lemma DrainNotTo(s: State, p: PageNo, r: PageNo)
    requires SmosOk(s) && CanDrain(s, p) && r in s.smo && s.smo[r].phase != Fetched
    ensures s.smo[p].target[s.smo[p].stray[0].src] != r
  {
    StrayServed(s, p);
    NotToRebuilt(s, r, p, s.smo[p].stray[0].src);
  }

  lemma DrainSmo(s: State, p: PageNo, r: PageNo)
    requires SmosOk(s) && CanDrain(s, p) && r in s.smo
    ensures SmoOk(DoDrain(s, p), r)
  {
    hide DoDrain, TargetOk;
    var s' := DoDrain(s, p);
    DrainFrame(s, p, r);
    assert SmoOk(s, r);
    StrayTarget(s, p);
    if s.smo[r].phase != Fetched {
      DrainNotTo(s, p, r);
      forall u | u in s'.smo[r].target ensures TargetOk(s', r, u) {
        DrainFrame(s, p, s.smo[r].target[u]);
        FrameTarget(s, s', r, u);
      }
    }
  }

  lemma DrainLogOk(s: State, p: PageNo)
    requires Shape(s) && CanDrain(s, p)
    ensures LogOk(DoDrain(s, p))
  {
    hide DoDrain, LocOk, AllPlaced;
    StrayServed(s, p);
    StrayTarget(s, p);
    DrainFrame(s, p, p);
    forall q
      ensures LogAt(Log(DoDrain(s, p), q), s.csr, q)
    {
      assert LogAt(Log(s, q), s.csr, q);
    }
  }

  lemma StrayTarget(s: State, p: PageNo)
    requires SmosOk(s) && CanDrain(s, p)
    ensures var x := s.smo[p].stray[0];
      s.smo[p].target[x.src] in s.csr && x.src in s.csr[s.smo[p].target[x.src]] && s.smo[p].target[x.src] != p
  {
    StrayServed(s, p);
    assert SmoOk(s, p);
    assert TargetOk(s, p, s.smo[p].stray[0].src);
  }

  lemma DrainSameTargets(s: State, p: PageNo)
    requires CanDrain(s, p)
    ensures var s' := DoDrain(s, p);
      && s'.loc == s.loc && s'.csr == s.csr && s'.smo.Keys == s.smo.Keys
      && forall r :: r in s.smo ==> s'.smo[r].target == s.smo[r].target
  {
    DrainFrame(s, p, p);
    forall r | r in s.smo ensures DoDrain(s, p).smo[r].target == s.smo[r].target {
      DrainFrame(s, p, r);
    }
  }

  lemma DrainSmos(s: State, p: PageNo)
    requires SmosOk(s) && CanDrain(s, p)
    ensures SmosOk(DoDrain(s, p))
  {
    DrainSameTargets(s, p);
    forall r | r in s.smo ensures SmoOk(DoDrain(s, p), r) {
      DrainSmo(s, p, r);
    }
  }

  lemma DrainLocOk(s: State, p: PageNo)
    requires LocOk(s) && CanDrain(s, p) && s.smo[p].stray[0].src in s.loc
    ensures LocOk(DoDrain(s, p))
  {
    DrainFrame(s, p, p);
  }

  lemma StrayServed(s: State, p: PageNo)
    requires SmosOk(s) && CanDrain(s, p)
    ensures var v := s.smo[p].stray[0].src; v in s.loc && s.loc[v] == p
  {
    assert SmoOk(s, p);
  }

  lemma DrainShape(s: State, p: PageNo)
    requires Shape(s) && CanDrain(s, p)
    ensures Shape(DoDrain(s, p))
  {
    StrayServed(s, p);
    DrainSameTargets(s, p);
    DrainLogOk(s, p);
    DrainSmos(s, p);
    FrameAllPlaced(s, DoDrain(s, p));
    DrainLocOk(s, p);
  }

  lemma DrainKeeps(s: State, truth: Truth, p: PageNo)
    requires Inv(s, truth) && CanDrain(s, p)
    ensures Inv(DoDrain(s, p), truth)
  {
    StrayServed(s, p);
    ShapeServes(s, s.smo[p].stray[0].src);
    DrainShape(s, p);
    DrainSameTargets(s, p);
    forall u | u in s.loc
      ensures ViewHolds(DoDrain(s, p), truth, u)
    {
      InvVertex(s, truth, u);
      DrainVertex(s, truth, p, u);
    }
  }

  // Merge

  lemma MergeFrame(s: State, p: PageNo, target: map<Vid, PageNo>, r: PageNo)
    requires CanMerge(s, p, target)
    ensures var s' := DoMerge(s, p, target);
      var merged := MergedLists(s, p);
      var giants := Giants(s, merged);
      && s'.loc == s.loc && s'.ver == s.ver && s'.cut == s.cut
      && s'.giant == s.giant && s'.chain == s.chain && s'.log == s.log
      && s'.smo.Keys == s.smo.Keys && s.csr.Keys <= s'.csr.Keys
      && (r in s.smo && r != p ==> s'.smo[r] == s.smo[r])
      && s'.smo[p] == Prepare(s.smo[p], merged, target, giants, Expected(s, target))
      && (r in s.csr ==> s'.csr[r] == s.csr[r])
      && (r !in s.csr && r in s'.csr ==> s'.csr[r] == NewPage(merged, giants, target, r))
  {
    hide MergedLists, Giants, NewPage, Expected, Prepare;
  }

  lemma MergeGiant(s: State, p: PageNo, target: map<Vid, PageNo>, u: Vid)
    requires CanMerge(s, p, target)
    ensures var s' := DoMerge(s, p, target);
      var merged := MergedLists(s, p);
      var giants := Giants(s, merged);
      && (u in giants ==> u in s.csr[p] && u in s'.giantList && s'.giantList[u] == merged[u])
      && (u !in giants ==> (u in s'.giantList <==> u in s.giantList))
      && (u !in giants && u in s.giantList ==> s'.giantList[u] == s.giantList[u])
  {
    hide MergedLists, Giants, NewPage, Expected, Prepare;
  }

  lemma MergeNew(s: State, p: PageNo, target: map<Vid, PageNo>, v: Vid)
    requires CanMerge(s, p, target) && v in target
    ensures var s' := DoMerge(s, p, target);
      var merged := MergedLists(s, p);
      && target[v] in s'.csr && v in s'.csr[target[v]]
      && (v !in Giants(s, merged) ==> s'.csr[target[v]][v] == merged[v])
  {
    var q := target[v];
    assert q in target.Values;
    MergeFrame(s, p, target, q);
  }

  /** With no vertex on its way there, a page not rebuilt yet serves exactly what it stores. */
  lemma FetchedServes(s: State, p: PageNo, u: Vid)
    requires AllPlaced(s) && Alone(s, p) && p in s.smo && s.smo[p].phase == Fetched && p in s.csr && u in s.csr[p]
    requires SmoOk(s, p)
    ensures u in s.loc && s.loc[u] == p
    ensures Stored(s, p, u) == Base(s, u)
  {
    assert Placed(s, p, u);
  }

  /** A merge over an external list replaces the base before the chain is cut. */
  lemma ViewMergeOk(w: View, t: set<Vid>, base: set<Vid>)
    requires ViewOk(w, t) && w.Taken? && (base == w.base || base == Run(w.base, w.fetched))
    ensures ViewOk(Prepared(base, w.chain, w.fetched, w.here, Run(w.base, w.fetched)), t)
  {
    ReplayAbsorbs(w.base, w.fetched, w.here);
    ReplayAbsorbs(w.base, w.fetched, []);
    assert w.fetched + [] == w.fetched;
  }

  lemma MergedEntry(s: State, p: PageNo, u: Vid)
    requires p in s.smo && p in s.csr && u in s.csr[p]
    ensures MergedLists(s, p).Keys == s.csr[p].Keys
    ensures MergedLists(s, p)[u] == Run(Stored(s, p, u), Proj(s.smo[p].fetched, u))
  {
  }

  lemma MergeParts(s: State, p: PageNo, target: map<Vid, PageNo>, u: Vid)
    requires CanMerge(s, p, target) && u in s.csr[p]
    ensures var s', m := DoMerge(s, p, target), Run(Stored(s, p, u), Proj(s.smo[p].fetched, u));
      && p in s'.csr && s'.csr[p] == s.csr[p] && s'.loc == s.loc && s'.giant == s.giant && s'.chain == s.chain
      && s'.smo[p].merged.Keys == s.csr[p].Keys && s'.smo[p].merged[u] == m
      && (u in s.giant ==> u in s'.giantList && s'.giantList[u] == m)
  {
    MergedEntry(s, p, u);
    MergeFrame(s, p, target, p);
    MergeGiant(s, p, target, u);
  }

  lemma MergeBase(s: State, p: PageNo, target: map<Vid, PageNo>, u: Vid)
    requires CanMerge(s, p, target) && u in s.loc && s.loc[u] == p && u in s.csr[p] && Stored(s, p, u) == Base(s, u)
    ensures var s', m := DoMerge(s, p, target), Run(Base(s, u), Proj(s.smo[p].fetched, u));
      && s'.smo[p].merged.Keys == s.csr[p].Keys && s'.smo[p].merged[u] == m
      && Base(s', u) == (if u in s.giant then m else Base(s, u))
      && Chain(s', u) == Chain(s, u)
  {
    MergeParts(s, p, target, u);
  }

  lemma MergeArrived(s: State, p: PageNo, target: map<Vid, PageNo>, q: PageNo)
    requires CanMerge(s, p, target)
    ensures Arrived(DoMerge(s, p, target), q) == Arrived(s, q)
  {
    MergeFrame(s, p, target, q);
  }

  lemma MergeViewSelf(s: State, p: PageNo, target: map<Vid, PageNo>, u: Vid)
    requires CanMerge(s, p, target) && u in s.loc && s.loc[u] == p && u in s.csr[p] && Stored(s, p, u) == Base(s, u)
    requires Proj(Arrived(s, target[u]), u) == [] && s.smo[p].tail == map[]
    ensures var w := ViewOf(s, u);
      && w.Taken?
      && ViewOf(DoMerge(s, p, target), u)
           == Prepared(Base(DoMerge(s, p, target), u), w.chain, w.fetched, w.here, Run(w.base, w.fetched))
    ensures Untouched(DoMerge(s, p, target), u)
  {
    hide DoMerge, Base, Proj, Run, MergedLists, Giants, Arrived, Stored;
    MergeFrame(s, p, target, p);
    MergeArrived(s, p, target, target[u]);
    MergeBase(s, p, target, u);
  }

  lemma MergeViewOther(s: State, p: PageNo, target: map<Vid, PageNo>, u: Vid)
    requires CanMerge(s, p, target) && Served(s, u) && s.loc[u] != p && u !in s.csr[p]
    requires s.loc[u] in s.csr
    ensures ViewOf(DoMerge(s, p, target), u) == ViewOf(s, u)
    ensures Untouched(s, u) ==> Untouched(DoMerge(s, p, target), u)
  {
    var s' := DoMerge(s, p, target);
    MergeFrame(s, p, target, s.loc[u]);
    if s.loc[u] in s.smo && u in s.smo[s.loc[u]].target {
      MergeArrived(s, p, target, s.smo[s.loc[u]].target[u]);
    }
    MergeGiant(s, p, target, u);
    assert Base(s', u) == Base(s, u);
    FrameView(s, s', u);
  }

  /** At a page number that is not in use nothing has arrived. */
  lemma FreshLog(s: State, q: PageNo, u: Vid)
    requires Shape(s) && q !in s.csr
    ensures Proj(Arrived(s, q), u) == []
  {
    assert LogAt(Log(s, q), s.csr, q);
    assert Arrived(s, q) == [];
  }

  lemma MergeVertex(s: State, truth: Truth, p: PageNo, target: map<Vid, PageNo>, u: Vid)
    requires Inv(s, truth) && CanMerge(s, p, target) && Alone(s, p) && u in s.loc
    ensures ViewHolds(DoMerge(s, p, target), truth, u)
  {
    InvVertex(s, truth, u);
    assert SmoOk(s, p);
    if s.loc[u] == p {
      FetchedServes(s, p, u);
      FreshLog(s, target[u], u);
      MergeViewSelf(s, p, target, u);
      MergeBase(s, p, target, u);
      ViewMergeOk(ViewOf(s, u), truth[u], Base(DoMerge(s, p, target), u));
    } else {
      if u in s.csr[p] {
        FetchedServes(s, p, u);
      }
      MergeViewOther(s, p, target, u);
    }
  }

  lemma MergeTarget(s: State, p: PageNo, target: map<Vid, PageNo>, u: Vid)
    requires CanMerge(s, p, target) && u in target && u in s.loc && s.loc[u] == p && s.smo[p].done == {}
    requires target[u] !in s.smo
    ensures u in DoMerge(s, p, target).smo[p].target && u in DoMerge(s, p, target).smo[p].merged
    ensures TargetOk(DoMerge(s, p, target), p, u)
  {
    hide MergedLists, NewPage, DoMerge, Stored;
    MergeFrame(s, p, target, p);
    MergeFrame(s, p, target, target[u]);
    MergeNew(s, p, target, u);
    MergeGiant(s, p, target, u);
    assert u in MergedLists(s, p);
  }

  lemma MergeSmoSelf(s: State, p: PageNo, target: map<Vid, PageNo>)
    requires Shape(s) && CanMerge(s, p, target) && Alone(s, p)
    ensures p in DoMerge(s, p, target).csr && SmoOk(DoMerge(s, p, target), p)
  {
    MergeFrame(s, p, target, p);
    assert SmoOk(s, p);
    assert forall q :: q in s.smo ==> q in s.csr;
    forall u | u in s.csr[p] ensures MergedLists(s, p).Keys == s.csr[p].Keys {
      MergedEntry(s, p, u);
    }
    forall u | u in target
      ensures u in DoMerge(s, p, target).smo[p].merged && TargetOk(DoMerge(s, p, target), p, u)
    {
      FetchedServes(s, p, u);
      MergeTarget(s, p, target, u);
    }
  }

  lemma MergeSmoOther(s: State, p: PageNo, target: map<Vid, PageNo>, r: PageNo)
    requires Shape(s) && CanMerge(s, p, target) && Alone(s, p) && r in s.smo && r != p
    ensures r in DoMerge(s, p, target).csr && SmoOk(DoMerge(s, p, target), r)
  {
    MergeFrame(s, p, target, r);
    assert SmoOk(s, r);
    if s.smo[r].phase != Fetched {
      forall u | u in s.smo[r].target ensures TargetOk(DoMerge(s, p, target), r, u) {
        MergeTargetOther(s, p, target, r, u);
      }
    }
  }

  lemma MergeTargetOther(s: State, p: PageNo, target: map<Vid, PageNo>, r: PageNo, u: Vid)
    requires Shape(s) && CanMerge(s, p, target) && Alone(s, p) && r in s.smo && r != p
    requires u in s.smo[r].target && u in s.smo[r].merged && TargetOk(s, r, u)
    ensures r in DoMerge(s, p, target).smo && DoMerge(s, p, target).smo[r] == s.smo[r]
    ensures TargetOk(DoMerge(s, p, target), r, u)
  {
    hide DoMerge, MergedLists, Giants, LocOk, AllPlaced, LogOk, TargetOk;
    MergeFrame(s, p, target, r);
    MergeFrame(s, p, target, s.smo[r].target[u]);
    MergeGiant(s, p, target, u);
    assert !Heading(s, r, u, p);
    OthersElsewhere(s, p, r, u);
    FrameTarget(s, DoMerge(s, p, target), r, u);
  }

  /** A vertex another consolidation still has to move is not stored on this page. */
  lemma OthersElsewhere(s: State, p: PageNo, r: PageNo, u: Vid)
    requires Shape(s) && Alone(s, p) && p in s.smo && s.smo[p].phase == Fetched && r != p
    ensures p in s.csr && (u in s.csr[p] && u in s.loc ==> s.loc[u] != r)
  {
    assert SmoOk(s, p);
    if u in s.csr[p] {
      FetchedServes(s, p, u);
    }
  }

  lemma MergePlaced(s: State, p: PageNo, target: map<Vid, PageNo>, q: PageNo, u: Vid)
    requires Shape(s) && CanMerge(s, p, target) && Alone(s, p)
    requires q in DoMerge(s, p, target).csr && u in DoMerge(s, p, target).csr[q]
    ensures Placed(DoMerge(s, p, target), q, u)
  {
    MergeFrame(s, p, target, q);
    assert SmoOk(s, p);
    if q in s.csr {
      assert Placed(s, q, u);
      MergeFrame(s, p, target, s.loc[u]);
    } else {
      FetchedServes(s, p, u);
    }
  }

  lemma MergeLogOk(s: State, p: PageNo, target: map<Vid, PageNo>)
    requires LogOk(s) && CanMerge(s, p, target)
    ensures LogOk(DoMerge(s, p, target))
  {
    hide DoMerge;
    var s' := DoMerge(s, p, target);
    forall q
      ensures LogAt(Log(s', q), s'.csr, q)
    {
      MergeFrame(s, p, target, q);
      assert LogAt(Log(s, q), s.csr, q);
    }
  }

  lemma MergeLocOk(s: State, p: PageNo, target: map<Vid, PageNo>)
    requires LocOk(s) && CanMerge(s, p, target)
    ensures LocOk(DoMerge(s, p, target))
  {
    var s' := DoMerge(s, p, target);
    MergeFrame(s, p, target, p);
    forall u | u in s'.loc ensures s'.loc[u] in s'.csr && u in s'.csr[s'.loc[u]] {
      MergeFrame(s, p, target, s.loc[u]);
    }
    forall u | u in s'.giant ensures u in s'.giantList {
      MergeGiant(s, p, target, u);
    }
  }

  lemma MergeSmos(s: State, p: PageNo, target: map<Vid, PageNo>)
    requires Shape(s) && CanMerge(s, p, target) && Alone(s, p)
    ensures SmosOk(DoMerge(s, p, target))
  {
    MergeFrame(s, p, target, p);
    forall r | r in s.smo ensures r in DoMerge(s, p, target).csr && SmoOk(DoMerge(s, p, target), r) {
      if r == p {
        MergeSmoSelf(s, p, target);
      } else {
        MergeSmoOther(s, p, target, r);
      }
    }
  }

  lemma MergeAllPlaced(s: State, p: PageNo, target: map<Vid, PageNo>)
    requires Shape(s) && CanMerge(s, p, target) && Alone(s, p)
    ensures AllPlaced(DoMerge(s, p, target))
  {
    var s' := DoMerge(s, p, target);
    forall q, u | q in s'.csr && u in s'.csr[q] ensures Placed(s', q, u) {
      MergePlaced(s, p, target, q, u);
    }
  }

  lemma MergeKeeps(s: State, truth: Truth, p: PageNo, target: map<Vid, PageNo>)
    requires Inv(s, truth) && CanMerge(s, p, target) && Alone(s, p)
    ensures Inv(DoMerge(s, p, target), truth)
  {
    MergeFrame(s, p, target, p);
    MergeLocOk(s, p, target);
    MergeLogOk(s, p, target);
    MergeSmos(s, p, target);
    MergeAllPlaced(s, p, target);
    forall u | u in s.loc
      ensures ViewHolds(DoMerge(s, p, target), truth, u)
    {
      MergeVertex(s, truth, p, target, u);
    }
  }

  // Switch

  /** What a switch can rely on: the vertex is where it was when its replacement was
   *  prepared, so the compare-and-swap succeeds. */
  lemma SwitchReady(s: State, p: PageNo, w: Vid)
    requires SmosOk(s) && CanSwitch(s, p, w)
    ensures w in s.loc && s.loc[w] == p && w in s.smo[p].merged && CasHolds(s, p, w) && DestinationOk(s, p, w)
    ensures Log(s, p) == [] && s.smo[p].target[w] != p
  {
    assert SmoOk(s, p);
    assert TargetOk(s, p, w);
  }

  lemma SwitchFrame(s: State, p: PageNo, w: Vid, r: PageNo)
    requires CanSwitch(s, p, w) && CasHolds(s, p, w)
    ensures var s', k := DoSwitch(s, p, w), Dropped(s, s.smo[p], w);
      && s'.loc == s.loc[w := s.smo[p].target[w]] && s'.ver == s.ver[w := Ver(s, w) + 1]
      && s'.csr == s.csr && s'.giantList == s.giantList
      && (forall u :: u != w ==> (u in s'.giant <==> u in s.giant))
      && (w in s'.giant <==> w in s.smo[p].giants)
      && s'.chain == s.chain[w := Chain(s, w)[k..]] && s'.cut == s.cut[w := Cut(s, w) + k]
      && s'.log == s.log && s'.smo.Keys == s.smo.Keys
      && (r in s.smo && r != p ==> s'.smo[r] == s.smo[r])
      && s'.smo[p] == s.smo[p].(done := s.smo[p].done + {w})
  {
  }

  lemma SwitchArrived(s: State, p: PageNo, w: Vid, q: PageNo)
    requires CanSwitch(s, p, w) && CasHolds(s, p, w)
    ensures Arrived(DoSwitch(s, p, w), q) == Arrived(s, q)
  {
    SwitchFrame(s, p, w, q);
  }

  lemma SwitchChain(s: State, p: PageNo, w: Vid, t: set<Vid>)
    requires CanSwitch(s, p, w) && CasHolds(s, p, w) && w in s.loc && s.loc[w] == p && ViewOk(ViewOf(s, w), t)
    ensures var x := ViewOf(s, w);
      x.Moving? && x.waiting == [] && Chain(DoSwitch(s, p, w), w) == x.moved
  {
    SwitchFrame(s, p, w, p);
  }

  lemma SwitchBase(s: State, p: PageNo, w: Vid)
    requires CanSwitch(s, p, w) && CasHolds(s, p, w) && w in s.smo[p].merged && DestinationOk(s, p, w)
    ensures Base(DoSwitch(s, p, w), w) == s.smo[p].merged[w]
  {
    SwitchFrame(s, p, w, p);
  }

  /** The switched vertex as its new page serves it, which may be under consolidation. */
  lemma SwitchViewSelf(s: State, p: PageNo, w: Vid, t: set<Vid>)
    requires SmosOk(s) && CanSwitch(s, p, w) && w in s.loc && s.loc[w] == p && ViewOk(ViewOf(s, w), t)
    ensures ViewOk(ViewOf(DoSwitch(s, p, w), w), t)
    ensures Untouched(DoSwitch(s, p, w), w)
  {
    var s', x, q := DoSwitch(s, p, w), ViewOf(s, w), s.smo[p].target[w];
    SwitchReady(s, p, w);
    SwitchFrame(s, p, w, q);
    SwitchChain(s, p, w, t);
    SwitchBase(s, p, w);
    ArrivedProj(s, q, w);
    var fetched := if q in s.smo then Proj(s.smo[q].fetched, w) else [];
    ViewSwitchOk(x, t, fetched, Proj(Log(s, q), w));
    SwitchedView(s, p, w);
  }

  lemma SwitchedView(s: State, p: PageNo, w: Vid)
    requires CanSwitch(s, p, w) && CasHolds(s, p, w) && w in s.smo[p].merged && DestinationOk(s, p, w)
    requires s.smo[p].target[w] != p
    ensures var s', q := DoSwitch(s, p, w), s.smo[p].target[w];
      && w in s'.loc && s'.loc[w] == q
      && ViewOf(s', w) == if q in s.smo
           then Taken(Base(s', w), Chain(s', w), Proj(s.smo[q].fetched, w), Proj(Log(s, q), w))
           else Settled(Base(s', w), Chain(s', w), Proj(Log(s, q), w))
  {
    SwitchFrame(s, p, w, s.smo[p].target[w]);
  }

  lemma SwitchViewOther(s: State, p: PageNo, w: Vid, u: Vid)
    requires CanSwitch(s, p, w) && CasHolds(s, p, w) && Served(s, u) && u != w
    ensures ViewOf(DoSwitch(s, p, w), u) == ViewOf(s, u)
    ensures Untouched(s, u) ==> Untouched(DoSwitch(s, p, w), u)
  {
    hide DoSwitch, Proj, Arrived, ViewOf, Untouched;
    SwitchFrame(s, p, w, s.loc[u]);
    if s.loc[u] in s.smo && u in s.smo[s.loc[u]].target {
      SwitchArrived(s, p, w, s.smo[s.loc[u]].target[u]);
    }
    FrameView(s, DoSwitch(s, p, w), u);
  }

  /** No other consolidation has the switched vertex still to do. */
  lemma SwitchTarget(s: State, p: PageNo, w: Vid, r: PageNo, u: Vid)
    requires SmosOk(s) && CanSwitch(s, p, w) && CasHolds(s, p, w)
    requires r in s.smo && u in s.smo[r].target && u in s.smo[r].merged && TargetOk(s, r, u)
    ensures DoSwitch(s, p, w).smo.Keys == s.smo.Keys
    ensures DoSwitch(s, p, w).smo[r] == if r == p then s.smo[r].(done := s.smo[r].done + {w}) else s.smo[r]
    ensures TargetOk(DoSwitch(s, p, w), r, u)
  {
    SwitchReady(s, p, w);
    SwitchFrame(s, p, w, r);
    if u == w {
      if r != p {
        assert SmoOk(s, r);
        assert s.smo[p].target[w] != r;
      }
    } else {
      SwitchFrame(s, p, w, s.smo[r].target[u]);
      FrameTarget(s, DoSwitch(s, p, w), r, u);
    }
  }

  lemma SwitchSmo(s: State, p: PageNo, w: Vid, r: PageNo)
    requires SmosOk(s) && CanSwitch(s, p, w) && r in s.smo
    ensures r in DoSwitch(s, p, w).smo && r in DoSwitch(s, p, w).csr && SmoOk(DoSwitch(s, p, w), r)
  {
    var s' := DoSwitch(s, p, w);
    SwitchReady(s, p, w);
    SwitchFrame(s, p, w, r);
    assert SmoOk(s, r);
    if s.smo[r].phase != Fetched {
      forall u | u in s'.smo[r].target ensures TargetOk(s', r, u) {
        SwitchTarget(s, p, w, r, u);
      }
    }
  }

  lemma SwitchPlaced(s: State, p: PageNo, w: Vid, q: PageNo, u: Vid)
    requires SmosOk(s) && CanSwitch(s, p, w) && q in s.csr && u in s.csr[q] && Placed(s, q, u)
    ensures Placed(DoSwitch(s, p, w), q, u)
  {
    SwitchReady(s, p, w);
    SwitchFrame(s, p, w, q);
    SwitchFrame(s, p, w, s.loc[u]);
    if u == w && q != p && q != s.smo[p].target[w] {
      assert SmoOk(s, q);
    }
  }

  lemma SwitchSmos(s: State, p: PageNo, w: Vid)
    requires SmosOk(s) && CanSwitch(s, p, w)
    ensures SmosOk(DoSwitch(s, p, w))
  {
    SwitchReady(s, p, w);
    SwitchFrame(s, p, w, p);
    forall r | r in s.smo ensures r in DoSwitch(s, p, w).csr && SmoOk(DoSwitch(s, p, w), r) {
      SwitchSmo(s, p, w, r);
    }
  }

  lemma SwitchAllPlaced(s: State, p: PageNo, w: Vid)
    requires AllPlaced(s) && SmosOk(s) && CanSwitch(s, p, w)
    ensures AllPlaced(DoSwitch(s, p, w))
  {
    SwitchReady(s, p, w);
    SwitchFrame(s, p, w, p);
    forall q, u | q in s.csr && u in s.csr[q] ensures Placed(DoSwitch(s, p, w), q, u) {
      SwitchPlaced(s, p, w, q, u);
    }
  }

  lemma SwitchLocOk(s: State, p: PageNo, w: Vid)
    requires LocOk(s) && SmosOk(s) && CanSwitch(s, p, w)
    ensures LocOk(DoSwitch(s, p, w))
  {
    hide DoSwitch, SmosOk, Dropped;
    SwitchReady(s, p, w);
    SwitchFrame(s, p, w, p);
  }

  lemma SwitchLogOk(s: State, p: PageNo, w: Vid)
    requires LogOk(s) && CanSwitch(s, p, w) && CasHolds(s, p, w)
    ensures LogOk(DoSwitch(s, p, w))
  {
    hide DoSwitch;
    SwitchFrame(s, p, w, p);
    forall q
      ensures LogAt(Log(DoSwitch(s, p, w), q), s.csr, q)
    {
      assert LogAt(Log(s, q), s.csr, q);
    }
  }

  lemma SwitchShape(s: State, p: PageNo, w: Vid)
    requires Shape(s) && CanSwitch(s, p, w)
    ensures Shape(DoSwitch(s, p, w))
  {
    hide DoSwitch, LocOk, AllPlaced, SmosOk, Dropped;
    SwitchReady(s, p, w);
    SwitchFrame(s, p, w, p);
    SwitchLogOk(s, p, w);
    SwitchSmos(s, p, w);
    SwitchAllPlaced(s, p, w);
    SwitchLocOk(s, p, w);
  }

  lemma SwitchVertex(s: State, truth: Truth, p: PageNo, w: Vid, u: Vid)
    requires SmosOk(s) && CanSwitch(s, p, w) && VertexOk(s, truth, u)
    ensures ViewHolds(DoSwitch(s, p, w), truth, u)
  {
    SwitchReady(s, p, w);
    SwitchFrame(s, p, w, p);
    if u == w {
      SwitchViewSelf(s, p, w, truth[w]);
    } else {
      SwitchViewOther(s, p, w, u);
    }
  }

  lemma SwitchViews(s: State, truth: Truth, p: PageNo, w: Vid)
    requires Inv(s, truth) && CanSwitch(s, p, w)
    ensures ViewsOk(DoSwitch(s, p, w), truth)
  {
    hide DoSwitch, LocOk, AllPlaced, LogOk, SmosOk, VertexOk, Dropped;
    SwitchReady(s, p, w);
    SwitchFrame(s, p, w, p);
    forall u | u in s.loc ensures ViewHolds(DoSwitch(s, p, w), truth, u) {
      InvVertex(s, truth, u);
      SwitchVertex(s, truth, p, w, u);
    }
  }

  lemma SwitchKeeps(s: State, truth: Truth, p: PageNo, w: Vid)
    requires Inv(s, truth) && CanSwitch(s, p, w)
    ensures Inv(DoSwitch(s, p, w), truth)
  {
    SwitchShape(s, p, w);
    SwitchViews(s, truth, p, w);
  }

  // Detach

  lemma DetachFrame(s: State, p: PageNo, r: PageNo)
    ensures var s' := DoDetach(s, p);
      && s'.loc == s.loc && s'.ver == s.ver && s'.cut == s.cut && s'.giant == s.giant && s'.giantList == s.giantList
      && s'.chain == s.chain && s'.log == s.log
      && (r in s'.smo <==> r in s.smo && r != p) && (r in s'.smo ==> s'.smo[r] == s.smo[r])
      && (r in s'.csr <==> r in s.csr && r != p) && (r in s'.csr ==> s'.csr[r] == s.csr[r])
  {
  }

  /** A page whose vertices are all switched serves nobody. */
  lemma DetachedServesNone(s: State, p: PageNo, u: Vid)
    requires Shape(s) && CanDetach(s, p) && u in s.loc
    ensures s.loc[u] != p
  {
    assert SmoOk(s, p);
    if u in s.smo[p].target {
      assert TargetOk(s, p, u);
    }
  }

  lemma DetachVertex(s: State, truth: Truth, p: PageNo, u: Vid)
    requires VertexOk(s, truth, u) && s.loc[u] != p && s.loc[u] in s.csr && CanDetach(s, p)
    ensures ViewHolds(DoDetach(s, p), truth, u)
  {
    DetachFrame(s, p, s.loc[u]);
    if s.loc[u] in s.smo && u in s.smo[s.loc[u]].target {
      DetachFrame(s, p, s.smo[s.loc[u]].target[u]);
    }
    assert Base(DoDetach(s, p), u) == Base(s, u);
    FrameView(s, DoDetach(s, p), u);
  }

  lemma DetachTarget(s: State, p: PageNo, r: PageNo, u: Vid)
    requires SmosOk(s) && CanDetach(s, p) && r in s.smo && r != p
    requires u in s.smo[r].target && u in s.smo[r].merged && TargetOk(s, r, u)
    ensures r in DoDetach(s, p).smo && DoDetach(s, p).smo[r] == s.smo[r] && TargetOk(DoDetach(s, p), r, u)
  {
    DetachFrame(s, p, r);
    DetachFrame(s, p, s.smo[r].target[u]);
    FrameTarget(s, DoDetach(s, p), r, u);
  }

  lemma DetachSmo(s: State, p: PageNo, r: PageNo)
    requires SmosOk(s) && CanDetach(s, p) && r in s.smo && r != p
    ensures r in DoDetach(s, p).csr && r in DoDetach(s, p).smo && SmoOk(DoDetach(s, p), r)
  {
    var s' := DoDetach(s, p);
    DetachFrame(s, p, r);
    assert SmoOk(s, r);
    if s.smo[r].phase != Fetched {
      forall u | u in s'.smo[r].target ensures TargetOk(s', r, u) {
        DetachTarget(s, p, r, u);
      }
    }
  }

  lemma DetachPlaced(s: State, p: PageNo, q: PageNo, u: Vid)
    requires Shape(s) && CanDetach(s, p) && q in s.csr && q != p && u in s.csr[q]
    ensures Placed(DoDetach(s, p), q, u)
  {
    DetachFrame(s, p, q);
    assert Placed(s, q, u);
    DetachedServesNone(s, p, u);
    DetachFrame(s, p, s.loc[u]);
  }

  lemma DetachGlobal(s: State, p: PageNo)
    requires Shape(s) && CanDetach(s, p)
    ensures LocOk(DoDetach(s, p)) && AllPlaced(DoDetach(s, p))
  {
    var s' := DoDetach(s, p);
    DetachFrame(s, p, p);
    forall u | u in s'.loc ensures s'.loc[u] in s'.csr && u in s'.csr[s'.loc[u]] {
      DetachedServesNone(s, p, u);
      DetachFrame(s, p, s.loc[u]);
    }
    forall q, u | q in s'.csr && u in s'.csr[q] ensures Placed(s', q, u) {
      DetachFrame(s, p, q);
      DetachPlaced(s, p, q, u);
    }
  }

  lemma DetachLogOk(s: State, p: PageNo)
    requires Shape(s) && CanDetach(s, p)
    ensures LogOk(DoDetach(s, p))
  {
    hide DoDetach, LocOk, AllPlaced;
    var s' := DoDetach(s, p);
    assert SmoOk(s, p);
    forall q
      ensures LogAt(Log(s', q), s'.csr, q)
    {
      DetachFrame(s, p, q);
      assert LogAt(Log(s, q), s.csr, q);
    }
  }

  lemma DetachSmos(s: State, p: PageNo)
    requires Shape(s) && CanDetach(s, p)
    ensures SmosOk(DoDetach(s, p))
  {
    var s' := DoDetach(s, p);
    forall r | r in s'.smo ensures r in s'.csr && SmoOk(s', r) {
      DetachFrame(s, p, r);
      DetachSmo(s, p, r);
    }
  }

  lemma DetachKeeps(s: State, truth: Truth, p: PageNo)
    requires Inv(s, truth) && CanDetach(s, p)
    ensures Inv(DoDetach(s, p), truth)
  {
    DetachFrame(s, p, p);
    DetachGlobal(s, p);
    DetachLogOk(s, p);
    DetachSmos(s, p);
    forall u | u in s.loc
      ensures ViewHolds(DoDetach(s, p), truth, u)
    {
      InvVertex(s, truth, u);
      DetachedServesNone(s, p, u);
      DetachVertex(s, truth, p, u);
    }
  }
}
