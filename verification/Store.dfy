/** The database as one mutable object: CSR pages, giant store, delta chains and
 * the consolidations in flight (src/db_dyn.cc, src/db.cc, src/smo.cc).  Every
 * method is one atomic step of the machine in `Consolidation`, which it refines. */
module Store {
  import opened Replay
  import opened Consolidation
  import opened ConsolidationRuns
  import opened DeltaChain
  import opened MergeGraph
  import opened PageMap
  import ConsolidationLimits

  /** A consolidation in flight.  `forward` is the forwarding table, `boundary` the first
   *  rerouted record of each vertex (page_delta_t), `expected` the version of each vertex
   *  that is to be replaced, `done` the vertices switched. */
  datatype Job = Job(phase: Phase, fetched: seq<Record>, merged: Graph, forward: map<Vid, PageNo>,
                     giants: set<Vid>, stray: seq<Record>, boundary: map<Vid, Loc>,
                     expected: Counts, done: set<Vid>)

  type Csr = map<PageNo, Graph>
  type Jobs = map<PageNo, Job>
  type Tails = map<PageNo, map<Vid, nat>>
  type Counts = map<Vid, nat>

  // ---------------------------------------------------------------------------
  // Abstraction

  function Sets(graph: Graph): (sets: map<Vid, set<Vid>>)
    ensures sets.Keys == graph.Keys
  {
    map v | v in graph :: Elems(graph[v])
  }

  function AbsCsr(csr: Csr): map<PageNo, map<Vid, set<Vid>>> {
    map p | p in csr :: Sets(csr[p])
  }

  function AbsJob(job: Job, tail: map<Vid, nat>): Smo {
    Smo(job.phase, Recs(job.fetched), Sets(job.merged), job.forward, job.giants, Recs(job.stray), tail,
        job.expected, job.done)
  }

  function AbsJobs(jobs: Jobs, tails: Tails): (smo: map<PageNo, Smo>)
    requires tails.Keys == jobs.Keys
    ensures smo.Keys == jobs.Keys
  {
    map p | p in jobs :: AbsJob(jobs[p], tails[p])
  }

  lemma AbsJobsPut(jobs: Jobs, tails: Tails, p: PageNo, job: Job, tail: map<Vid, nat>)
    requires tails.Keys == jobs.Keys
    ensures AbsJobs(jobs[p := job], tails[p := tail]) == AbsJobs(jobs, tails)[p := AbsJob(job, tail)]
  {
    hide AbsJob;
  }

  lemma AbsJobsDrop(jobs: Jobs, tails: Tails, p: PageNo)
    requires tails.Keys == jobs.Keys
    ensures AbsJobs(jobs - {p}, tails - {p}) == AbsJobs(jobs, tails) - {p}
  {
    hide AbsJob;
  }

  // ---------------------------------------------------------------------------
  // What the boundary records point at

  function CountOf(counts: Counts, v: Vid): nat {
    if v in counts then counts[v] else 0
  }

  /** The boundary record of a vertex not switched yet is where its tail position says. */
  ghost predicate JobOk(loc: map<Vid, PageNo>, job: Job, tail: map<Vid, nat>, chains: Chains, cut: Counts, p: PageNo) {
    && tail.Keys == job.boundary.Keys
    && (forall v :: v in tail && v in loc && loc[v] == p ==> BoundaryAt(job, tail, chains, cut, v))
    && (forall r :: r in job.fetched || r in job.stray ==> r.edge)
  }

  ghost predicate BoundaryAt(job: Job, tail: map<Vid, nat>, chains: Chains, cut: Counts, v: Vid) {
    v in tail && v in job.boundary && RecordAt(chains, cut, v, tail[v], job.boundary[v])
  }

  /** The record of `v` at that position, counted over all records it ever had. */
  ghost predicate RecordAt(chains: Chains, cut: Counts, v: Vid, at: nat, l: Loc) {
    && v in chains && CountOf(cut, v) <= at < CountOf(cut, v) + |chains[v]|
    && chains[v][at - CountOf(cut, v)] == l
  }

  ghost predicate JobsOk(loc: map<Vid, PageNo>, jobs: Jobs, tails: Tails, chains: Chains, cut: Counts) {
    && tails.Keys == jobs.Keys
    && forall p :: p in jobs ==> JobOk(loc, jobs[p], tails[p], chains, cut, p)
  }

  /** Chains only grow while a vertex stays where it is. */
  lemma JobsSurviveAppend(loc: map<Vid, PageNo>, jobs: Jobs, tails: Tails, chains: Chains, cut: Counts, v: Vid, l: Loc)
    requires JobsOk(loc, jobs, tails, chains, cut) && v in chains
    ensures JobsOk(loc, jobs, tails, chains[v := chains[v] + [l]], cut)
  {
    var chains' := chains[v := chains[v] + [l]];
    forall p | p in jobs ensures JobOk(loc, jobs[p], tails[p], chains', cut, p) {
      assert JobOk(loc, jobs[p], tails[p], chains, cut, p);
      forall u | u in tails[p] && u in loc && loc[u] == p ensures BoundaryAt(jobs[p], tails[p], chains', cut, u) {
        assert BoundaryAt(jobs[p], tails[p], chains, cut, u);
      }
    }
  }

  /** Noting the first rerouted record of `v`. */
  function Noted(job: Job, v: Vid, l: Loc): Job {
    if v in job.boundary then job else job.(boundary := job.boundary[v := l])
  }

  function NotedTail(tail: map<Vid, nat>, v: Vid, at: nat): map<Vid, nat> {
    if v in tail then tail else tail[v := at]
  }

  lemma NoteKeeps(loc: map<Vid, PageNo>, jobs: Jobs, tails: Tails, chains: Chains, cut: Counts, p: PageNo, v: Vid, l: Loc,
                  at: nat)
    requires JobsOk(loc, jobs, tails, chains, cut) && p in jobs && RecordAt(chains, cut, v, at, l)
    ensures JobsOk(loc, jobs[p := Noted(jobs[p], v, l)], tails[p := NotedTail(tails[p], v, at)], chains, cut)
  {
    var job, tail := Noted(jobs[p], v, l), NotedTail(tails[p], v, at);
    assert JobOk(loc, jobs[p], tails[p], chains, cut, p);
    forall u | u in tail && u in loc && loc[u] == p ensures BoundaryAt(job, tail, chains, cut, u) {
      if u in tails[p] {
        assert BoundaryAt(jobs[p], tails[p], chains, cut, u);
      }
    }
  }

  lemma NoteAbs(jobs: Jobs, tails: Tails, p: PageNo, v: Vid, l: Loc, at: nat)
    requires tails.Keys == jobs.Keys && p in jobs && tails[p].Keys == jobs[p].boundary.Keys
    ensures AbsJobs(jobs[p := Noted(jobs[p], v, l)], tails[p := NotedTail(tails[p], v, at)])
         == AbsJobs(jobs, tails)[p := NoteTail(AbsJobs(jobs, tails)[p], v, at)]
  {
    assert AbsJob(Noted(jobs[p], v, l), NotedTail(tails[p], v, at)) == NoteTail(AbsJob(jobs[p], tails[p]), v, at);
    AbsJobsPut(jobs, tails, p, Noted(jobs[p], v, l), NotedTail(tails[p], v, at));
  }

  // ---------------------------------------------------------------------------

  /** The fields of the database other than the delta chains. */
  datatype Fields = Fields(loc: map<Vid, PageNo>, ver: Counts, csr: Csr, giants: set<Vid>, giantDb: Graph, jobs: Jobs)

  ghost predicate Rep(f: Fields, tails: Tails, chains: Chains, s: State) {
    && JobsOk(f.loc, f.jobs, tails, chains, s.cut)
    && s.loc == f.loc && s.ver == f.ver && s.csr == AbsCsr(f.csr) && s.giant == f.giants && s.giantList == Sets(f.giantDb)
    && s.smo == AbsJobs(f.jobs, tails)
  }

  lemma RepAppend(f: Fields, tails: Tails, chains: Chains, s: State, v: Vid, op: Op, q: PageNo, l: Loc)
    requires Rep(f, tails, chains, s) && v in chains
    ensures Rep(f, tails, chains[v := chains[v] + [l]], Append(s, v, op, q))
  {
    JobsSurviveAppend(f.loc, f.jobs, tails, chains, s.cut, v, l);
  }

  lemma RepNote(f: Fields, tails: Tails, chains: Chains, s: State, p: PageNo, v: Vid, l: Loc, at: nat)
    requires Rep(f, tails, chains, s) && p in f.jobs && RecordAt(chains, s.cut, v, at, l)
    ensures p in s.smo && p in tails
    ensures Rep(f.(jobs := f.jobs[p := Noted(f.jobs[p], v, l)]), tails[p := NotedTail(tails[p], v, at)], chains,
                s.(smo := s.smo[p := NoteTail(s.smo[p], v, at)]))
  {
    assert JobOk(f.loc, f.jobs[p], tails[p], chains, s.cut, p);
    NoteKeeps(f.loc, f.jobs, tails, chains, s.cut, p, v, l, at);
    NoteAbs(f.jobs, tails, p, v, l, at);
  }

  lemma RepForwarded(f: Fields, tails: Tails, chains: Chains, s: State, v: Vid)
    requires Rep(f, tails, chains, s) && v in f.loc
    ensures v in s.loc && s.loc[v] == f.loc[v]
    ensures var p := f.loc[v];
      Forwarded(s, v) == (p in f.jobs && Forwards(f.jobs[p].phase) && v in f.jobs[p].forward)
    ensures WritePage(s, v) == if Forwarded(s, v) then f.jobs[f.loc[v]].forward[v] else f.loc[v]
  {
  }

  /** `s'` is one enabled step after `s`. */
  ghost predicate Stepped(s: State, t: Step, s': State) {
    Enabled(s, t) && s' == Next(s, t)
  }

  /** What reads are to return after a step: a write counts unless it contradicts a
   *  record of the same edge that still waits on the old page. */
  ghost function Promise(s: State, promised: Truth, t: Step): Truth {
    if Ordered(s, t) then NextTruth(promised, t) else promised
  }

  /** A write in order adds its edge to what its vertex is promised, or takes it out. */
  lemma WritePromised(s: State, promised: Truth, v: Vid, op: Op, s': State)
    requires Inv(s, promised) && Stepped(s, Write(v, op), s')
    ensures v in promised
    ensures Ordered(s, Write(v, op)) ==>
      Promise(s, promised, Write(v, op))
      == promised[v := if op.kind == Insert then promised[v] + {op.dst} else promised[v] - {op.dst}]
  {
    hide Ordered, Shape, ViewsOk, Next, Inv;
    InvPromises(s, promised, v);
  }

  lemma InvPromises(s: State, promised: Truth, v: Vid)
    requires Inv(s, promised) && v in s.loc
    ensures v in promised
  {
    hide Shape, ViewHolds;
  }

  lemma MergeSteps(s: State, promised: Truth, p: PageNo, target: map<Vid, PageNo>)
    requires Inv(s, promised) && CanMerge(s, p, target) && Alone(s, p)
    ensures p in s.smo && s.smo[p].phase == Fetched && p in s.csr
    ensures Stepped(s, Merge(p, target), DoMerge(s, p, target)) && Inv(DoMerge(s, p, target), promised)
    ensures var s' := DoMerge(s, p, target);
      s'.chain == s.chain && s'.cut == s.cut && s'.log == s.log && s'.bound == s.bound
  {
    MergeKeeps(s, promised, p, target);
  }

  lemma SteppedInv(s: State, promised: Truth, t: Step, s': State)
    requires Inv(s, promised) && Stepped(s, t, s') && (t.Merge? ==> Ordered(s, t))
    ensures Inv(s', Promise(s, promised, t))
  {
    if Ordered(s, t) {
      StepKeeps(s, promised, t);
    } else {
      ConsolidationLimits.ContradictingWriteIsLost(s, promised, t.v, t.op);
    }
  }

  lemma WriteRefines(s: State, v: Vid, op: Op)
    requires v in s.loc
    ensures var s' := Append(s, v, op, WritePage(s, v));
      && (Forwarded(s, v) ==> s.loc[v] in s'.smo)
      && Stepped(s, Write(v, op),
           if Forwarded(s, v)
           then s'.(smo := s'.smo[s.loc[v] := NoteTail(s'.smo[s.loc[v]], v, Top(s, v))])
           else s')
  {
  }

  lemma InvChained(s: State, promised: Truth, v: Vid)
    requires Inv(s, promised) && v in s.loc
    ensures v in s.chain
  {
  }

  /** A database in which every page serves what it stores and no record is written. */
  function Start(f: Fields, bound: nat): State {
    State(f.loc, f.ver, AbsCsr(f.csr), f.giants, Sets(f.giantDb), map v | v in f.loc :: [], map[], map[], map[], bound)
  }

  predicate StartFields(f: Fields) {
    && f.jobs == map[]
    && (forall v :: v in f.loc ==> f.loc[v] in f.csr && v in f.csr[f.loc[v]])
    && (forall p, v :: p in f.csr && v in f.csr[p] ==> v in f.loc && f.loc[v] == p)
    && (forall v :: v in f.giants ==> v in f.giantDb)
  }

  lemma StartOk(f: Fields, bound: nat, chains: Chains)
    requires StartFields(f)
    ensures Rep(f, map[], chains, Start(f, bound))
    ensures Inv(Start(f, bound), InitialTruth(Start(f, bound)))
  {
    StartInitial(f, bound);
    hide Inv, Initial, InitialTruth;
    InitialInv(Start(f, bound));
  }

  lemma StartInitial(f: Fields, bound: nat)
    requires StartFields(f)
    ensures Initial(Start(f, bound))
  {
    hide AbsCsr, Sets;
    var s := Start(f, bound);
    forall v | v in s.loc
      ensures s.loc[v] in s.csr && v in s.csr[s.loc[v]]
    {
      StartStores(f, f.loc[v], v);
    }
    forall p, v | p in s.csr && v in s.csr[p]
      ensures v in s.loc && s.loc[v] == p
    {
      StartStores(f, p, v);
    }
    forall v | v in s.giant
      ensures v in s.giantList
    {
      assert v in f.giantDb;
    }
  }

  lemma StartStores(f: Fields, p: PageNo, v: Vid)
    ensures p in AbsCsr(f.csr) <==> p in f.csr
    ensures p in f.csr ==> (v in AbsCsr(f.csr)[p] <==> v in f.csr[p])
  {
  }

  // ---------------------------------------------------------------------------
  // Reading

  /** The stored list a reader starts from. */
  function BaseList(f: Fields, v: Vid): seq<Vid> {
    if v in f.giants then ListOf(f.giantDb, v)
    else if v in f.loc && f.loc[v] in f.csr then ListOf(f.csr[f.loc[v]], v)
    else []
  }

  lemma BaseListIs(f: Fields, tails: Tails, chains: Chains, s: State, v: Vid)
    requires Rep(f, tails, chains, s)
    ensures Elems(BaseList(f, v)) == Base(s, v)
  {
  }

  // ---------------------------------------------------------------------------
  // Taking the records of a page

  lemma JobsPut(f: Fields, tails: Tails, chains: Chains, s: State, p: PageNo, job: Job, tail: map<Vid, nat>)
    requires Rep(f, tails, chains, s) && JobOk(f.loc, job, tail, chains, s.cut, p)
    ensures Rep(f.(jobs := f.jobs[p := job]), tails[p := tail], chains, s.(smo := s.smo[p := AbsJob(job, tail)]))
  {
    hide JobOk, AbsJob, Sets;
    AbsJobsPut(f.jobs, tails, p, job, tail);
  }

  function FetchedJob(records: seq<Record>): Job {
    Job(Fetched, records, map[], map[], {}, [], map[], map[], {})
  }

  lemma FetchedJobOk(loc: map<Vid, PageNo>, chains: Chains, cut: Counts, p: PageNo, records: seq<Record>)
    requires forall r :: r in records ==> r.edge
    ensures JobOk(loc, FetchedJob(records), map[], chains, cut, p)
    ensures AbsJob(FetchedJob(records), map[]) == Began(Recs(records))
  {
  }

  lemma RepFetch(f: Fields, tails: Tails, chains: Chains, s: State, p: PageNo, records: seq<Record>)
    requires Rep(f, tails, chains, s) && Recs(records) == Log(s, p) && forall r :: r in records ==> r.edge
    ensures Rep(f.(jobs := f.jobs[p := FetchedJob(records)]), tails[p := map[]], chains, DoFetch(s, p))
  {
    hide JobOk, AbsJob, FetchedJob, Rep, Recs, Log;
    FetchedJobOk(f.loc, chains, s.cut, p, records);
    JobsPut(f, tails, chains, s, p, FetchedJob(records), map[]);
    RepLogs(f.(jobs := f.jobs[p := FetchedJob(records)]), tails[p := map[]], chains,
            s.(smo := s.smo[p := AbsJob(FetchedJob(records), map[])]), s.chain, s.log[p := []]);
  }

  /** The representation says nothing about the chains; those belong to the delta store. */
  lemma RepLogs(f: Fields, tails: Tails, chains: Chains, s: State, chain: map<Vid, seq<Op>>, log: map<PageNo, seq<Rec>>)
    requires Rep(f, tails, chains, s)
    ensures Rep(f, tails, chains, s.(chain := chain, log := log))
  {
    hide JobsOk, AbsJobs, AbsCsr, Sets;
  }

  // ---------------------------------------------------------------------------
  // Building the replacement pages

  lemma {:induction false} EdgeRecsAll(records: seq<Record>)
    requires forall r :: r in records ==> r.edge
    ensures EdgeRecs(records) == Recs(records)
  {
    if records != [] {
      var front := records[..|records| - 1];
      assert records == front + [records[|records| - 1]];
      EdgeRecsAll(front);
    }
  }

  lemma LastIsNew(list: seq<Vid>)
    requires StrictlySorted(list) && list != []
    ensures StrictlySorted(list[..|list| - 1]) && list[|list| - 1] !in list[..|list| - 1]
  {
  }

  lemma {:induction false} SortedSize(list: seq<Vid>)
    requires StrictlySorted(list)
    ensures |Elems(list)| == |list|
  {
    hide StrictlySorted;
    if list != [] {
      var front, x := list[..|list| - 1], list[|list| - 1];
      LastIsNew(list);
      SortedSize(front);
      assert list == front + [x];
      assert Elems(list) == Elems(front) + {x};
    }
  }

  /** What the merge starts from and what it is given. */
  function PageLists(f: Fields, p: PageNo): Graph
    requires p in f.csr
  {
    map v | v in f.csr[p] :: if v in f.giants then ListOf(f.giantDb, v) else f.csr[p][v]
  }

  lemma RepPage(f: Fields, tails: Tails, chains: Chains, s: State, p: PageNo)
    requires Rep(f, tails, chains, s)
    ensures p in f.csr <==> p in s.csr
    ensures p in f.csr ==> s.csr[p] == Sets(f.csr[p]) && s.csr[p].Keys == f.csr[p].Keys
    ensures p in f.jobs <==> p in s.smo
    ensures p in f.jobs ==> s.smo[p].phase == f.jobs[p].phase && s.smo[p].target == f.jobs[p].forward
    ensures p in f.jobs ==> p in tails && s.smo[p] == AbsJob(f.jobs[p], tails[p]) && JobOk(f.loc, f.jobs[p], tails[p], chains, s.cut, p)
    ensures s.loc == f.loc && s.giant == f.giants
  {
    hide JobOk;
  }

  lemma PageListIs(f: Fields, tails: Tails, chains: Chains, s: State, p: PageNo, v: Vid)
    requires Rep(f, tails, chains, s) && p in f.csr && v in f.csr[p]
    ensures p in s.csr && v in s.csr[p] && v in PageLists(f, p) && Elems(PageLists(f, p)[v]) == Stored(s, p, v)
  {
    hide JobsOk, AbsJobs;
  }

  /** What `BuildMergedGraph` promises about the lists of one page. */
  ghost predicate IsMerge(lists: Graph, records: seq<Record>, graph: Graph) {
    && (forall v :: v in graph <==> v in lists || exists d :: Rec(v, Op(d, Insert)) in EdgeRecs(records))
    && (forall v :: v in graph ==> StrictlySorted(graph[v]))
    && (forall v :: v in graph ==>
          Elems(graph[v]) == Run(Elems(ListOf(lists, v)), Proj(EdgeRecs(records), v)))
  }

  /** Only vertices stored on the page have records in its delta chain. */
  lemma InsertedHere(s: State, promised: Truth, p: PageNo, job: Job, tail: map<Vid, nat>, x: Rec)
    requires Inv(s, promised) && p in s.smo && s.smo[p] == AbsJob(job, tail) && job.phase == Fetched
    requires (forall r :: r in job.fetched ==> r.edge) && x in EdgeRecs(job.fetched)
    ensures p in s.csr && x.src in s.csr[p]
  {
    EdgeRecsAll(job.fetched);
    assert SmoOk(s, p);
    assert x in s.smo[p].fetched;
  }

  lemma FetchedEdges(loc: map<Vid, PageNo>, job: Job, tail: map<Vid, nat>, chains: Chains, cut: Counts, p: PageNo)
    requires JobOk(loc, job, tail, chains, cut, p)
    ensures forall r :: r in job.fetched ==> r.edge
    ensures EdgeRecs(job.fetched) == Recs(job.fetched) == AbsJob(job, tail).fetched
  {
    EdgeRecsAll(job.fetched);
  }

  lemma MergedKeys(f: Fields, tails: Tails, chains: Chains, s: State, promised: Truth, p: PageNo, graph: Graph)
    requires Rep(f, tails, chains, s) && Inv(s, promised) && p in f.jobs && f.jobs[p].phase == Fetched && p in f.csr
    requires IsMerge(PageLists(f, p), f.jobs[p].fetched, graph)
    ensures graph.Keys == f.csr[p].Keys
  {
    hide Rep, Inv, JobOk, AbsJob, Sets, EdgeRecs, Run, Elems, Proj, StrictlySorted;
    RepPage(f, tails, chains, s, p);
    FetchedEdges(f.loc, f.jobs[p], tails[p], chains, s.cut, p);
    forall v | v in graph ensures v in f.csr[p] {
      if v !in f.csr[p] {
        var d :| Rec(v, Op(d, Insert)) in EdgeRecs(f.jobs[p].fetched);
        InsertedHere(s, promised, p, f.jobs[p], tails[p], Rec(v, Op(d, Insert)));
      }
    }
  }

  lemma MergedList(f: Fields, tails: Tails, chains: Chains, s: State, p: PageNo, graph: Graph, v: Vid)
    requires Rep(f, tails, chains, s) && p in f.jobs && p in f.csr
    requires IsMerge(PageLists(f, p), f.jobs[p].fetched, graph) && v in f.csr[p] && v in graph
    ensures p in s.smo && p in s.csr && v in s.csr[p]
    ensures Elems(graph[v]) == Run(Stored(s, p, v), Proj(s.smo[p].fetched, v))
  {
    hide Rep, JobOk, AbsJob, Sets, EdgeRecs, Run, Elems, Proj, StrictlySorted, Stored, PageLists;
    RepPage(f, tails, chains, s, p);
    FetchedEdges(f.loc, f.jobs[p], tails[p], chains, s.cut, p);
    PageListIs(f, tails, chains, s, p, v);
  }

  lemma MergedIs(f: Fields, tails: Tails, chains: Chains, s: State, promised: Truth, p: PageNo, graph: Graph)
    requires Rep(f, tails, chains, s) && Inv(s, promised) && p in f.jobs && f.jobs[p].phase == Fetched && p in f.csr
    requires IsMerge(PageLists(f, p), f.jobs[p].fetched, graph)
    ensures p in s.smo && p in s.csr && graph.Keys == f.csr[p].Keys && Sets(graph) == MergedLists(s, p)
  {
    hide Rep, Inv, IsMerge, PageLists, Run, Elems, Proj, Stored, JobOk, AbsJob;
    RepPage(f, tails, chains, s, p);
    MergedKeys(f, tails, chains, s, promised, p, graph);
    forall v | v in graph
      ensures v in s.csr[p] && Elems(graph[v]) == Run(Stored(s, p, v), Proj(s.smo[p].fetched, v))
    {
      MergedList(f, tails, chains, s, p, graph, v);
    }
  }

  function Promoted(f: Fields, graph: Graph, bound: nat): set<Vid> {
    set v | v in graph && (v in f.giants || |graph[v]| >= bound)
  }

  lemma PromotedInside(f: Fields, graph: Graph, bound: nat)
    ensures Promoted(f, graph, bound) <= graph.Keys
  {
  }

  lemma PromotedIs(f: Fields, tails: Tails, chains: Chains, s: State, graph: Graph)
    requires Rep(f, tails, chains, s) && forall v :: v in graph ==> StrictlySorted(graph[v])
    ensures Promoted(f, graph, s.bound) == Giants(s, Sets(graph))
  {
    forall v | v in graph ensures |Sets(graph)[v]| == |graph[v]| {
      SortedSize(graph[v]);
    }
  }

  function PageOf(graph: Graph, promoted: set<Vid>, target: map<Vid, PageNo>, q: PageNo): Graph
    requires target.Keys <= graph.Keys
  {
    map v | v in target && target[v] == q :: if v in promoted then [] else graph[v]
  }

  function NewPages(graph: Graph, promoted: set<Vid>, target: map<Vid, PageNo>): Csr
    requires target.Keys <= graph.Keys
  {
    map q | q in target.Values :: PageOf(graph, promoted, target, q)
  }

  lemma NewPageIs(graph: Graph, promoted: set<Vid>, target: map<Vid, PageNo>, q: PageNo)
    requires target.Keys <= graph.Keys
    ensures Sets(PageOf(graph, promoted, target, q)) == NewPage(Sets(graph), promoted, target, q)
  {
    assert Elems([]) == {};
  }

  function TargetPages(merged: map<Vid, set<Vid>>, promoted: set<Vid>, target: map<Vid, PageNo>)
    : map<PageNo, map<Vid, set<Vid>>>
    requires target.Keys <= merged.Keys
  {
    map q | q in target.Values :: NewPage(merged, promoted, target, q)
  }

  lemma NewPagesAre(graph: Graph, promoted: set<Vid>, target: map<Vid, PageNo>)
    requires target.Keys <= graph.Keys
    ensures AbsCsr(NewPages(graph, promoted, target)) == TargetPages(Sets(graph), promoted, target)
  {
    hide PageOf, Sets, NewPage;
    forall q | q in target.Values
      ensures Sets(PageOf(graph, promoted, target, q)) == NewPage(Sets(graph), promoted, target, q)
    {
      NewPageIs(graph, promoted, target, q);
    }
  }

  lemma AbsCsrUnion(a: Csr, b: Csr)
    ensures AbsCsr(a + b) == AbsCsr(a) + AbsCsr(b)
  {
  }

  lemma SetsUnion(a: Graph, b: Graph)
    ensures Sets(a + b) == Sets(a) + Sets(b)
  {
  }

  function BuiltJob(job: Job, graph: Graph, target: map<Vid, PageNo>, promoted: set<Vid>, expected: Counts): (r: Job)
    ensures r.phase == Built && r.forward == target && r.stray == job.stray && r.done == job.done && r.giants == promoted
  {
    job.(phase := Built, merged := graph, forward := target, giants := promoted, expected := expected)
  }

  /** The versions that are to be replaced. */
  function Versions(ver: Counts, target: map<Vid, PageNo>): Counts {
    map v | v in target :: CountOf(ver, v)
  }

  lemma VersionsAre(f: Fields, tails: Tails, chains: Chains, s: State, target: map<Vid, PageNo>)
    requires Rep(f, tails, chains, s)
    ensures Versions(f.ver, target) == Expected(s, target)
  {
    hide JobsOk, AbsJobs, AbsCsr, Sets;
  }

  /** Where the list of a merged vertex is put: outside the pages if it was there or has
   *  reached the bound, else on the new page. */
  ghost predicate Housed(was: seq<Vid>, isGiant: bool, recs: seq<Rec>, v: Vid, bound: nat, toGiant: bool, page: Graph,
                         store: Graph)
  {
    var now := Run(Elems(was), Proj(recs, v));
    && (toGiant <==> isGiant || |now| >= bound)
    && v in page && (toGiant ==> v in store && page[v] == [])
    && var list := if toGiant then store[v] else page[v];
       StrictlySorted(list) && Elems(list) == now
  }

  /** Every vertex of page p is housed, and everything stored elsewhere is as it was. */
  ghost predicate AllHoused(was: Fields, p: PageNo, bound: nat, target: map<Vid, PageNo>, promoted: set<Vid>, csr: Csr,
                            giantDb: Graph)
    requires p in was.csr && p in was.jobs
  {
    && target.Keys == was.csr[p].Keys
    && (forall v :: v in target ==>
          && target[v] in csr
          && Housed(if v in was.giants then ListOf(was.giantDb, v) else was.csr[p][v], v in was.giants,
                    Recs(was.jobs[p].fetched), v, bound, v in promoted, csr[target[v]], giantDb))
    && (forall q :: q in was.csr ==> q in csr && csr[q] == was.csr[q])
    && (forall v :: v in was.giantDb && v !in promoted ==> v in giantDb && giantDb[v] == was.giantDb[v])
  }

  function Promotions(graph: Graph, promoted: set<Vid>): Graph
    requires promoted <= graph.Keys
  {
    map v | v in promoted :: graph[v]
  }

  function GiantLists(merged: map<Vid, set<Vid>>, promoted: set<Vid>): map<Vid, set<Vid>>
    requires promoted <= merged.Keys
  {
    map v | v in promoted :: merged[v]
  }

  lemma PromotionsAre(graph: Graph, promoted: set<Vid>)
    requires promoted <= graph.Keys
    ensures Sets(Promotions(graph, promoted)) == GiantLists(Sets(graph), promoted)
  {
  }

  /** Every vertex of the page, after the replacement is built. */
  lemma BuiltHouses(f: Fields, job: Job, p: PageNo, target: map<Vid, PageNo>, graph: Graph, bound: nat, v: Vid)
    requires p in f.csr && v in f.csr[p] && IsMerge(PageLists(f, p), job.fetched, graph)
    requires target.Keys == f.csr[p].Keys <= graph.Keys && forall r :: r in job.fetched ==> r.edge
    ensures Promoted(f, graph, bound) <= graph.Keys && target[v] in NewPages(graph, Promoted(f, graph, bound), target)
    ensures var promoted := Promoted(f, graph, bound);
      Housed(if v in f.giants then ListOf(f.giantDb, v) else f.csr[p][v], v in f.giants, Recs(job.fetched), v, bound,
             v in promoted, NewPages(graph, promoted, target)[target[v]], f.giantDb + Promotions(graph, promoted))
  {
    hide Run, Proj, Recs;
    EdgeRecsAll(job.fetched);
    SortedSize(graph[v]);
    assert target[v] in target.Values;
  }

  /** What was stored stays, but for the lists of the giants of this page. */
  lemma BuiltOthers(f: Fields, target: map<Vid, PageNo>, graph: Graph, promoted: set<Vid>)
    requires target.Keys <= graph.Keys && promoted <= graph.Keys && forall v :: v in target ==> target[v] !in f.csr
    ensures forall q :: q in f.csr ==> (f.csr + NewPages(graph, promoted, target))[q] == f.csr[q]
    ensures forall v :: v in f.giantDb && v !in promoted ==> (f.giantDb + Promotions(graph, promoted))[v] == f.giantDb[v]
  {
    forall q | q in f.csr ensures q !in target.Values {
      assert forall v :: v in target ==> target[v] != q;
    }
  }

  lemma BuiltJobOk(loc: map<Vid, PageNo>, job: Job, tail: map<Vid, nat>, chains: Chains, cut: Counts, p: PageNo,
                   graph: Graph, target: map<Vid, PageNo>, promoted: set<Vid>, expected: Counts)
    requires JobOk(loc, job, tail, chains, cut, p)
    ensures JobOk(loc, BuiltJob(job, graph, target, promoted, expected), tail, chains, cut, p)
    ensures AbsJob(BuiltJob(job, graph, target, promoted, expected), tail)
         == Prepare(AbsJob(job, tail), Sets(graph), target, promoted, expected)
  {
    var job' := BuiltJob(job, graph, target, promoted, expected);
    forall v | v in tail && v in loc && loc[v] == p ensures BoundaryAt(job', tail, chains, cut, v) {
      assert BoundaryAt(job, tail, chains, cut, v);
    }
  }

  /** New pages and giant lists written, the job advanced. */
  function Rebuilt(f: Fields, p: PageNo, target: map<Vid, PageNo>, graph: Graph, promoted: set<Vid>): Fields
    requires p in f.jobs && target.Keys <= graph.Keys && promoted <= graph.Keys
  {
    f.(csr := f.csr + NewPages(graph, promoted, target), giantDb := f.giantDb + Promotions(graph, promoted),
       jobs := f.jobs[p := BuiltJob(f.jobs[p], graph, target, promoted, Versions(f.ver, target))])
  }

  lemma RepStores(f: Fields, tails: Tails, chains: Chains, s: State, csr: Csr, giantDb: Graph)
    requires Rep(f, tails, chains, s)
    ensures Rep(f.(csr := csr, giantDb := giantDb), tails, chains, s.(csr := AbsCsr(csr), giantList := Sets(giantDb)))
  {
    hide JobsOk, AbsJobs, AbsCsr, Sets;
  }

  lemma DoMergeIs(s: State, p: PageNo, target: map<Vid, PageNo>, merged: map<Vid, set<Vid>>, promoted: set<Vid>)
    requires CanMerge(s, p, target) && merged == MergedLists(s, p) && promoted == Giants(s, merged)
    ensures promoted <= merged.Keys && target.Keys <= merged.Keys
    ensures DoMerge(s, p, target) == s.(
      smo := s.smo[p := Prepare(s.smo[p], merged, target, promoted, Expected(s, target))],
      giantList := s.giantList + GiantLists(merged, promoted),
      csr := s.csr + TargetPages(merged, promoted, target))
  {
  }

  lemma RepMerge(f: Fields, tails: Tails, chains: Chains, s: State, p: PageNo, target: map<Vid, PageNo>, graph: Graph,
                 promoted: set<Vid>)
    requires Rep(f, tails, chains, s) && p in f.jobs && p in tails && CanMerge(s, p, target)
    requires Sets(graph) == MergedLists(s, p) && promoted == Giants(s, Sets(graph))
    requires promoted <= graph.Keys && target.Keys <= graph.Keys
    ensures Rep(Rebuilt(f, p, target, graph, promoted), tails, chains, DoMerge(s, p, target))
  {
    hide Rep, AbsCsr, Sets, NewPages, Promotions, TargetPages, GiantLists, BuiltJob, JobOk, AbsJob, CanMerge, MergedLists,
         Giants, DoMerge, Versions, Expected, Prepare;
    RepPage(f, tails, chains, s, p);
    var expected := Versions(f.ver, target);
    VersionsAre(f, tails, chains, s, target);
    BuiltJobOk(f.loc, f.jobs[p], tails[p], chains, s.cut, p, graph, target, promoted, expected);
    var job := BuiltJob(f.jobs[p], graph, target, promoted, expected);
    JobsPut(f, tails, chains, s, p, job, tails[p]);
    assert tails[p := tails[p]] == tails;
    RepStores(f.(jobs := f.jobs[p := job]), tails, chains, s.(smo := s.smo[p := AbsJob(job, tails[p])]),
              f.csr + NewPages(graph, promoted, target), f.giantDb + Promotions(graph, promoted));
    AbsCsrUnion(f.csr, NewPages(graph, promoted, target));
    SetsUnion(f.giantDb, Promotions(graph, promoted));
    NewPagesAre(graph, promoted, target);
    PromotionsAre(graph, promoted);
    DoMergeIs(s, p, target, Sets(graph), promoted);
    RepStored(f, tails, chains, s);
  }

  lemma BuiltRep(f: Fields, tails: Tails, chains: Chains, s: State, promised: Truth, p: PageNo,
                 target: map<Vid, PageNo>, graph: Graph)
    requires Rep(f, tails, chains, s) && Inv(s, promised) && p in f.jobs && f.jobs[p].phase == Fetched && p in f.csr
    requires CanMerge(s, p, target) && IsMerge(PageLists(f, p), f.jobs[p].fetched, graph)
    ensures target.Keys <= graph.Keys && Promoted(f, graph, s.bound) <= graph.Keys
    ensures Rep(Rebuilt(f, p, target, graph, Promoted(f, graph, s.bound)), tails, chains, DoMerge(s, p, target))
  {
    hide Rep, Inv, PageLists, Rebuilt, Sets, JobOk, AbsJob, EdgeRecs, Run, Elems, Proj, MergedLists, Giants, DoMerge;
    RepPage(f, tails, chains, s, p);
    MergedIs(f, tails, chains, s, promised, p, graph);
    PromotedIs(f, tails, chains, s, graph);
    RepMerge(f, tails, chains, s, p, target, graph, Promoted(f, graph, s.bound));
  }

  lemma RepStored(f: Fields, tails: Tails, chains: Chains, s: State)
    requires Rep(f, tails, chains, s)
    ensures s.csr == AbsCsr(f.csr) && s.giantList == Sets(f.giantDb)
  {
    hide JobsOk, AbsJobs, AbsCsr, Sets;
  }

  // ---------------------------------------------------------------------------
  // Forwarding and draining

  function Advanced(job: Job, phase: Phase, stray: seq<Record>): Job {
    job.(phase := phase, stray := stray)
  }

  lemma AdvancedOk(loc: map<Vid, PageNo>, job: Job, tail: map<Vid, nat>, chains: Chains, cut: Counts, p: PageNo,
                   phase: Phase, stray: seq<Record>)
    requires JobOk(loc, job, tail, chains, cut, p) && forall r :: r in stray ==> r.edge
    ensures JobOk(loc, Advanced(job, phase, stray), tail, chains, cut, p)
    ensures AbsJob(Advanced(job, phase, stray), tail) == AbsJob(job, tail).(phase := phase, stray := Recs(stray))
  {
    forall v | v in tail && v in loc && loc[v] == p ensures BoundaryAt(Advanced(job, phase, stray), tail, chains, cut, v) {
      assert BoundaryAt(job, tail, chains, cut, v);
    }
  }

  lemma RepAdvance(f: Fields, tails: Tails, chains: Chains, s: State, p: PageNo, phase: Phase, stray: seq<Record>,
                   log: map<PageNo, seq<Rec>>)
    requires Rep(f, tails, chains, s) && p in f.jobs && forall r :: r in stray ==> r.edge
    ensures p in s.smo
    ensures Rep(f.(jobs := f.jobs[p := Advanced(f.jobs[p], phase, stray)]), tails, chains,
                s.(smo := s.smo[p := s.smo[p].(phase := phase, stray := Recs(stray))], log := log))
  {
    hide Rep, JobOk, AbsJob, Advanced;
    RepPage(f, tails, chains, s, p);
    var job := Advanced(f.jobs[p], phase, stray);
    AdvancedOk(f.loc, f.jobs[p], tails[p], chains, s.cut, p, phase, stray);
    JobsPut(f, tails, chains, s, p, job, tails[p]);
    assert tails[p := tails[p]] == tails;
    RepLogs(f.(jobs := f.jobs[p := job]), tails, chains, s.(smo := s.smo[p := AbsJob(job, tails[p])]), s.chain, log);
  }

  lemma StrayIs(loc: map<Vid, PageNo>, job: Job, tail: map<Vid, nat>, chains: Chains, cut: Counts, p: PageNo)
    requires JobOk(loc, job, tail, chains, cut, p)
    ensures forall r :: r in job.stray ==> r.edge
    ensures AbsJob(job, tail).stray == Recs(job.stray)
    ensures job.stray != [] ==> Recs(job.stray)[0] == RecOf(job.stray[0]) && Recs(job.stray[1..]) == Recs(job.stray)[1..]
  {
    var stray := job.stray;
    if stray != [] {
      RecsConcat([stray[0]], stray[1..]);
      assert stray == [stray[0]] + stray[1..];
    }
  }

  lemma RepStray(f: Fields, tails: Tails, chains: Chains, s: State, p: PageNo)
    requires Rep(f, tails, chains, s) && p in f.jobs
    ensures p in s.smo && s.smo[p].stray == Recs(f.jobs[p].stray)
    ensures forall r :: r in f.jobs[p].stray ==> r.edge
    ensures var stray := f.jobs[p].stray;
      stray != [] ==> s.smo[p].stray[0] == RecOf(stray[0]) && s.smo[p].stray[1..] == Recs(stray[1..])
  {
    hide Rep, JobOk, AbsJob, Recs;
    RepPage(f, tails, chains, s, p);
    StrayIs(f.loc, f.jobs[p], tails[p], chains, s.cut, p);
  }

  /** Draining is: take the record off the list, append it, note it. */
  lemma DrainIs(s: State, p: PageNo)
    requires CanDrain(s, p)
    ensures var c, x := s.smo[p], s.smo[p].stray[0];
      var s1 := s.(smo := s.smo[p := c.(phase := Draining, stray := c.stray[1..])], log := s.log);
      var s2 := Append(s1, x.src, x.op, c.target[x.src]);
      && p in s2.smo
      && DoDrain(s, p) == s2.(smo := s2.smo[p := NoteTail(s2.smo[p], x.src, Top(s, x.src))])
  {
  }

  /** The worker never meets a stray without a place in the replacement pages. */
  lemma DrainSteps(s: State, promised: Truth, p: PageNo)
    requires Inv(s, promised) && p in s.smo && s.smo[p].phase == Draining && s.smo[p].stray != []
    ensures CanDrain(s, p) && s.smo[p].stray[0].src in s.chain
    ensures Stepped(s, Drain(p), DoDrain(s, p)) && Inv(DoDrain(s, p), promised)
  {
    DrainReady(s, promised, p);
    hide Inv, CanDrain;
    DrainKeeps(s, promised, p);
    InvChained(s, promised, s.smo[p].stray[0].src);
    DrainEnabled(s, p);
  }

  lemma DrainReady(s: State, promised: Truth, p: PageNo)
    requires Inv(s, promised) && p in s.smo && s.smo[p].phase == Draining && s.smo[p].stray != []
    ensures CanDrain(s, p) && s.smo[p].stray[0].src in s.loc
  {
    hide ViewsOk, LocOk, AllPlaced, LogOk, SmosOk;
    ConsolidationLimits.StrayHasTarget(s, p);
    StrayServed(s, p);
  }

  lemma StrayPlaced(s: State, promised: Truth, p: PageNo)
    requires Inv(s, promised) && p in s.smo && s.smo[p].phase == Draining && s.smo[p].stray != []
    ensures s.smo[p].stray[0].src in s.smo[p].target
  {
    hide Inv;
    DrainReady(s, promised, p);
  }

  lemma DrainEnabled(s: State, p: PageNo)
    requires CanDrain(s, p)
    ensures Stepped(s, Drain(p), DoDrain(s, p))
  {
  }

  // ---------------------------------------------------------------------------
  // Switching

  function SwitchedGiants(giants: set<Vid>, promoted: set<Vid>, w: Vid): set<Vid> {
    if w in promoted then giants + {w} else giants - {w}
  }

  function SwitchedJob(job: Job, w: Vid): Job {
    job.(done := job.done + {w})
  }

  /** The vertex published on its new page. */
  function Switched(f: Fields, p: PageNo, w: Vid): Fields
    requires p in f.jobs && w in f.jobs[p].forward
  {
    f.(loc := f.loc[w := f.jobs[p].forward[w]], ver := f.ver[w := CountOf(f.ver, w) + 1],
       giants := SwitchedGiants(f.giants, f.jobs[p].giants, w), jobs := f.jobs[p := SwitchedJob(f.jobs[p], w)])
  }

  /** A job with no rerouted record has no boundary to keep. */
  lemma SwitchKeepsJob(loc: map<Vid, PageNo>, job: Job, tail: map<Vid, nat>, chains: Chains, cut: Counts, r: PageNo,
                       w: Vid, q: PageNo, locs: seq<Loc>, below: nat)
    requires JobOk(loc, job, tail, chains, cut, r) && w in loc && (q == r ==> tail == map[])
    ensures JobOk(loc[w := q], job, tail, chains[w := locs], cut[w := below], r)
  {
    forall v | v in tail && v in loc[w := q] && loc[w := q][v] == r
      ensures BoundaryAt(job, tail, chains[w := locs], cut[w := below], v)
    {
      assert BoundaryAt(job, tail, chains, cut, v);
    }
  }

  lemma SwitchedJobOk(loc: map<Vid, PageNo>, job: Job, tail: map<Vid, nat>, chains: Chains, cut: Counts, p: PageNo, w: Vid)
    requires JobOk(loc, job, tail, chains, cut, p)
    ensures JobOk(loc, SwitchedJob(job, w), tail, chains, cut, p)
    ensures AbsJob(SwitchedJob(job, w), tail) == AbsJob(job, tail).(done := AbsJob(job, tail).done + {w})
  {
    forall v | v in tail && v in loc && loc[v] == p ensures BoundaryAt(SwitchedJob(job, w), tail, chains, cut, v) {
      assert BoundaryAt(job, tail, chains, cut, v);
    }
  }

  /** The new page of a vertex to be switched has no rerouted record yet. */
  lemma DestinationFresh(s: State, promised: Truth, p: PageNo, w: Vid, r: PageNo)
    requires Inv(s, promised) && CanSwitch(s, p, w) && r in s.smo && r == s.smo[p].target[w]
    ensures s.smo[r].tail == map[]
  {
    SwitchReady(s, p, w);
    assert SmoOk(s, r);
  }

  lemma SwitchJobs(f: Fields, tails: Tails, chains: Chains, s: State, promised: Truth, p: PageNo, w: Vid, locs: seq<Loc>,
                   below: nat)
    requires Rep(f, tails, chains, s) && Inv(s, promised) && CanSwitch(s, p, w) && w in f.loc
    ensures JobsOk(f.loc[w := s.smo[p].target[w]], f.jobs, tails, chains[w := locs], s.cut[w := below])
  {
    hide JobOk, Inv, AbsCsr, Sets, CanSwitch;
    SwitchAt(s, promised, p, w);
    var q := s.smo[p].target[w];
    forall r | r in f.jobs
      ensures JobOk(f.loc[w := q], f.jobs[r], tails[r], chains[w := locs], s.cut[w := below], r)
    {
      assert s.smo[r] == AbsJob(f.jobs[r], tails[r]);
      if r == q {
        DestinationFresh(s, promised, p, w, r);
      }
      SwitchKeepsJob(f.loc, f.jobs[r], tails[r], chains, s.cut, r, w, q, locs, below);
    }
  }

  lemma RepLoc(f: Fields, tails: Tails, chains: Chains, s: State, chains': Chains, loc: map<Vid, PageNo>, ver: Counts,
               giants: set<Vid>, chain: map<Vid, seq<Op>>, cut: Counts)
    requires Rep(f, tails, chains, s) && JobsOk(loc, f.jobs, tails, chains', cut)
    ensures Rep(f.(loc := loc, ver := ver, giants := giants), tails, chains',
                s.(loc := loc, ver := ver, giant := giants, chain := chain, cut := cut))
  {
    hide JobsOk, AbsCsr, Sets;
  }

  /** The fields of the database after a switch, but for the list of vertices done. */
  lemma RepMoved(f: Fields, tails: Tails, chains: Chains, s: State, promised: Truth, p: PageNo, w: Vid, locs: seq<Loc>,
                 k: nat)
    requires Rep(f, tails, chains, s) && Inv(s, promised) && CanSwitch(s, p, w) && k <= |Chain(s, w)|
    ensures p in f.jobs && p in tails && w in f.jobs[p].forward && s.smo[p] == AbsJob(f.jobs[p], tails[p])
    ensures Rep(f.(loc := f.loc[w := f.jobs[p].forward[w]], ver := f.ver[w := CountOf(f.ver, w) + 1],
                   giants := SwitchedGiants(f.giants, f.jobs[p].giants, w)), tails, chains[w := locs],
                s.(loc := s.loc[w := s.smo[p].target[w]], ver := s.ver[w := CountOf(s.ver, w) + 1],
                   giant := SwitchedGiants(s.giant, s.smo[p].giants, w), chain := s.chain[w := Chain(s, w)[k..]],
                   cut := s.cut[w := Cut(s, w) + k]))
  {
    hide Rep, Inv, JobOk, JobsOk, SwitchedGiants, CanSwitch;
    RepPage(f, tails, chains, s, p);
    RepVersions(f, tails, chains, s);
    SwitchAt(s, promised, p, w);
    SwitchJobs(f, tails, chains, s, promised, p, w, locs, Cut(s, w) + k);
    RepLoc(f, tails, chains, s, chains[w := locs], f.loc[w := f.jobs[p].forward[w]], f.ver[w := CountOf(f.ver, w) + 1],
           SwitchedGiants(f.giants, f.jobs[p].giants, w), s.chain[w := Chain(s, w)[k..]], s.cut[w := Cut(s, w) + k]);
  }

  /** One more vertex done. */
  lemma RepDone(f: Fields, tails: Tails, chains: Chains, s: State, p: PageNo, w: Vid)
    requires Rep(f, tails, chains, s) && p in f.jobs
    ensures p in s.smo
    ensures Rep(f.(jobs := f.jobs[p := SwitchedJob(f.jobs[p], w)]), tails, chains,
                s.(smo := s.smo[p := s.smo[p].(done := s.smo[p].done + {w})]))
  {
    hide Rep, JobOk, SwitchedJob, AbsJob;
    RepPage(f, tails, chains, s, p);
    SwitchedJobOk(f.loc, f.jobs[p], tails[p], chains, s.cut, p, w);
    JobsPut(f, tails, chains, s, p, SwitchedJob(f.jobs[p], w), tails[p]);
    assert tails[p := tails[p]] == tails;
  }

  lemma RepSwitch(f: Fields, tails: Tails, chains: Chains, s: State, promised: Truth, p: PageNo, w: Vid, locs: seq<Loc>)
    requires Rep(f, tails, chains, s) && Inv(s, promised) && CanSwitch(s, p, w)
    ensures p in f.jobs && w in f.jobs[p].forward
    ensures Rep(Switched(f, p, w), tails, chains[w := locs], DoSwitch(s, p, w))
  {
    hide Rep, Inv, JobOk, JobsOk, Dropped, SwitchedGiants, SwitchedJob, CanSwitch, DoSwitch, AbsJob, CasHolds;
    SwitchAt(s, promised, p, w);
    var k := Dropped(s, s.smo[p], w);
    RepMoved(f, tails, chains, s, promised, p, w, locs, k);
    var f' := f.(loc := f.loc[w := f.jobs[p].forward[w]], ver := f.ver[w := CountOf(f.ver, w) + 1],
                 giants := SwitchedGiants(f.giants, f.jobs[p].giants, w));
    var s' := s.(loc := s.loc[w := s.smo[p].target[w]], ver := s.ver[w := CountOf(s.ver, w) + 1],
                 giant := SwitchedGiants(s.giant, s.smo[p].giants, w), chain := s.chain[w := Chain(s, w)[k..]],
                 cut := s.cut[w := Cut(s, w) + k]);
    RepDone(f', tails, chains[w := locs], s', p, w);
    SwitchIs(s, p, w);
  }

  /** What the compare-and-swap will find. */
  lemma VersionStands(f: Fields, tails: Tails, chains: Chains, s: State, promised: Truth, p: PageNo, w: Vid)
    requires Rep(f, tails, chains, s) && Inv(s, promised) && CanSwitch(s, p, w)
    ensures p in f.jobs && w in f.jobs[p].expected && f.jobs[p].expected[w] == CountOf(f.ver, w)
    ensures f.loc == s.loc
  {
    hide Rep, Inv, JobOk, CanSwitch;
    SwitchAt(s, promised, p, w);
    RepPage(f, tails, chains, s, p);
    RepVersions(f, tails, chains, s);
  }

  lemma RepVersions(f: Fields, tails: Tails, chains: Chains, s: State)
    requires Rep(f, tails, chains, s)
    ensures s.ver == f.ver
  {
    hide JobsOk, AbsJobs, AbsCsr, Sets;
  }

  lemma SwitchIs(s: State, p: PageNo, w: Vid)
    requires CanSwitch(s, p, w) && CasHolds(s, p, w)
    ensures var k := Dropped(s, s.smo[p], w);
      DoSwitch(s, p, w) == s.(loc := s.loc[w := s.smo[p].target[w]], ver := s.ver[w := CountOf(s.ver, w) + 1],
        giant := SwitchedGiants(s.giant, s.smo[p].giants, w), chain := s.chain[w := Chain(s, w)[k..]],
        cut := s.cut[w := Cut(s, w) + k], smo := s.smo[p := s.smo[p].(done := s.smo[p].done + {w})])
  {
    hide Dropped;
  }

  /** The chain has to be cut at the boundary record, and dropped without one. */
  lemma DroppedIs(f: Fields, tails: Tails, chains: Chains, s: State, promised: Truth, p: PageNo, w: Vid)
    requires Rep(f, tails, chains, s) && Inv(s, promised) && CanSwitch(s, p, w)
    requires w in chains && |Chain(s, w)| == |chains[w]|
    ensures p in f.jobs
    ensures var k := Dropped(s, s.smo[p], w);
      if w in f.jobs[p].boundary then k < |chains[w]| && chains[w][k] == f.jobs[p].boundary[w]
      else k == |chains[w]|
  {
    hide Rep, Inv, CanSwitch, CasHolds, DestinationOk;
    RepPage(f, tails, chains, s, p);
    SwitchAt(s, promised, p, w);
    if w in f.jobs[p].boundary {
      assert BoundaryAt(f.jobs[p], tails[p], chains, s.cut, w);
    }
  }

  lemma SwitchAt(s: State, promised: Truth, p: PageNo, w: Vid)
    requires Inv(s, promised) && CanSwitch(s, p, w)
    ensures p in s.smo && w in s.smo[p].target && w in s.loc && s.loc[w] == p
    ensures s.smo[p].phase == Draining && s.smo[p].stray == [] && CasHolds(s, p, w)
  {
    SwitchReady(s, p, w);
  }

  lemma SwitchSteps(s: State, promised: Truth, p: PageNo, w: Vid)
    requires Inv(s, promised) && CanSwitch(s, p, w)
    ensures Stepped(s, Switch(p, w), DoSwitch(s, p, w)) && Inv(DoSwitch(s, p, w), promised)
    ensures DoSwitch(s, p, w).log == s.log && DoSwitch(s, p, w).bound == s.bound
    ensures DoSwitch(s, p, w).chain == s.chain[w := Chain(s, w)[Dropped(s, s.smo[p], w)..]] && w in s.chain
  {
    hide Inv, Dropped;
    SwitchKeeps(s, promised, p, w);
    SwitchAt(s, promised, p, w);
    InvChained(s, promised, w);
  }

  // ---------------------------------------------------------------------------
  // Detaching

  lemma RepDetach(f: Fields, tails: Tails, chains: Chains, s: State, p: PageNo)
    requires Rep(f, tails, chains, s)
    ensures Rep(f.(csr := f.csr - {p}, jobs := f.jobs - {p}), tails - {p}, chains, DoDetach(s, p))
  {
    hide AbsJob, Sets, JobOk;
    AbsJobsDrop(f.jobs, tails, p);
    assert AbsCsr(f.csr - {p}) == AbsCsr(f.csr) - {p};
  }

  lemma InstallSteps(f: Fields, tails: Tails, chains: Chains, s: State, promised: Truth, p: PageNo)
    requires Rep(f, tails, chains, s) && Inv(s, promised) && p in f.jobs && f.jobs[p].phase == Built && f.jobs[p].stray == []
    ensures p in s.smo && Stepped(s, Install(p), DoInstall(s, p)) && Inv(DoInstall(s, p), promised)
    ensures Rep(f.(jobs := f.jobs[p := Advanced(f.jobs[p], Forwarding, [])]), tails, chains, DoInstall(s, p))
  {
    hide Rep, Inv;
    RepPage(f, tails, chains, s, p);
    RepStray(f, tails, chains, s, p);
    RepAdvance(f, tails, chains, s, p, Forwarding, [], s.log);
    WorkerSteps(s, promised, Install(p));
  }

  lemma WorkerSteps(s: State, promised: Truth, t: Step)
    requires Inv(s, promised) && Enabled(s, t) && !t.Write? && !t.Merge?
    ensures Stepped(s, t, Next(s, t)) && Inv(Next(s, t), promised)
  {
    StepKeeps(s, promised, t);
  }

  // ---------------------------------------------------------------------------

  class Database {
    const deltas: DeltaStore
    const bound: nat
    var loc: map<Vid, PageNo>
    var ver: Counts
    var csr: Csr
    var giants: set<Vid>
    var giantDb: Graph
    var jobs: Jobs
    ghost var tails: Tails
    /** The state of the abstract machine. */
    ghost var state: State
    /** The edge set that a read of each vertex is to return. */
    ghost var promised: Truth

    /** The fields represent `state`. */
    ghost predicate Wired()
      reads this`loc, this`ver, this`csr, this`giants, this`giantDb, this`jobs, this`tails, this`state, deltas
    {
      && deltas.Valid() && HEADER_BYTES + RECORD_BYTES <= deltas.pageSize
      && Rep(Fields(loc, ver, csr, giants, giantDb, jobs), tails, deltas.chains, state)
      && jobs.Keys <= deltas.log.Keys && state.chain == deltas.chain && state.log == deltas.log && state.bound == bound
    }

    ghost predicate Valid()
      reads this, deltas
    {
      Wired() && Inv(state, promised)
    }

    /** Every page serves what it stores, and no record is written yet. */
    constructor (f: Fields, bound: nat, deltaPageSize: nat)
      requires HEADER_BYTES + RECORD_BYTES <= deltaPageSize
      requires StartFields(f)
      ensures Valid() && state == Start(f, bound) && promised == InitialTruth(state)
      ensures fresh(deltas)
    {
      deltas := new DeltaStore(deltaPageSize, f.loc.Keys);
      this.bound := bound;
      loc, ver, csr, giants, giantDb, jobs, tails := f.loc, f.ver, f.csr, f.giants, f.giantDb, f.jobs, map[];
      state, promised := Start(f, bound), InitialTruth(Start(f, bound));
      hide Rep, DeltaStore.Valid, AbsCsr, Sets, Inv, InitialTruth;
      new;
      StartOk(f, bound, deltas.chains);
    }

    /** Link a record to the head of its vertex, store it in the delta chain of CSR
     *  page `q`, publish it. */
    method AppendRecord(v: Vid, op: Op, q: PageNo) returns (l: Loc)
      requires Wired() && v in state.chain
      modifies this`state, deltas
      ensures Wired() && state == Append(old(state), v, op, q)
      ensures RecordAt(deltas.chains, state.cut, v, Top(old(state), v), l)
    {
      hide Rep, DeltaStore.Valid;
      ghost var f, chains := Fields(loc, ver, csr, giants, giantDb, jobs), deltas.chains;
      deltas.Lengths(v);
      l := deltas.AppendRecord(v, op, q);
      RepAppend(f, tails, chains, state, v, op, q, l);
      state := Append(state, v, op, q);
    }

    /** Keep the first rerouted record of `v` (page_delta_t::note_rerouted_tail). */
    method NoteRerouted(p: PageNo, v: Vid, l: Loc, ghost at: nat)
      requires Wired() && p in jobs && RecordAt(deltas.chains, state.cut, v, at, l)
      modifies this`jobs, this`tails, this`state
      ensures Wired() && p in old(state).smo
      ensures state == old(state).(smo := old(state).smo[p := NoteTail(old(state).smo[p], v, at)])
      ensures jobs == old(jobs)[p := Noted(old(jobs)[p], v, l)]
    {
      hide Rep, Noted, NotedTail, NoteTail, DeltaStore.Valid;
      RepNote(Fields(loc, ver, csr, giants, giantDb, jobs), tails, deltas.chains, state, p, v, l, at);
      jobs := jobs[p := Noted(jobs[p], v, l)];
      tails := tails[p := NotedTail(tails[p], v, at)];
      state := state.(smo := state.smo[p := NoteTail(state.smo[p], v, at)]);
    }

    lemma ForwardedHere(v: Vid)
      requires Wired() && v in loc
      ensures v in state.loc && state.loc[v] == loc[v]
      ensures var p := loc[v];
        Forwarded(state, v) == (p in jobs && Forwards(jobs[p].phase) && v in jobs[p].forward)
      ensures WritePage(state, v) == if Forwarded(state, v) then jobs[loc[v]].forward[v] else loc[v]
    {
      hide Rep, Forwarded, WritePage, DeltaStore.Valid;
      RepForwarded(Fields(loc, ver, csr, giants, giantDb, jobs), tails, deltas.chains, state, v);
    }

    /** Route a record through the forwarding table of the page if there is one, else
     *  to the page itself (insert_delta_with_forward). */
    method RouteRecord(v: Vid, op: Op)
      requires Wired() && v in loc && v in state.chain
      modifies this`jobs, this`tails, this`state, deltas
      ensures Wired() && Stepped(old(state), Write(v, op), state)
    {
      hide Wired, Forwarded, WritePage, NoteTail, Append, Stepped;
      ghost var s := state;
      ForwardedHere(v);
      WriteRefines(s, v, op);
      var p := loc[v];
      var forwarded := p in jobs && Forwards(jobs[p].phase) && v in jobs[p].forward;
      var l := AppendRecord(v, op, if forwarded then jobs[p].forward[v] else p);
      if forwarded {
        NoteRerouted(p, v, l, Top(s, v));
      }
    }

    /** The write critical section. */
    method WriteEdge(v: Vid, op: Op)
      requires Valid() && v in loc
      modifies this`jobs, this`tails, this`state, this`promised, deltas
      ensures Valid() && Stepped(old(state), Write(v, op), state)
      ensures promised == Promise(old(state), old(promised), Write(v, op))
    {
      hide Wired, Inv, Stepped, Promise;
      WiredChain(v);
      RouteRecord(v, op);
      SteppedInv(old(state), promised, Write(v, op), state);
      promised := Promise(old(state), promised, Write(v, op));
    }

    lemma WiredChain(v: Vid)
      requires Valid() && v in loc
      ensures v in state.loc && v in state.chain
    {
      InvChained(state, promised, v);
    }

    /** The reader: page or giant list, then the chain newest first. */
    method ReadNeighborClone(v: Vid) returns (result: seq<Vid>)
      requires Valid() && v in loc
      ensures v in state.loc && v in promised
      ensures Elems(result) == Read(state, v)
      ensures Elems(result) == promised[v] <==> forall e :: !MidDrain(state, v, e)
    {
      hide Rep, Inv, Base, ChainAt, Ops, MidDrain, Run;
      ghost var f := Fields(loc, ver, csr, giants, giantDb, jobs);
      var base := if v in giants then ListOf(giantDb, v) else if loc[v] in csr then ListOf(csr[loc[v]], v) else [];
      BaseListIs(f, tails, deltas.chains, state, v);
      ReadHolds(v);
      deltas.ChainOf(v);
      result := DeltaChain.ReadNeighborClone(base, deltas.pages, v, deltas.heads[v], deltas.chains[v]);
    }

    lemma ReadHolds(v: Vid)
      requires Valid() && v in loc
      ensures v in state.loc && v in promised && v in state.chain
      ensures Read(state, v) == promised[v] <==> forall e :: !MidDrain(state, v, e)
    {
      InvVertex(state, promised, v);
      ReadExact(state, promised, v);
    }

    /** Claim a page for consolidation and take its records.  Nothing happens when a
     *  consolidation of the page is in flight or the page has no record. */
    method BeginConsolidation(p: PageNo) returns (started: bool)
      requires Valid() && p in csr
      modifies this`jobs, this`tails, this`state, deltas
      ensures Valid() && (started ==> p in jobs && jobs[p] == FetchedJob(jobs[p].fetched))
      ensures jobs.Keys == old(jobs).Keys + if started then {p} else {}
      ensures started <==> p !in old(jobs) && Log(old(state), p) != []
      ensures started ==> Stepped(old(state), Fetch(p), state)
      ensures !started ==> state == old(state)
    {
      hide Rep, Inv, Recs, DeltaStore.Valid;
      if p in jobs {
        return false;
      }
      ghost var f, s := Fields(loc, ver, csr, giants, giantDb, jobs), state;
      PageIs(p);
      var records := deltas.FetchDeltasWithMark(p);
      if records == [] {
        return false;
      }
      RepFetch(f, tails, deltas.chains, s, p, records);
      jobs, tails := jobs[p := FetchedJob(records)], tails[p := map[]];
      state := DoFetch(s, p);
      SteppedInv(s, promised, Fetch(p), state);
      started := true;
    }

    lemma PageIs(p: PageNo)
      requires Wired()
      ensures p in csr <==> p in state.csr
      ensures p in jobs <==> p in state.smo
      ensures state.loc == loc
    {
    }

    /** The replacement lists: the fetched records replayed over what the page stores. */
    method MergePage(p: PageNo) returns (graph: Graph)
      requires p in csr && p in jobs
      ensures IsMerge(PageLists(Fields(loc, ver, csr, giants, giantDb, jobs), p), jobs[p].fetched, graph)
    {
      graph := BuildMergedGraph(PageLists(Fields(loc, ver, csr, giants, giantDb, jobs), p), jobs[p].fetched);
    }

    /** Replay the fetched records over the lists of the page, move lists that are or
     *  grew giant to the giant store, and write the rest to new pages.  Which vertex
     *  goes to which new page is `target`. */
    method BuildReplacement(p: PageNo, target: map<Vid, PageNo>)
      requires Valid() && CanMerge(state, p, target) && Alone(state, p)
      modifies this`csr, this`giantDb, this`jobs, this`state
      ensures Valid() && Stepped(old(state), Merge(p, target), state)
      ensures p in old(jobs) && jobs.Keys == old(jobs).Keys && jobs[p].phase == Built
      ensures jobs[p].forward == target && jobs[p].stray == old(jobs)[p].stray && jobs[p].done == old(jobs)[p].done
      ensures p in old(csr)
      ensures AllHoused(old(Fields(loc, ver, csr, giants, giantDb, jobs)), p, bound, target, jobs[p].giants, csr, giantDb)
    {
      hide Wired, Rep, Inv, IsMerge, PageLists, BuiltJob, NewPages, Promotions, Promoted, DoMerge, Stepped, CanMerge, Alone,
           Versions, AllHoused;
      MergeReadyHere(p, target);
      MergeSteps(state, promised, p, target);
      ghost var s := state;
      var graph := MergePage(p);
      var promoted := Promoted(Fields(loc, ver, csr, giants, giantDb, jobs), graph, bound);
      BuiltHere(p, target, graph);
      BuiltHousesHere(p, target, graph);
      csr, giantDb, jobs := csr + NewPages(graph, promoted, target), giantDb + Promotions(graph, promoted),
        jobs[p := BuiltJob(jobs[p], graph, target, promoted, Versions(ver, target))];
      state := DoMerge(s, p, target);
      Rewired(old(state));
    }

    lemma BuiltHousesHere(p: PageNo, target: map<Vid, PageNo>, graph: Graph)
      requires Valid() && p in jobs && jobs[p].phase == Fetched && p in csr && CanMerge(state, p, target)
      requires IsMerge(PageLists(Fields(loc, ver, csr, giants, giantDb, jobs), p), jobs[p].fetched, graph)
      ensures target.Keys <= graph.Keys
      ensures var f := Fields(loc, ver, csr, giants, giantDb, jobs);
        var promoted := Promoted(f, graph, bound);
        promoted <= graph.Keys
        && AllHoused(f, p, bound, target, promoted, csr + NewPages(graph, promoted, target),
                     giantDb + Promotions(graph, promoted))
    {
      hide Rep, Inv, IsMerge, PageLists, NewPages, Promotions, Promoted, DeltaStore.Valid, Housed, Recs;
      ghost var f := Fields(loc, ver, csr, giants, giantDb, jobs);
      RepPage(f, tails, deltas.chains, state, p);
      MergedKeys(f, tails, deltas.chains, state, promised, p, graph);
      FetchedEdges(loc, jobs[p], tails[p], deltas.chains, state.cut, p);
      forall v | v in target
        ensures target[v] !in csr && target[v] in NewPages(graph, Promoted(f, graph, bound), target)
        ensures Promoted(f, graph, bound) <= graph.Keys
        ensures Housed(if v in giants then ListOf(giantDb, v) else csr[p][v], v in giants, Recs(jobs[p].fetched), v, bound,
                       v in Promoted(f, graph, bound), NewPages(graph, Promoted(f, graph, bound), target)[target[v]],
                       giantDb + Promotions(graph, Promoted(f, graph, bound)))
      {
        BuiltHouses(f, jobs[p], p, target, graph, bound, v);
        RepPage(f, tails, deltas.chains, state, target[v]);
      }
      PromotedInside(f, graph, bound);
      BuiltOthers(f, target, graph, Promoted(f, graph, bound));
    }

    lemma MergeReadyHere(p: PageNo, target: map<Vid, PageNo>)
      requires Valid() && CanMerge(state, p, target)
      ensures p in csr && p in jobs && jobs[p].phase == Fetched
    {
      hide Rep, Inv, DeltaStore.Valid;
      RepPage(Fields(loc, ver, csr, giants, giantDb, jobs), tails, deltas.chains, state, p);
    }

    lemma BuiltHere(p: PageNo, target: map<Vid, PageNo>, graph: Graph)
      requires Valid() && p in jobs && jobs[p].phase == Fetched && p in csr && CanMerge(state, p, target)
      requires IsMerge(PageLists(Fields(loc, ver, csr, giants, giantDb, jobs), p), jobs[p].fetched, graph)
      ensures var promoted := Promoted(Fields(loc, ver, csr, giants, giantDb, jobs), graph, bound);
        && target.Keys <= graph.Keys && promoted <= graph.Keys
        && Rep(Fields(loc, ver, csr + NewPages(graph, promoted, target), giants, giantDb + Promotions(graph, promoted),
                      jobs[p := BuiltJob(jobs[p], graph, target, promoted, Versions(ver, target))]),
               tails, deltas.chains, DoMerge(state, p, target))
    {
      hide Rep, Inv, IsMerge, PageLists, BuiltJob, NewPages, Promotions, Promoted, DoMerge, CanMerge, DeltaStore.Valid, Versions;
      BuiltRep(Fields(loc, ver, csr, giants, giantDb, jobs), tails, deltas.chains, state, promised, p, target, graph);
    }

    /** The delta chains are as they were, and the other fields represent the new state. */
    twostate lemma Rewired(s: State)
      requires old(Wired()) && s == old(state) && unchanged(deltas)
      requires Rep(Fields(loc, ver, csr, giants, giantDb, jobs), tails, deltas.chains, state)
      requires jobs.Keys == old(jobs).Keys
      requires state.chain == s.chain && state.log == s.log && state.bound == s.bound
      ensures Wired()
    {
      hide Rep, DeltaStore.Valid;
    }

    /** From now on writes are routed to the new pages. */
    method InstallForwarder(p: PageNo)
      requires Valid() && p in jobs && jobs[p].phase == Built && jobs[p].stray == []
      modifies this`jobs, this`state
      ensures Valid() && Stepped(old(state), Install(p), state)
      ensures jobs == old(jobs)[p := Advanced(old(jobs)[p], Forwarding, [])]
    {
      hide Rep, Inv, Stepped, DeltaStore.Valid;
      ghost var s := state;
      InstallSteps(Fields(loc, ver, csr, giants, giantDb, jobs), tails, deltas.chains, s, promised, p);
      jobs := jobs[p := jobs[p].(phase := Forwarding)];
      state := DoInstall(s, p);
    }

    /** Take the records that reached the old page before the forwarder was installed. */
    method FetchStrays(p: PageNo)
      requires Valid() && p in jobs && jobs[p].phase == Forwarding
      modifies this`jobs, this`state, deltas
      ensures Valid() && Stepped(old(state), FetchStray(p), state)
      ensures p in jobs && jobs == old(jobs)[p := Advanced(old(jobs)[p], Draining, jobs[p].stray)]
    {
      hide Rep, Inv, Stepped, DeltaStore.Valid, Recs;
      ghost var s := state;
      RepPage(Fields(loc, ver, csr, giants, giantDb, jobs), tails, deltas.chains, s, p);
      var records := deltas.FetchDeltasWithMark(p);
      RepAdvance(Fields(loc, ver, csr, giants, giantDb, jobs), tails, deltas.chains, s, p, Draining, records, s.log[p := []]);
      WorkerSteps(s, promised, FetchStray(p));
      assert p in s.log && Recs(records) == Log(s, p);
      jobs := jobs[p := jobs[p].(phase := Draining, stray := records)];
      state := DoFetchStray(s, p);
    }

    /** Take the oldest waiting record off the list of strays. */
    method PopStray(p: PageNo)
      requires Wired() && p in jobs && jobs[p].phase == Draining && jobs[p].stray != []
      modifies this`jobs, this`state
      ensures Wired() && p in old(state).smo && old(state).smo[p].stray != []
      ensures var c := old(state).smo[p];
        state == old(state).(smo := old(state).smo[p := c.(phase := Draining, stray := c.stray[1..])],
                             log := old(state).log)
      ensures jobs == old(jobs)[p := Advanced(old(jobs)[p], Draining, old(jobs)[p].stray[1..])]
    {
      hide Rep, DeltaStore.Valid, Recs;
      ghost var f, s := Fields(loc, ver, csr, giants, giantDb, jobs), state;
      RepStray(f, tails, deltas.chains, s, p);
      RepAdvance(f, tails, deltas.chains, s, p, Draining, jobs[p].stray[1..], s.log);
      jobs := jobs[p := jobs[p].(stray := jobs[p].stray[1..])];
      state := s.(smo := s.smo[p := s.smo[p].(phase := Draining, stray := s.smo[p].stray[1..])], log := s.log);
    }

    /** Re-insert the oldest stray at the head of its chain, on its new page. */
    method DrainStray(p: PageNo)
      requires Valid() && p in jobs && jobs[p].phase == Draining && jobs[p].stray != []
      modifies this`jobs, this`tails, this`state, deltas
      ensures Valid() && Stepped(old(state), Drain(p), state) && jobs.Keys == old(jobs).Keys
      ensures p in jobs && jobs[p].stray == old(jobs)[p].stray[1..]
      ensures jobs[p].phase == Draining && jobs[p].forward == old(jobs)[p].forward && jobs[p].done == old(jobs)[p].done
    {
      hide Wired, Inv, Stepped, CanDrain, DoDrain, Append, NoteTail;
      ghost var s := state;
      DrainReadyHere(p);
      DrainSteps(s, promised, p);
      DrainIs(s, p);
      var r := jobs[p].stray[0];
      var forward := jobs[p].forward;
      PopStray(p);
      var l := AppendRecord(r.first, OpOf(r), forward[r.first]);
      NoteRerouted(p, r.first, l, Top(s, r.first));
    }

    lemma DrainReadyHere(p: PageNo)
      requires Valid() && p in jobs && jobs[p].phase == Draining && jobs[p].stray != []
      ensures p in state.smo && state.smo[p].phase == Draining && state.smo[p].target == jobs[p].forward
      ensures state.smo[p].stray != [] && state.smo[p].stray[0] == RecOf(jobs[p].stray[0])
      ensures jobs[p].stray[0].first in jobs[p].forward
    {
      hide Rep, Inv, Recs, DeltaStore.Valid, CanDrain;
      RepPage(Fields(loc, ver, csr, giants, giantDb, jobs), tails, deltas.chains, state, p);
      RepStray(Fields(loc, ver, csr, giants, giantDb, jobs), tails, deltas.chains, state, p);
      StrayPlaced(state, promised, p);
    }

    /** Cut the chain at the boundary record, or drop it if no record was rerouted. */
    method CutChain(p: PageNo, w: Vid, ghost k: nat)
      requires deltas.Valid() && p in jobs && w in deltas.heads && w in deltas.chains && w in deltas.chain
      requires k <= |deltas.chains[w]| == |deltas.chain[w]|
      requires if w in jobs[p].boundary then k < |deltas.chains[w]| && deltas.chains[w][k] == jobs[p].boundary[w]
               else k == |deltas.chains[w]|
      modifies deltas
      ensures deltas.Valid() && deltas.log == old(deltas.log)
      ensures deltas.chain == old(deltas.chain)[w := old(deltas.chain)[w][k..]]
      ensures deltas.chains == old(deltas.chains)[w := old(deltas.chains)[w][k..]]
    {
      hide DeltaStore.Valid;
      if w in jobs[p].boundary {
        deltas.TruncateChainAt(w, jobs[p].boundary[w], k);
      } else {
        assert deltas.chains[w][k..] == [] && deltas.chain[w][k..] == [];
        deltas.DropChainOf(w);
      }
    }

    /** Switch one vertex under its latch: cut the chain at the boundary record, or drop
     *  it if no record was rerouted, set the vertex type, and publish the new location.
     *  The version to be replaced is still the expected one, so nothing is thrown. */
    method SwitchVertex(p: PageNo, w: Vid)
      requires Valid() && p in jobs && jobs[p].phase == Draining && jobs[p].stray == []
      requires w in jobs[p].forward && w !in jobs[p].done
      modifies this`loc, this`ver, this`giants, this`jobs, this`state, deltas
      ensures Valid() && Stepped(old(state), Switch(p, w), state)
      ensures loc == old(loc)[w := old(jobs[p].forward[w])]
      ensures jobs == old(jobs)[p := SwitchedJob(old(jobs)[p], w)] && w in old(loc) && old(loc)[w] == p
    {
      hide Rep, Inv, Stepped, DoSwitch, SwitchedGiants, SwitchedJob, CanSwitch, CountOf, DeltaStore.Valid;
      ghost var s := state;
      ghost var k := SwitchHere(p, w);
      CutChain(p, w, k);
      giants := SwitchedGiants(giants, jobs[p].giants, w);
      assert jobs[p].expected[w] == CountOf(ver, w);
      loc, ver := loc[w := jobs[p].forward[w]], ver[w := CountOf(ver, w) + 1];
      jobs := jobs[p := SwitchedJob(jobs[p], w)];
      state := DoSwitch(s, p, w);
    }

    /** What the switch will find: how much of the chain goes, and that the version is the
     *  expected one. */
    lemma SwitchHere(p: PageNo, w: Vid) returns (k: nat)
      requires Valid() && p in jobs && jobs[p].phase == Draining && jobs[p].stray == []
      requires w in jobs[p].forward && w !in jobs[p].done
      ensures w in loc && loc[w] == p && w in deltas.heads && w in deltas.chains && w in deltas.chain
      ensures k <= |deltas.chains[w]| == |deltas.chain[w]|
      ensures if w in jobs[p].boundary then k < |deltas.chains[w]| && deltas.chains[w][k] == jobs[p].boundary[w]
              else k == |deltas.chains[w]|
      ensures w in jobs[p].expected && jobs[p].expected[w] == CountOf(ver, w)
      ensures CanSwitch(state, p, w) && Stepped(state, Switch(p, w), DoSwitch(state, p, w))
      ensures var s' := DoSwitch(state, p, w);
        && Inv(s', promised) && s'.log == state.log && s'.bound == state.bound
        && s'.chain == deltas.chain[w := deltas.chain[w][k..]]
        && Rep(Fields(loc[w := jobs[p].forward[w]], ver[w := CountOf(ver, w) + 1], csr,
                      SwitchedGiants(giants, jobs[p].giants, w), giantDb, jobs[p := SwitchedJob(jobs[p], w)]), tails,
               deltas.chains[w := deltas.chains[w][k..]], s')
    {
      hide Rep, Inv, Stepped, DoSwitch, Dropped, CanSwitch, SwitchedGiants, SwitchedJob, DeltaStore.Valid;
      ghost var f, s, chains := Fields(loc, ver, csr, giants, giantDb, jobs), state, deltas.chains;
      SwitchReadyHere(p, w);
      SwitchAt(s, promised, p, w);
      SwitchSteps(s, promised, p, w);
      deltas.Lengths(w);
      DroppedIs(f, tails, chains, s, promised, p, w);
      k := Dropped(s, s.smo[p], w);
      VersionStands(f, tails, chains, s, promised, p, w);
      RepSwitch(f, tails, chains, s, promised, p, w, chains[w][k..]);
    }

    lemma SwitchReadyHere(p: PageNo, w: Vid)
      requires Wired() && p in jobs && jobs[p].phase == Draining && jobs[p].stray == []
      requires w in jobs[p].forward && w !in jobs[p].done
      ensures CanSwitch(state, p, w) && p in tails && state.smo[p] == AbsJob(jobs[p], tails[p])
    {
      hide Rep, Recs, DeltaStore.Valid;
      RepPage(Fields(loc, ver, csr, giants, giantDb, jobs), tails, deltas.chains, state, p);
      RepStray(Fields(loc, ver, csr, giants, giantDb, jobs), tails, deltas.chains, state, p);
    }

    /** Remove the forwarding table and the old page. */
    method Detach(p: PageNo)
      requires Valid() && CanDetach(state, p)
      modifies this`csr, this`jobs, this`tails, this`state
      ensures Valid() && Stepped(old(state), Step.Detach(p), state)
      ensures jobs == old(jobs) - {p}
    {
      hide Rep, Inv, Stepped, CanDetach, DeltaStore.Valid;
      ghost var f, s := Fields(loc, ver, csr, giants, giantDb, jobs), state;
      WorkerSteps(s, promised, Step.Detach(p));
      RepDetach(f, tails, deltas.chains, s, p);
      jobs, tails, csr := jobs - {p}, tails - {p}, csr - {p};
      state := DoDetach(s, p);
    }

    /** Publish the replacement: drain every stray, switch every vertex, detach
     *  (the loops of consolidate_pages and finalize_consolidation). */
    method FinishConsolidation(p: PageNo)
      requires Valid() && p in jobs && jobs[p].phase == Draining && jobs[p].done == {}
      modifies this, deltas
      ensures Valid() && promised == old(promised)
      ensures jobs.Keys == old(jobs).Keys - {p}
      ensures old(jobs)[p].forward.Keys <= old(loc).Keys && loc == old(loc) + old(jobs)[p].forward
    {
      hide Wired, Inv, Stepped;
      ghost var kept := promised;
      var forward := jobs[p].forward;
      while jobs[p].stray != []
        invariant Valid() && promised == kept && loc == old(loc) && jobs.Keys == old(jobs).Keys
        invariant p in jobs && jobs[p].phase == Draining && jobs[p].forward == forward && jobs[p].done == {}
        decreases |jobs[p].stray|
      {
        DrainStray(p);
      }
      var todo := forward.Keys;
      while todo != {}
        invariant Valid() && promised == kept && jobs.Keys == old(jobs).Keys && todo <= forward.Keys
        invariant p in jobs && jobs[p].phase == Draining && jobs[p].forward == forward && jobs[p].stray == []
        invariant jobs[p].done == forward.Keys - todo
        invariant loc.Keys == old(loc).Keys && forward.Keys - todo <= loc.Keys
        invariant forall w :: w in loc ==>
          loc[w] == if w in forward && w !in todo then forward[w] else old(loc)[w]
        decreases todo
      {
        var w :| w in todo;
        SwitchVertex(p, w);
        todo := todo - {w};
      }
      AllSwitched(p);
      Detach(p);
    }

    lemma AllSwitched(p: PageNo)
      requires Wired() && p in jobs && jobs[p].phase == Draining && jobs[p].stray == []
      requires jobs[p].done == jobs[p].forward.Keys
      ensures CanDetach(state, p)
    {
      hide Rep, Recs, DeltaStore.Valid;
      RepPage(Fields(loc, ver, csr, giants, giantDb, jobs), tails, deltas.chains, state, p);
      RepStray(Fields(loc, ver, csr, giants, giantDb, jobs), tails, deltas.chains, state, p);
    }

    lemma MergeReady(p: PageNo, target: map<Vid, PageNo>)
      requires Wired() && p in jobs && jobs[p].phase == Fetched && p in csr && target.Keys == csr[p].Keys
      requires forall v :: v in target ==> target[v] !in csr
      ensures CanMerge(state, p, target)
    {
      hide Rep, DeltaStore.Valid;
      RepPage(Fields(loc, ver, csr, giants, giantDb, jobs), tails, deltas.chains, state, p);
      forall v | v in target ensures target[v] !in state.csr {
        RepPage(Fields(loc, ver, csr, giants, giantDb, jobs), tails, deltas.chains, state, target[v]);
      }
    }

    lemma StillAlone(s: State, p: PageNo, s': State)
      requires Alone(s, p) && Stepped(s, Fetch(p), s')
      ensures Alone(s', p)
    {
      forall r, v
        ensures !Heading(s', r, v, p)
      {
        assert !Heading(s, r, v, p);
      }
    }

    /** One consolidation without interruption: the vertices of the page move to where
     *  the split places them, and what reads return stays what it was.  No vertex may be
     *  on its way to the page. */
    method ConsolidatePages(p: PageNo, target: map<Vid, PageNo>) returns (done: bool)
      requires Valid() && p in csr && Alone(state, p) && target.Keys == csr[p].Keys
      requires forall v :: v in target ==> target[v] !in csr
      modifies this, deltas
      ensures Valid() && promised == old(promised)
      ensures done <==> p !in old(jobs) && Log(old(state), p) != []
      ensures done ==> loc == old(loc) + target && jobs.Keys == old(jobs).Keys
      ensures !done ==> state == old(state)
    {
      hide Wired, Inv, Stepped, CanMerge, Alone, Log;
      ghost var s := state;
      done := BeginConsolidation(p);
      if done {
        StillAlone(s, p, state);
        MergeReady(p, target);
        BuildReplacement(p, target);
        InstallForwarder(p);
        FetchStrays(p);
        FinishConsolidation(p);
      }
    }

    /** Vertices that do not exist are refused. */
    method InsertEdge(src: Vid, dst: Vid) returns (ok: bool)
      requires Valid()
      modifies this`jobs, this`tails, this`state, this`promised, deltas
      ensures Valid() && (ok <==> src in loc && dst in loc)
      ensures ok ==> Stepped(old(state), Write(src, Op(dst, Insert)), state)
      ensures ok ==> promised == Promise(old(state), old(promised), Write(src, Op(dst, Insert)))
      ensures ok && Ordered(old(state), Write(src, Op(dst, Insert))) ==>
        src in old(promised) && promised == old(promised)[src := old(promised)[src] + {dst}]
      ensures !ok ==> state == old(state) && promised == old(promised)
    {
      hide Wired, Inv, Stepped, Promise;
      ok := src in loc && dst in loc;
      if ok {
        WriteEdge(src, Op(dst, Insert));
        WritePromised(old(state), old(promised), src, Op(dst, Insert), state);
      }
    }

    method DeleteEdge(src: Vid, dst: Vid) returns (ok: bool)
      requires Valid()
      modifies this`jobs, this`tails, this`state, this`promised, deltas
      ensures Valid() && (ok <==> src in loc && dst in loc)
      ensures ok ==> Stepped(old(state), Write(src, Op(dst, Delete)), state)
      ensures ok ==> promised == Promise(old(state), old(promised), Write(src, Op(dst, Delete)))
      ensures ok && Ordered(old(state), Write(src, Op(dst, Delete))) ==>
        src in old(promised) && promised == old(promised)[src := old(promised)[src] - {dst}]
      ensures !ok ==> state == old(state) && promised == old(promised)
    {
      hide Wired, Inv, Stepped, Promise;
      ok := src in loc && dst in loc;
      if ok {
        WriteEdge(src, Op(dst, Delete));
        WritePromised(old(state), old(promised), src, Op(dst, Delete), state);
      }
    }
  }
}
