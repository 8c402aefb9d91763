/** Consolidations that compete for a vertex: a page is rebuilt while another
 * consolidation is still moving vertices to it (src/smo.cc, src/vertex_index.cc). */
module ConsolidationRaces {
  import opened Replay
  import opened Consolidation
  import opened ConsolidationRuns
  import opened ConsolidationLimits

  // ---------------------------------------------------------------------------
  // Runs under any schedule

  ghost predicate Feasible(s: State, steps: seq<Step>)
    decreases |steps|
  {
    steps == [] || (Enabled(s, steps[0]) && Feasible(Next(s, steps[0]), steps[1..]))
  }

  ghost function End(s: State, steps: seq<Step>): State
    requires Feasible(s, steps)
    decreases |steps|
  {
    if steps == [] then s else End(Next(s, steps[0]), steps[1..])
  }

  lemma {:induction false} RunsFeasible(s: State, steps: seq<Step>)
    requires Runs(s, steps)
    ensures Feasible(s, steps) && End(s, steps) == After(s, steps)
    decreases |steps|
  {
    if steps != [] {
      RunsFeasible(Next(s, steps[0]), steps[1..]);
    }
  }

  /** A run after which no consolidation is in flight. */
  ghost predicate Settles(s: State, steps: seq<Step>) {
    Feasible(s, steps) && End(s, steps).smo == map[]
  }

  // ---------------------------------------------------------------------------
  // Two workers with the same vertex

  /** The worker of `p` has prepared `v` for version `e`. */
  ghost predicate Holds(s: State, p: PageNo, v: Vid, e: nat) {
    && p in s.smo && s.smo[p].phase != Fetched && v in s.smo[p].target
    && v in s.smo[p].expected && s.smo[p].expected[v] == e && Ver(s, v) >= e
  }

  /** It has not switched it, and cannot any more: that version is gone. */
  ghost predicate TooLate(s: State, p: PageNo, v: Vid, e: nat) {
    Holds(s, p, v, e) && v !in s.smo[p].done && Ver(s, v) > e
  }

  ghost predicate Competing(s: State, p: PageNo, q: PageNo, v: Vid, e: nat) {
    && p != q && Holds(s, p, v, e) && Holds(s, q, v, e)
    && (v in s.smo[p].done ==> TooLate(s, q, v, e))
    && (v in s.smo[q].done ==> TooLate(s, p, v, e))
  }

  /** Does the step publish a version of `v` for the worker of `p`? */
  ghost predicate Publishes(s: State, t: Step, p: PageNo, v: Vid) {
    t == Switch(p, v) && p in s.smo && CasHolds(s, p, v)
  }

  lemma VerStep(s: State, t: Step, v: Vid)
    requires Enabled(s, t)
    ensures Ver(Next(s, t), v) >= Ver(s, v)
    ensures t.Switch? && Publishes(s, t, t.p, v) ==> Ver(Next(s, t), v) == Ver(s, v) + 1
  {
    hide Proj, MergedLists, Giants, NewPage;
  }

  /** What a step leaves of the job of a prepared worker. */
  lemma JobStep(s: State, t: Step, p: PageNo)
    requires Enabled(s, t) && p in s.smo && s.smo[p].phase != Fetched && t != Detach(p)
    ensures p in Next(s, t).smo
    ensures var c, c' := s.smo[p], Next(s, t).smo[p];
      && c'.phase != Fetched && c'.target == c.target && c'.expected == c.expected
      && c'.done == if t.Switch? && t.p == p && CasHolds(s, p, t.w) then c.done + {t.w} else c.done
  {
    hide DoWrite, DoFetch, DoMerge, DoInstall, DoFetchStray, DoDrain, DoSwitch, DoDetach, MergedLists, Giants, Log;
    match t
    case Write(v, op) =>
      WriteFrame(s, v, op);
      WriteSmoFrame(s, v, op, p);
    case Fetch(q) => FetchFrame(s, q, p);
    case Merge(q, target) => MergeFrame(s, q, target, p);
    case Install(q) => InstallFrame(s, q, p);
    case FetchStray(q) => FetchStrayFrame(s, q, p);
    case Drain(q) => DrainFrame(s, q, p);
    case Switch(q, w) => SwitchJob(s, q, w, p);
    case Detach(q) => DetachFrame(s, q, p);
  }

  lemma SwitchJob(s: State, q: PageNo, w: Vid, p: PageNo)
    requires CanSwitch(s, q, w) && p in s.smo
    ensures p in DoSwitch(s, q, w).smo
    ensures DoSwitch(s, q, w).smo[p] ==
      if p != q then s.smo[p]
      else if CasHolds(s, q, w) then s.smo[p].(done := s.smo[p].done + {w})
      else s.smo[p].(phase := Failed)
  {
    hide Dropped;
  }

  /** A prepared worker keeps what it prepared until it detaches its page; it gets `v`
   *  done only by publishing it. */
  lemma HoldsStep(s: State, t: Step, p: PageNo, v: Vid, e: nat)
    requires Enabled(s, t) && Holds(s, p, v, e) && t != Detach(p)
    ensures Holds(Next(s, t), p, v, e)
    ensures v in Next(s, t).smo[p].done <==> v in s.smo[p].done || Publishes(s, t, p, v)
  {
    hide Next, Enabled;
    JobStep(s, t, p);
    VerStep(s, t, v);
  }

  lemma TooLateStep(s: State, t: Step, p: PageNo, v: Vid, e: nat)
    requires Enabled(s, t) && TooLate(s, p, v, e)
    ensures TooLate(Next(s, t), p, v, e)
  {
    hide Next;
    StillThere(s, t, p, v);
    HoldsStep(s, t, p, v, e);
    VerStep(s, t, v);
  }

  /** A page is not detached before all its vertices are switched. */
  lemma StillThere(s: State, t: Step, p: PageNo, v: Vid)
    requires Enabled(s, t) && p in s.smo && v in s.smo[p].target && v !in s.smo[p].done
    ensures t != Detach(p)
  {
  }

  lemma CompetingStep(s: State, t: Step, p: PageNo, q: PageNo, v: Vid, e: nat)
    requires Enabled(s, t) && Competing(s, p, q, v, e)
    ensures Competing(Next(s, t), p, q, v, e) || TooLate(Next(s, t), p, v, e) || TooLate(Next(s, t), q, v, e)
  {
    hide Next, Enabled;
    if v in s.smo[p].done {
      TooLateStep(s, t, q, v, e);
    } else if v in s.smo[q].done {
      TooLateStep(s, t, p, v, e);
    } else {
      StillThere(s, t, p, v);
      StillThere(s, t, q, v);
      HoldsStep(s, t, p, v, e);
      HoldsStep(s, t, q, v, e);
      VerStep(s, t, v);
    }
  }

  lemma {:induction false} TooLateStays(s: State, p: PageNo, v: Vid, e: nat, steps: seq<Step>)
    requires Feasible(s, steps) && TooLate(s, p, v, e)
    ensures TooLate(End(s, steps), p, v, e)
    decreases |steps|
  {
    if steps != [] {
      hide TooLate, Enabled, Next;
      TooLateStep(s, steps[0], p, v, e);
      TooLateStays(Next(s, steps[0]), p, v, e, steps[1..]);
    }
  }

  /** At most one of two workers that prepared the same version of a vertex ever finishes:
   *  the other one does not get past it, whatever the schedule. */
  lemma {:induction false} OneNeverFinishes(s: State, p: PageNo, q: PageNo, v: Vid, e: nat, steps: seq<Step>)
    requires Feasible(s, steps) && Competing(s, p, q, v, e)
    ensures p in End(s, steps).smo || q in End(s, steps).smo
    decreases |steps|
  {
    if steps != [] {
      hide TooLate, Competing, Enabled, Next;
      CompetingStep(s, steps[0], p, q, v, e);
      var s', rest := Next(s, steps[0]), steps[1..];
      if Competing(s', p, q, v, e) {
        OneNeverFinishes(s', p, q, v, e, rest);
      } else if TooLate(s', p, v, e) {
        TooLateStays(s', p, v, e, rest);
        LateIsThere(End(s', rest), p, v, e);
      } else {
        TooLateStays(s', q, v, e, rest);
        LateIsThere(End(s', rest), q, v, e);
      }
    } else {
      CompetingIsThere(s, p, q, v, e);
    }
  }

  lemma LateIsThere(s: State, p: PageNo, v: Vid, e: nat)
    requires TooLate(s, p, v, e)
    ensures p in s.smo
  {
  }

  lemma CompetingIsThere(s: State, p: PageNo, q: PageNo, v: Vid, e: nat)
    requires Competing(s, p, q, v, e)
    ensures p in s.smo && q in s.smo
  {
  }

  /** Preparing the replacement of `q` with `v` still on its way there. */
  lemma MergeCompetes(s: State, p: PageNo, v: Vid, q: PageNo, target: map<Vid, PageNo>)
    requires SmosOk(s) && CanMerge(s, q, target) && Heading(s, p, v, q)
    ensures Competing(DoMerge(s, q, target), p, q, v, Ver(s, v))
  {
    hide DoMerge, MergedLists, Giants;
    MergeFrame(s, q, target, p);
    assert SmoOk(s, p) && SmoOk(s, q);
    assert TargetOk(s, p, v);
  }

  // ---------------------------------------------------------------------------
  // Everything in flight can be finished

  lemma {:induction false} RunsConcat(s: State, a: seq<Step>, b: seq<Step>)
    requires Runs(s, a) && Runs(After(s, a), b)
    ensures Runs(s, a + b) && After(s, a + b) == After(After(s, a), b)
    decreases |a|
  {
    if a == [] {
      assert a + b == b;
    } else {
      assert (a + b)[1..] == a[1..] + b;
      RunsConcat(Next(s, a[0]), a[1..], b);
    }
  }

  function Rank(phase: Phase): nat {
    match phase
    case Fetched => 4
    case Built => 3
    case Forwarding => 2
    case _ => 1
  }

  /** Pages whose replacement is not prepared yet. */
  function Unprepared(s: State): set<PageNo> {
    set p | p in s.smo && s.smo[p].phase == Fetched
  }

  /** What a step of the worker of `p` brings it nearer to. */
  ghost predicate Nearer(c: Smo, c': Smo) {
    && c'.phase != Fetched && c'.target == c.target
    && (|| Rank(c'.phase) < Rank(c.phase)
        || (c'.phase == c.phase && |c'.stray| < |c.stray|)
        || (c'.phase == c.phase && c'.stray == c.stray && |c'.target.Keys - c'.done| < |c.target.Keys - c.done|))
  }

  lemma SwitchCounts(target: map<Vid, PageNo>, done: set<Vid>, w: Vid)
    requires w in target && w !in done
    ensures |target.Keys - (done + {w})| < |target.Keys - done|
  {
    assert target.Keys - done == (target.Keys - (done + {w})) + {w};
  }

  lemma WorkerAdvances(s: State, p: PageNo)
    requires Shape(s) && p in s.smo && s.smo[p].phase != Fetched
    ensures var t := WorkerStep(s, p);
      && Enabled(s, t) && Ordered(s, t)
      && (t != Detach(p) ==> var s' := Next(s, t); s'.smo.Keys == s.smo.Keys && Nearer(s.smo[p], s'.smo[p]))
      && (t == Detach(p) ==> Next(s, t).smo.Keys == s.smo.Keys - {p})
      && (forall r :: r in s.smo && r != p ==> r in Next(s, t).smo && Next(s, t).smo[r] == s.smo[r])
  {
    hide Shape;
    WorkerNeverStuck(s, p);
    forall r | r in s.smo && r != p
      ensures r in Next(s, WorkerStep(s, p)).smo && Next(s, WorkerStep(s, p)).smo[r] == s.smo[r]
    {
      OtherJobs(s, WorkerStep(s, p), p, r);
    }
    OwnJob(s, WorkerStep(s, p), p);
  }

  lemma OtherJobs(s: State, t: Step, p: PageNo, r: PageNo)
    requires Enabled(s, t) && ByWorker(t, p) && r in s.smo && r != p
    ensures r in Next(s, t).smo && Next(s, t).smo[r] == s.smo[r]
  {
    hide DoInstall, DoFetchStray, DoDrain, DoSwitch, DoDetach, Log;
    match t
    case Install(q) => InstallFrame(s, q, r);
    case FetchStray(q) => FetchStrayFrame(s, q, r);
    case Drain(q) => DrainFrame(s, q, r);
    case Switch(q, w) => SwitchJob(s, q, w, r);
    case Detach(q) => DetachFrame(s, q, r);
  }

  lemma OwnJob(s: State, t: Step, p: PageNo)
    requires p in s.smo && s.smo[p].phase != Fetched && t == WorkerStep(s, p) && Enabled(s, t)
    requires forall w :: CanSwitch(s, p, w) ==> CasHolds(s, p, w)
    ensures Ordered(s, t)
    ensures t != Detach(p) ==> Next(s, t).smo.Keys == s.smo.Keys && Nearer(s.smo[p], Next(s, t).smo[p])
    ensures t == Detach(p) ==> Next(s, t).smo.Keys == s.smo.Keys - {p}
  {
    hide DoInstall, DoFetchStray, DoDrain, DoSwitch, Log;
    match t
    case Install(_) => InstallFrame(s, p, p);
    case FetchStray(_) => FetchStrayFrame(s, p, p);
    case Drain(_) => DrainFrame(s, p, p);
    case Switch(_, w) =>
      SwitchJob(s, p, w, p);
      SwitchFrame(s, p, w, p);
      SwitchCounts(s.smo[p].target, s.smo[p].done, w);
    case Detach(_) =>
  }

  lemma {:induction false} Finish(s: State, truth: Truth, p: PageNo) returns (steps: seq<Step>)
    requires Inv(s, truth) && p in s.smo && s.smo[p].phase != Fetched
    ensures Runs(s, steps) && After(s, steps).smo.Keys == s.smo.Keys - {p}
    ensures forall r :: r in s.smo && r != p ==> After(s, steps).smo[r] == s.smo[r]
    ensures Inv(After(s, steps), truth)
    decreases Rank(s.smo[p].phase), |s.smo[p].stray|, |s.smo[p].target.Keys - s.smo[p].done|
  {
    hide Shape, ViewsOk, Enabled, Ordered, Next, WorkerStep;
    var t := WorkerStep(s, p);
    WorkerAdvances(s, p);
    StepKeeps(s, truth, t);
    WorkerWritesNothing(s, truth, p);
    var s' := Next(s, t);
    if t == Detach(p) {
      steps := [t];
      assert [t][1..] == [];
    } else {
      var rest := Finish(s', truth, p);
      steps := [t] + rest;
      assert steps[1..] == rest;
    }
  }

  lemma WorkerWritesNothing(s: State, truth: Truth, p: PageNo)
    requires p in s.smo
    ensures NextTruth(truth, WorkerStep(s, p)) == truth
  {
  }

  /** A page number not in use. */
  lemma {:induction false} FreshPage(used: set<PageNo>) returns (q: PageNo)
    ensures forall p :: p in used ==> p < q
  {
    if used == {} {
      q := 0;
    } else {
      var p :| p in used;
      q := FreshPage(used - {p});
      if p >= q {
        q := p + 1;
      }
      assert forall r :: r in used ==> r == p || r in used - {p};
    }
  }

  lemma UnpreparedDrops(s: State, s': State, p: PageNo)
    requires p in s.smo && s'.smo.Keys == s.smo.Keys && s.smo[p].phase == Fetched && s'.smo[p].phase != Fetched
    requires forall r :: r in s.smo && r != p ==> s'.smo[r] == s.smo[r]
    ensures |Unprepared(s')| < |Unprepared(s)|
  {
    forall r
      ensures r in Unprepared(s) <==> r in Unprepared(s') + {p}
    {
      if r in s.smo && r != p {
        assert s'.smo[r] == s.smo[r];
      }
    }
    assert Unprepared(s) == Unprepared(s') + {p};
  }

  lemma UnpreparedStays(s: State, s': State, p: PageNo)
    requires p in s.smo && s'.smo.Keys == s.smo.Keys - {p} && s.smo[p].phase != Fetched
    requires forall r :: r in s.smo && r != p ==> s'.smo[r] == s.smo[r]
    ensures Unprepared(s') == Unprepared(s) && |s'.smo.Keys| < |s.smo.Keys|
  {
    assert s.smo.Keys == s'.smo.Keys + {p};
    forall r
      ensures r in Unprepared(s') <==> r in Unprepared(s)
    {
      if r in s.smo && r != p {
        assert s'.smo[r] == s.smo[r];
      }
    }
  }

  /** With every consolidation still to be prepared, none has a destination. */
  lemma AllAlone(s: State, q: PageNo)
    requires SmosOk(s) && forall p :: p in s.smo ==> s.smo[p].phase == Fetched
    ensures Alone(s, q)
  {
    forall p, v
      ensures !Heading(s, p, v, q)
    {
      if p in s.smo {
        assert SmoOk(s, p);
      }
    }
  }

  /** Preparing the replacement of one page, on a fresh page. */
  lemma PrepareOne(s: State, truth: Truth, p: PageNo) returns (t: Step)
    requires Inv(s, truth) && p in s.smo && forall r :: r in s.smo ==> s.smo[r].phase == Fetched
    ensures Enabled(s, t) && Ordered(s, t) && Inv(Next(s, t), truth)
    ensures Next(s, t).smo.Keys == s.smo.Keys && |Unprepared(Next(s, t))| < |Unprepared(s)|
  {
    hide LocOk, AllPlaced, LogOk, ViewsOk, DoMerge, MergedLists, Giants;
    var q := FreshPage(s.csr.Keys);
    assert p in s.csr;
    var target := map v | v in s.csr[p] :: q;
    t := Merge(p, target);
    AllAlone(s, p);
    assert CanMerge(s, p, target);
    StepKeeps(s, truth, t);
    var s' := DoMerge(s, p, target);
    MergeFrame(s, p, target, p);
    forall r | r in s.smo && r != p ensures s'.smo[r] == s.smo[r] {
      MergeFrame(s, p, target, r);
    }
    UnpreparedDrops(s, s', p);
  }

  /** From every state of an ordered run, all consolidations in flight can be completed
   *  within the schedule. */
  lemma {:induction false} FinishAll(s: State, truth: Truth) returns (steps: seq<Step>)
    requires Inv(s, truth)
    ensures Runs(s, steps) && After(s, steps).smo == map[]
    decreases |s.smo.Keys| + |Unprepared(s)|
  {
    hide Inv, Enabled, Ordered, Next, Unprepared;
    if s.smo == map[] {
      steps := [];
    } else if p :| p in s.smo && s.smo[p].phase != Fetched {
      var first := Finish(s, truth, p);
      UnpreparedStays(s, After(s, first), p);
      var rest := FinishAll(After(s, first), truth);
      RunsConcat(s, first, rest);
      steps := first + rest;
    } else {
      var p :| p in s.smo;
      var t := PrepareOne(s, truth, p);
      var rest := FinishAll(Next(s, t), truth);
      steps := [t] + rest;
      assert steps[1..] == rest;
    }
  }

  /** The schedule condition on preparing a replacement is exact.  If no vertex is on its
   *  way to the page, all consolidations in flight can be completed, and no worker of an
   *  ordered run ever throws; if one is, no run whatever completes all of them. */
  lemma PrepareIsHarmless(s: State, truth: Truth, q: PageNo, target: map<Vid, PageNo>)
    requires Inv(s, truth) && CanMerge(s, q, target)
    ensures (exists steps :: Settles(DoMerge(s, q, target), steps)) <==> Alone(s, q)
  {
    var s' := DoMerge(s, q, target);
    if Alone(s, q) {
      PreparedSettles(s, truth, q, target);
    } else {
      var p, v :| Heading(s, p, v, q);
      forall steps
        ensures !Settles(s', steps)
      {
        PreparedClashes(s, p, v, q, target, steps);
      }
    }
  }

  lemma PreparedSettles(s: State, truth: Truth, q: PageNo, target: map<Vid, PageNo>)
    requires Inv(s, truth) && CanMerge(s, q, target) && Alone(s, q)
    ensures exists steps :: Settles(DoMerge(s, q, target), steps)
  {
    hide Inv, CanMerge, Alone, DoMerge;
    MergeKeeps(s, truth, q, target);
    var steps := FinishAll(DoMerge(s, q, target), truth);
    RunsFeasible(DoMerge(s, q, target), steps);
    assert Settles(DoMerge(s, q, target), steps);
  }

  lemma PreparedClashes(s: State, p: PageNo, v: Vid, q: PageNo, target: map<Vid, PageNo>, steps: seq<Step>)
    requires SmosOk(s) && CanMerge(s, q, target) && Heading(s, p, v, q)
    ensures !Settles(DoMerge(s, q, target), steps)
  {
    hide SmosOk, DoMerge, Competing;
    if Feasible(DoMerge(s, q, target), steps) {
      MergeCompetes(s, p, v, q, target);
      OneNeverFinishes(DoMerge(s, q, target), p, q, v, Ver(s, v), steps);
    }
  }

  // ---------------------------------------------------------------------------
  // A run that loses a write
  //
  // Vertices 0 and 1 are moved from page 0 to page 1.  Vertex 1 is written meanwhile, so
  // page 1 has a record; once vertex 0 is switched, page 1 is consolidated before vertex 1
  // is.

  const TO_ONE: map<Vid, PageNo> := map[0 := 1, 1 := 1]
  const TO_TWO: map<Vid, PageNo> := map[0 := 2, 1 := 2]
  const Ins05 := Rec(0, Op(5, Insert))
  const Ins16 := Rec(1, Op(6, Insert))

  const Pair := State(map[0 := 0, 1 := 0], map[], map[0 := map[0 := {}, 1 := {}]], {}, map[],
                      map[0 := [], 1 := []], map[], map[], map[], 128)

  const Both1 := Smo(Built, [Ins05], map[0 := {5}, 1 := {}], TO_ONE, {}, [], map[], map[0 := 0, 1 := 0], {})
  const Both2 := Smo(Built, [Ins16], map[0 := {5}, 1 := {6}], TO_TWO, {}, [], map[], map[0 := 1, 1 := 0], {})

  const Pages1: map<PageNo, map<Vid, set<Vid>>> := map[0 := map[0 := {}, 1 := {}], 1 := map[0 := {5}, 1 := {}]]
  const Pages2 := Pages1[2 := map[0 := {5}, 1 := {6}]]

  const Taken1 := Pair.(chain := map[0 := [Ins05.op], 1 := []], log := map[0 := []], smo := map[0 := Began([Ins05])])
  const Drained1 := Taken1.(csr := Pages1, smo := map[0 := Both1.(phase := Draining)])
  const Moved0 := Drained1.(
    loc := map[0 := 1, 1 := 0], ver := map[0 := 1], chain := map[0 := [], 1 := [Ins16.op]], cut := map[0 := 1],
    log := map[0 := [], 1 := [Ins16]],
    smo := map[0 := Both1.(phase := Draining, tail := map[1 := 0], done := {0})])
  const Taken2 := Moved0.(log := map[0 := [], 1 := []], smo := Moved0.smo[1 := Began([Ins16])])
  const Drained2 := Taken2.(csr := Pages2, smo := Moved0.smo[1 := Both2.(phase := Draining)])
  const Moved1 := Drained2.(
    loc := map[0 := 1, 1 := 1], ver := map[0 := 1, 1 := 1], cut := map[0 := 1, 1 := 0],
    smo := map[0 := Both1.(phase := Draining, tail := map[1 := 0], done := {0, 1}),
               1 := Both2.(phase := Draining)])
  const Clashed := Moved1.(
    chain := map[0 := [], 1 := []], cut := map[0 := 1, 1 := 1],
    smo := Moved1.smo[1 := Both2.(phase := Failed)])

  ghost predicate Leads(s: State, t: Step, s': State) {
    Enabled(s, t) && Next(s, t) == s'
  }

  lemma OneRecord(r: Rec, v: Vid)
    ensures Proj([r], v) == if r.src == v then [r.op] else []
    ensures Run({}, [r.op]) == if r.op.kind == Insert then {r.op.dst} else {}
  {
    ProjOfOne(r, v);
    assert [r.op][..0] == [];
  }

  lemma SameState(a: State, b: State)
    requires a.loc == b.loc && a.ver == b.ver && a.csr == b.csr && a.giant == b.giant && a.giantList == b.giantList
    requires a.chain == b.chain && a.cut == b.cut && a.log == b.log && a.bound == b.bound
    requires a.smo == b.smo
    ensures a == b
  {
  }

  const Written1 := Pair.(chain := map[0 := [Ins05.op], 1 := []], log := map[0 := [Ins05]])

  lemma FirstWritten()
    ensures Leads(Pair, Write(0, Ins05.op), Written1)
  {
    assert [] + [Ins05.op] == [Ins05.op] && [] + [Ins05] == [Ins05];
    SameState(DoWrite(Pair, 0, Ins05.op), Written1);
  }

  lemma FirstTaken()
    ensures Leads(Written1, Fetch(0), Taken1)
  {
    SameState(DoFetch(Written1, 0), Taken1);
  }

  const Built1 := Taken1.(csr := Pages1, smo := map[0 := Both1])

  /** The merge of one inserted edge into small lists. */
  lemma OneMerged(s: State, p: PageNo, r: Rec)
    requires p in s.smo && p in s.csr && s.smo[p].fetched == [r]
    requires s.giant == {} && r.op.kind == Insert && r.src in s.csr[p]
    ensures MergedLists(s, p) == s.csr[p][r.src := s.csr[p][r.src] + {r.op.dst}]
  {
    forall v | v in s.csr[p]
      ensures MergedLists(s, p)[v] == if v == r.src then s.csr[p][v] + {r.op.dst} else s.csr[p][v]
    {
      ProjOfOne(r, v);
      if v == r.src {
        RunSnoc(s.csr[p][v], [], r.op);
        assert [] + [r.op] == [r.op];
      }
    }
  }

  lemma NoGiants(s: State, merged: map<Vid, set<Vid>>)
    requires s.giant == {} && forall v :: v in merged ==> |merged[v]| < s.bound
    ensures Giants(s, merged) == {}
  {
  }

  lemma FirstMerged()
    ensures MergedLists(Taken1, 0) == map[0 := {5}, 1 := {}] && Giants(Taken1, map[0 := {5}, 1 := {}]) == {}
  {
    hide MergedLists, Giants;
    OneMerged(Taken1, 0, Ins05);
    assert {} + {5} == {5};
    NoGiants(Taken1, map[0 := {5}, 1 := {}]);
  }

  /** A merge of small lists to one new page. */
  lemma PlainMerge(s: State, p: PageNo, target: map<Vid, PageNo>, q: PageNo, merged: map<Vid, set<Vid>>)
    requires CanMerge(s, p, target) && merged == MergedLists(s, p) && Giants(s, merged) == {}
    requires 0 in target && forall v :: v in target ==> target[v] == q
    ensures DoMerge(s, p, target)
         == s.(smo := s.smo[p := Prepare(s.smo[p], merged, target, {}, Expected(s, target))], csr := s.csr[q := merged])
  {
    hide MergedLists, Giants, Expected, Prepare;
    assert target.Values == {q} by {
      assert target[0] == q;
    }
    assert NewPage(merged, {}, target, q) == merged;
    var s' := DoMerge(s, p, target);
    assert s'.giantList == s.giantList;
    assert s'.csr == s.csr[q := merged];
  }

  lemma FirstBuilt()
    ensures Leads(Taken1, Merge(0, TO_ONE), Built1)
  {
    hide MergedLists, Giants, DoMerge;
    FirstMerged();
    PlainMerge(Taken1, 0, TO_ONE, 1, map[0 := {5}, 1 := {}]);
    assert Expected(Taken1, TO_ONE) == map[0 := 0, 1 := 0];
    SameState(DoMerge(Taken1, 0, TO_ONE), Built1);
  }

  const Forwarding1 := Built1.(smo := map[0 := Both1.(phase := Forwarding)])

  lemma Installed(s: State, p: PageNo)
    requires p in s.smo && s.smo[p].phase == Built
    ensures Leads(s, Install(p), s.(smo := s.smo[p := s.smo[p].(phase := Forwarding)]))
  {
  }

  lemma FirstForwarding()
    ensures Leads(Built1, Install(0), Forwarding1)
  {
    hide Leads;
    Installed(Built1, 0);
    assert Built1.smo[0 := Both1.(phase := Forwarding)] == Forwarding1.smo;
  }

  /** Nothing has been written to the page since its records were taken. */
  lemma NoStrays(s: State, p: PageNo)
    requires p in s.smo && s.smo[p].phase == Forwarding && s.smo[p].stray == [] && p in s.log && s.log[p] == []
    ensures Leads(s, FetchStray(p), s.(smo := s.smo[p := s.smo[p].(phase := Draining)]))
  {
    assert s.log[p := []] == s.log;
  }

  lemma FirstDrained()
    ensures Leads(Forwarding1, FetchStray(0), Drained1)
  {
    hide Leads;
    NoStrays(Forwarding1, 0);
    assert Forwarding1.smo[0 := Both1.(phase := Draining)] == Drained1.smo;
  }

  const Rerouted1 := Drained1.(
    chain := map[0 := [Ins05.op], 1 := [Ins16.op]], log := map[0 := [], 1 := [Ins16]],
    smo := map[0 := Both1.(phase := Draining, tail := map[1 := 0])])

  lemma SecondWritten()
    ensures Leads(Drained1, Write(1, Ins16.op), Rerouted1)
  {
    assert [] + [Ins16.op] == [Ins16.op] && [] + [Ins16] == [Ins16];
    SameState(DoWrite(Drained1, 1, Ins16.op), Rerouted1);
  }

  /** A switch of a vertex without a rerouted record. */
  lemma SwitchDropsAll(s: State, p: PageNo, w: Vid)
    requires CanSwitch(s, p, w) && CasHolds(s, p, w) && s.giant == {} && s.smo[p].giants == {}
    requires w !in s.smo[p].tail
    ensures Leads(s, Switch(p, w),
                  s.(loc := s.loc[w := s.smo[p].target[w]], ver := s.ver[w := Ver(s, w) + 1],
                     chain := s.chain[w := []], cut := s.cut[w := Cut(s, w) + |Chain(s, w)|],
                     smo := s.smo[p := s.smo[p].(done := s.smo[p].done + {w})]))
  {
    assert Chain(s, w)[|Chain(s, w)|..] == [] && s.giant - {w} == s.giant;
  }

  lemma FirstMovable()
    ensures CanSwitch(Rerouted1, 0, 0) && CasHolds(Rerouted1, 0, 0) && Ver(Rerouted1, 0) == 0
    ensures Cut(Rerouted1, 0) == 0 && |Chain(Rerouted1, 0)| == 1
    ensures Rerouted1.smo[0] == Both1.(phase := Draining, tail := map[1 := 0])
  {
  }

  lemma FirstMoved()
    ensures Leads(Rerouted1, Switch(0, 0), Moved0)
  {
    hide Leads, CanSwitch, CasHolds, Ver, Cut, Chain;
    FirstMovable();
    SwitchDropsAll(Rerouted1, 0, 0);
    assert {} + {0} == {0};
    assert Rerouted1.smo[0 := Both1.(phase := Draining, tail := map[1 := 0], done := {0})] == Moved0.smo;
    assert Rerouted1.chain[0 := []] == Moved0.chain && Rerouted1.loc[0 := 1] == Moved0.loc;
    assert Rerouted1.ver[0 := 1] == Moved0.ver && Rerouted1.cut[0 := 1] == Moved0.cut;
  }

  lemma SecondTaken()
    ensures Leads(Moved0, Fetch(1), Taken2)
  {
    SameState(DoFetch(Moved0, 1), Taken2);
  }

  const Built2 := Taken2.(csr := Pages2, smo := Moved0.smo[1 := Both2])

  lemma SecondMerged()
    ensures MergedLists(Taken2, 1) == map[0 := {5}, 1 := {6}]
    ensures Giants(Taken2, map[0 := {5}, 1 := {6}]) == {}
  {
    hide MergedLists, Giants;
    OneMerged(Taken2, 1, Ins16);
    assert {} + {6} == {6};
    NoGiants(Taken2, map[0 := {5}, 1 := {6}]);
  }

  lemma SecondReady()
    ensures CanMerge(Taken2, 1, TO_TWO)
  {
  }

  lemma SecondUnordered()
    ensures !Ordered(Taken2, Merge(1, TO_TWO))
  {
    assert Heading(Taken2, 0, 1, 1);
  }

  lemma Overwrite(smo: map<PageNo, Smo>, p: PageNo, a: Smo, b: Smo)
    ensures smo[p := a][p := b] == smo[p := b]
  {
  }

  lemma SecondExpected()
    ensures Expected(Taken2, TO_TWO) == map[0 := 1, 1 := 0]
  {
  }

  lemma SecondPrepared()
    ensures Taken2.smo[1 := Prepare(Taken2.smo[1], map[0 := {5}, 1 := {6}], TO_TWO, {}, map[0 := 1, 1 := 0])]
         == Built2.smo
  {
    var c := Prepare(Began([Ins16]), map[0 := {5}, 1 := {6}], TO_TWO, {}, map[0 := 1, 1 := 0]);
    assert c == Both2;
    Overwrite(Moved0.smo, 1, Began([Ins16]), c);
  }

  lemma SecondBuilt()
    ensures Leads(Taken2, Merge(1, TO_TWO), Built2)
  {
    hide MergedLists, Giants, DoMerge, CanMerge, Prepare, Expected;
    SecondReady();
    SecondMerged();
    SecondExpected();
    PlainMerge(Taken2, 1, TO_TWO, 2, map[0 := {5}, 1 := {6}]);
    SecondPrepared();
  }

  const Forwarding2 := Built2.(smo := Moved0.smo[1 := Both2.(phase := Forwarding)])

  lemma SecondForwarding()
    ensures Leads(Built2, Install(1), Forwarding2)
  {
    hide Leads;
    Installed(Built2, 1);
    Overwrite(Moved0.smo, 1, Both2, Both2.(phase := Forwarding));
  }

  lemma SecondDrained()
    ensures Leads(Forwarding2, FetchStray(1), Drained2)
  {
    hide Leads;
    NoStrays(Forwarding2, 1);
    Overwrite(Moved0.smo, 1, Both2.(phase := Forwarding), Both2.(phase := Draining));
  }

  /** A switch that drops no record, as the first one was rerouted. */
  lemma SwitchKeepsAll(s: State, p: PageNo, w: Vid)
    requires CanSwitch(s, p, w) && CasHolds(s, p, w) && w in s.chain && s.giant == {} && s.smo[p].giants == {}
    requires w in s.smo[p].tail && s.smo[p].tail[w] == Cut(s, w)
    ensures Leads(s, Switch(p, w),
                  s.(loc := s.loc[w := s.smo[p].target[w]], ver := s.ver[w := Ver(s, w) + 1],
                     cut := s.cut[w := Cut(s, w)], smo := s.smo[p := s.smo[p].(done := s.smo[p].done + {w})]))
  {
    assert Chain(s, w)[0..] == s.chain[w];
    assert s.chain[w := s.chain[w]] == s.chain && s.giant - {w} == s.giant;
  }

  lemma SecondMovable()
    ensures CanSwitch(Drained2, 0, 1) && CasHolds(Drained2, 0, 1) && Ver(Drained2, 1) == 0 && Cut(Drained2, 1) == 0
    ensures Drained2.smo[0] == Both1.(phase := Draining, tail := map[1 := 0], done := {0})
  {
  }

  lemma SecondMoved()
    ensures Leads(Drained2, Switch(0, 1), Moved1)
  {
    hide Leads, CanSwitch, CasHolds, Ver, Cut;
    SecondMovable();
    SwitchKeepsAll(Drained2, 0, 1);
    assert {0} + {1} == {0, 1};
    assert Drained2.smo[0 := Both1.(phase := Draining, tail := map[1 := 0], done := {0, 1})] == Moved1.smo;
    assert Drained2.loc[1 := 1] == Moved1.loc && Drained2.ver[1 := 1] == Moved1.ver && Drained2.cut[1 := 0] == Moved1.cut;
  }

  lemma ClashReady()
    ensures CanSwitch(Moved1, 1, 1) && !CasHolds(Moved1, 1, 1) && Moved1.smo[1] == Both2.(phase := Draining)
  {
  }

  lemma SecondClashes()
    ensures Leads(Moved1, Switch(1, 1), Clashed) && !CasHolds(Moved1, 1, 1)
  {
    hide DoSwitch, CanSwitch, CasHolds;
    ClashReady();
    ClashDrops(Moved1, 1, 1);
    assert Chain(Moved1, 1) == [Ins16.op] && Cut(Moved1, 1) == 0;
    assert Moved1.chain[1 := []] == Clashed.chain && Moved1.cut[1 := 1] == Clashed.cut && Moved1.giant - {1} == {};
  }

  /** A failed switch of a vertex without a rerouted record drops its chain all the same. */
  lemma ClashDrops(s: State, p: PageNo, w: Vid)
    requires CanSwitch(s, p, w) && !CasHolds(s, p, w) && w !in s.smo[p].tail && w !in s.smo[p].giants
    ensures DoSwitch(s, p, w)
         == s.(chain := s.chain[w := []], cut := s.cut[w := Cut(s, w) + |Chain(s, w)|], giant := s.giant - {w},
               smo := s.smo[p := s.smo[p].(phase := Failed)])
  {
    assert Chain(s, w)[|Chain(s, w)|..] == [];
  }

  lemma {:induction false} FeasibleSnoc(s: State, steps: seq<Step>, t: Step)
    requires Feasible(s, steps) && Enabled(End(s, steps), t)
    ensures Feasible(s, steps + [t]) && End(s, steps + [t]) == Next(End(s, steps), t)
    decreases |steps|
  {
    if steps == [] {
      assert steps + [t] == [t];
      assert [t][1..] == [];
    } else {
      assert (steps + [t])[1..] == steps[1..] + [t];
      FeasibleSnoc(Next(s, steps[0]), steps[1..], t);
    }
  }

  /** One more step of a run that has got to `at`. */
  lemma Onward(s: State, steps: seq<Step>, at: State, t: Step, to: State) returns (more: seq<Step>)
    requires Feasible(s, steps) && End(s, steps) == at && Leads(at, t, to)
    ensures Feasible(s, more) && End(s, more) == to && more == steps + [t]
  {
    FeasibleSnoc(s, steps, t);
    more := steps + [t];
  }

  lemma ToFirstDrained() returns (steps: seq<Step>)
    ensures Feasible(Pair, steps) && End(Pair, steps) == Drained1
    ensures steps == [Write(0, Ins05.op), Fetch(0), Merge(0, TO_ONE), Install(0), FetchStray(0)]
  {
    hide Leads, Feasible, End, Next;
    Nothing(Pair);
    FirstWritten();
    FirstTaken();
    FirstBuilt();
    FirstForwarding();
    FirstDrained();
    steps := Onward(Pair, [], Pair, Write(0, Ins05.op), Written1);
    steps := Onward(Pair, steps, Written1, Fetch(0), Taken1);
    steps := Onward(Pair, steps, Taken1, Merge(0, TO_ONE), Built1);
    steps := Onward(Pair, steps, Built1, Install(0), Forwarding1);
    steps := Onward(Pair, steps, Forwarding1, FetchStray(0), Drained1);
  }

  lemma Nothing(s: State)
    ensures Feasible(s, []) && End(s, []) == s
  {
  }

  lemma ToSecondTaken() returns (steps: seq<Step>)
    ensures Feasible(Pair, steps) && End(Pair, steps) == Taken2
    ensures steps == [Write(0, Ins05.op), Fetch(0), Merge(0, TO_ONE), Install(0), FetchStray(0),
                      Write(1, Ins16.op), Switch(0, 0), Fetch(1)]
  {
    hide Leads, Feasible, End, Next;
    SecondWritten();
    FirstMoved();
    SecondTaken();
    steps := ToFirstDrained();
    steps := Onward(Pair, steps, Drained1, Write(1, Ins16.op), Rerouted1);
    steps := Onward(Pair, steps, Rerouted1, Switch(0, 0), Moved0);
    steps := Onward(Pair, steps, Moved0, Fetch(1), Taken2);
  }

  lemma ToClash() returns (first: seq<Step>, steps: seq<Step>)
    ensures Feasible(Pair, first) && End(Pair, first) == Taken2
    ensures first == [Write(0, Ins05.op), Fetch(0), Merge(0, TO_ONE), Install(0), FetchStray(0),
                      Write(1, Ins16.op), Switch(0, 0), Fetch(1)]
    ensures Feasible(Pair, steps) && End(Pair, steps) == Clashed
    ensures steps == first + [Merge(1, TO_TWO), Install(1), FetchStray(1), Switch(0, 1), Switch(1, 1)]
  {
    hide Leads, Feasible, End, Next;
    SecondBuilt();
    SecondForwarding();
    SecondDrained();
    SecondMoved();
    SecondClashes();
    first := ToSecondTaken();
    steps := Onward(Pair, first, Taken2, Merge(1, TO_TWO), Built2);
    steps := Onward(Pair, steps, Built2, Install(1), Forwarding2);
    steps := Onward(Pair, steps, Forwarding2, FetchStray(1), Drained2);
    steps := Onward(Pair, steps, Drained2, Switch(0, 1), Moved1);
    steps := Onward(Pair, steps, Moved1, Switch(1, 1), Clashed);
  }

  lemma PairIsInitial()
    ensures Initial(Pair)
  {
  }

  lemma ClashReads()
    ensures Read(Clashed, 1) == {} && Clashed.smo[1].phase == Failed
  {
    assert Chain(Clashed, 1) == [];
  }

  /** A run with a single write to `v`. */
  lemma {:induction false} OneWrite(steps: seq<Step>, i: nat, v: Vid)
    requires i < |steps| && steps[i].Write? && steps[i].v == v
    requires forall j :: 0 <= j < |steps| && j != i ==> !(steps[j].Write? && steps[j].v == v)
    ensures WritesTo(steps, v) == [steps[i].op]
    decreases |steps|
  {
    if i == 0 {
      NoWrites(steps[1..], v);
    } else {
      OneWrite(steps[1..], i - 1, v);
    }
  }

  lemma {:induction false} NoWrites(steps: seq<Step>, v: Vid)
    requires forall i :: 0 <= i < |steps| ==> !(steps[i].Write? && steps[i].v == v)
    ensures WritesTo(steps, v) == []
    decreases |steps|
  {
    if steps != [] {
      NoWrites(steps[1..], v);
    }
  }

  /** The race happens: a run of enabled steps from an initial state that breaks the schedule
   *  once, by preparing a replacement of page 1 while vertex 1 is on its way there.  Its last
   *  step finds the version changed, throws, and has dropped the chain: the record of
   *  vertex 1 is gone, and a read misses the inserted edge. */
  lemma RaceLosesAWrite() returns (steps: seq<Step>)
    ensures Initial(Pair) && Feasible(Pair, steps)
    ensures |steps| == 13 && Feasible(Pair, steps[..8]) && !Ordered(End(Pair, steps[..8]), steps[8])
    ensures var end := End(Pair, steps);
      && 1 in end.smo && end.smo[1].phase == Failed
      && Read(end, 1) == {} && Run(Base(Pair, 1), WritesTo(steps, 1)) == {6}
  {
    hide Leads, Feasible, End, Next, Initial, Ordered, Proj, WritesTo;
    var first;
    first, steps := ToClash();
    assert steps[..8] == first;
    SecondUnordered();
    PairIsInitial();
    ClashReads();
    OneWrite(steps, 5, 1);
    OneRecord(Ins16, 1);
  }
}
