/** Where the consolidation protocol stops being invisible: rerouted writes that
 * contradict a waiting record, and edges in the middle of a drain.  Each condition
 * is exact, and a run that meets it is given. */
module ConsolidationLimits {
  import opened Replay
  import opened Consolidation
  import opened ConsolidationRuns

  // ---------------------------------------------------------------------------
  // A rerouted write that contradicts a waiting record

  lemma ViewWriteLost(w: View, t: set<Vid>, op: Op)
    requires ViewOk(w, t) && w.Moving?
    requires Newest(w.waiting, op.dst).Some? && Newest(w.waiting, op.dst) != Some(op.kind)
    ensures ViewOk(ViewWrite(w, op), t) && Apply(t, op) != t
  {
    var w' := ViewWrite(w, op);
    forall e ensures EdgeOk(w', t, e) {
      assert EdgeOk(w, t, e);
      VisibleSnoc(w.merged, w.moved, op, e);
      VisibleSnoc(w.base, w.chain, op, e);
    }
    assert EdgeOk(w, t, op.dst);
    if op.kind == Insert {
      assert Newest(w.waiting, op.dst).value == Delete;
    } else {
      assert Newest(w.waiting, op.dst).value == Insert;
    }
  }

  /** Such a write is lost: the invariant goes on holding for the edge sets as they
   *  were before it, so every later exact read returns a list without its effect. */
  lemma ContradictingWriteIsLost(s: State, truth: Truth, v: Vid, op: Op)
    requires Inv(s, truth) && v in s.loc && !Ordered(s, Write(v, op))
    ensures Inv(DoWrite(s, v, op), truth)
    ensures NextTruth(truth, Write(v, op))[v] != truth[v]
  {
    WriteShape(s, v, op);
    InvVertex(s, truth, v);
    WriteSelfForwarded(s, v, op);
    ViewWriteLost(ViewOf(s, v), truth[v], op);
    WriteKeys(s, truth, v, op);
    forall u | u in s.loc ensures ViewHolds(DoWrite(s, v, op), truth, u) {
      InvVertex(s, truth, u);
      if u != v {
        WriteViewOther(s, v, op, u);
      }
    }
  }

  /** The schedule hypothesis is exact: a write is honoured by all later settled
   *  reads if and only if it respects it. */
  lemma OrderedIsExact(s: State, truth: Truth, v: Vid, op: Op, steps: seq<Step>)
    requires Inv(s, truth) && v in s.loc
    requires Runs(DoWrite(s, v, op), steps) && WritesTo(steps, v) == []
    requires v in After(DoWrite(s, v, op), steps).loc
    requires forall e :: !MidDrain(After(DoWrite(s, v, op), steps), v, e)
    ensures Read(After(DoWrite(s, v, op), steps), v) == Apply(truth[v], op)
        <==> Ordered(s, Write(v, op))
  {
    hide Shape, ViewHolds, DoWrite, MidDrain, Read, Runs, After;
    var s' := DoWrite(s, v, op);
    var start := if Ordered(s, Write(v, op)) then NextTruth(truth, Write(v, op)) else truth;
    if Ordered(s, Write(v, op)) {
      WriteKeeps(s, truth, v, op);
    } else {
      ContradictingWriteIsLost(s, truth, v, op);
    }
    var end := RunKeeps(s', start, steps);
    InvVertex(After(s', steps), end, v);
    ReadExact(After(s', steps), end, v);
    assert end[v] == start[v];
  }

  // ---------------------------------------------------------------------------
  // Progress: the worker never meets its own error branches

  lemma StrayHasTarget(s: State, p: PageNo)
    requires Shape(s) && p in s.smo && s.smo[p].phase == Draining && s.smo[p].stray != []
    ensures CanDrain(s, p)
  {
    assert SmoOk(s, p);
    assert s.smo[p].stray[0] in s.smo[p].stray;
    ShapeServes(s, s.smo[p].stray[0].src);
  }

  /** The throws of the worker are unreachable in runs that respect the schedule: a stray
   *  always has a place in the replacement pages, and the version of a vertex still to be
   *  switched is the one its replacement was prepared for, so the compare-and-swap
   *  succeeds.  Some step of the worker is always enabled. */
  lemma WorkerNeverStuck(s: State, p: PageNo)
    requires Shape(s) && p in s.smo && s.smo[p].phase != Fetched
    ensures s.smo[p].phase != Failed
    ensures forall w :: CanSwitch(s, p, w) ==> CasHolds(s, p, w) && w in s.loc && s.loc[w] == p
    ensures Enabled(s, WorkerStep(s, p)) && ByWorker(WorkerStep(s, p), p)
  {
    hide LocOk, AllPlaced, LogOk, TargetOk;
    assert SmoOk(s, p);
    if s.smo[p].phase == Draining && s.smo[p].stray != [] {
      StrayHasTarget(s, p);
    }
    forall w | CanSwitch(s, p, w)
      ensures CasHolds(s, p, w) && w in s.loc && s.loc[w] == p
    {
      SwitchReady(s, p, w);
    }
  }

  /** The steps of a worker whose replacement is prepared. */
  predicate ByWorker(t: Step, p: PageNo) {
    match t
    case Install(r) => r == p
    case FetchStray(r) => r == p
    case Drain(r) => r == p
    case Switch(r, _) => r == p
    case Detach(r) => r == p
    case _ => false
  }

  /** What the worker of a page does next once the replacement is prepared. */
  ghost function WorkerStep(s: State, p: PageNo): Step
    requires p in s.smo
  {
    var c := s.smo[p];
    if c.phase == Built then Install(p)
    else if c.phase == Forwarding then FetchStray(p)
    else if c.stray != [] then Drain(p)
    else if c.target.Keys <= c.done then Detach(p)
    else
      var w :| w in c.target && w !in c.done;
      Switch(p, w)
  }

  /** A vertex that is not being moved has exactly the unmerged records of its page
   *  in its chain: none lost, none left over from an earlier consolidation. */
  lemma SettledChainIsUnmerged(s: State, truth: Truth, v: Vid)
    requires Inv(s, truth) && v in s.loc && s.loc[v] !in s.smo
    ensures Chain(s, v) == Proj(Log(s, s.loc[v]), v)
    ensures Read(s, v) == truth[v]
  {
    InvVertex(s, truth, v);
    ReadIsView(s, v);
  }

  // ---------------------------------------------------------------------------
  // Both situations are reachable

  /** One vertex on one page, nothing written yet. */
  const Start := State(map[0 := 0], map[], map[0 := map[0 := {}]], {}, map[], map[0 := []], map[], map[], map[], 128)

  lemma StartIsInitial()
    ensures Initial(Start)
  {
  }

  const Ins1 := Rec(0, Op(1, Insert))
  const Ins2 := Rec(0, Op(2, Insert))
  const Del2 := Rec(0, Op(2, Delete))

  lemma RunsSnoc(s: State, steps: seq<Step>, t: Step)
    requires Runs(s, steps) && Enabled(After(s, steps), t) && Ordered(After(s, steps), t)
    ensures Runs(s, steps + [t]) && After(s, steps + [t]) == Next(After(s, steps), t)
    decreases |steps|
  {
    if steps == [] {
      assert steps + [t] == [t];
      assert [t][1..] == [];
    } else {
      assert (steps + [t])[1..] == steps[1..] + [t];
      RunsSnoc(Next(s, steps[0]), steps[1..], t);
    }
  }

  /** One record is written and taken for consolidation. */
  lemma OneFetched() returns (steps: seq<Step>)
    ensures Runs(Start, steps)
    ensures var s := After(Start, steps);
      && s.loc == map[0 := 0] && s.csr == Start.csr && s.giant == {} && s.bound == 128
      && s.smo == map[0 := Began([Ins1])] && s.cut == map[]
      && Log(s, 0) == [] && Log(s, 1) == []
  {
    var s := Start;
    RunsSnoc(Start, [], Write(0, Ins1.op));
    steps, s := [Write(0, Ins1.op)], DoWrite(s, 0, Ins1.op);
    assert [] + [Write(0, Ins1.op)] == [Write(0, Ins1.op)];
    assert s.smo == map[] && Log(s, 0) == [Ins1];
    RunsSnoc(Start, steps, Fetch(0));
    steps, s := steps + [Fetch(0)], DoFetch(s, 0);
  }

  /** Records written while the worker merges wait on the old page. */
  lemma WriteWaits(steps: seq<Step>, op: Op)
    requires Runs(Start, steps)
    requires var s := After(Start, steps);
      && s.loc == map[0 := 0] && 0 in s.smo && s.smo[0].phase == Fetched && Log(s, 1) == []
    ensures Runs(Start, steps + [Write(0, op)])
    ensures var s, s' := After(Start, steps), After(Start, steps + [Write(0, op)]);
      && s'.loc == s.loc && s'.csr == s.csr && s'.giant == s.giant && s'.bound == s.bound && s'.smo == s.smo
      && Log(s', 0) == Log(s, 0) + [Rec(0, op)] && Log(s', 1) == []
  {
    RunsSnoc(Start, steps, Write(0, op));
  }

  lemma MergeFetched(s: State)
    requires s.loc == map[0 := 0] && s.csr == Start.csr && s.giant == {}
    requires s.smo.Keys == {0} && s.smo[0].phase == Fetched && s.smo[0].target == map[]
    ensures Enabled(s, Merge(0, map[0 := 1])) && Ordered(s, Merge(0, map[0 := 1]))
    ensures var s' := DoMerge(s, 0, map[0 := 1]);
      && s'.loc == s.loc && s'.log == s.log && s'.smo.Keys == {0} && s'.smo[0].phase == Built
      && s'.smo[0].target == map[0 := 1] && s'.smo[0].tail == s.smo[0].tail
  {
    hide DoMerge, MergedLists, Giants, Expected;
    MergeFrame(s, 0, map[0 := 1], 0);
  }

  lemma MergeAndInstall(steps: seq<Step>)
    requires Runs(Start, steps)
    requires var s := After(Start, steps);
      && s.loc == map[0 := 0] && s.csr == Start.csr && s.giant == {}
      && s.smo.Keys == {0} && s.smo[0].phase == Fetched && s.smo[0].tail == map[] && s.smo[0].target == map[]
    ensures Runs(Start, steps + [Merge(0, map[0 := 1])] + [Install(0)])
    ensures var s, s' := After(Start, steps), After(Start, steps + [Merge(0, map[0 := 1])] + [Install(0)]);
      && s'.loc == s.loc && s'.smo.Keys == {0} && s'.smo[0].phase == Forwarding
      && s'.smo[0].target == map[0 := 1] && s'.smo[0].tail == map[]
      && Log(s', 0) == Log(s, 0) && Log(s', 1) == Log(s, 1)
  {
    hide DoMerge, Runs, After, Ordered, CanMerge;
    MergeFetched(After(Start, steps));
    RunsSnoc(Start, steps, Merge(0, map[0 := 1]));
    InstallBuilt(After(Start, steps + [Merge(0, map[0 := 1])]));
    RunsSnoc(Start, steps + [Merge(0, map[0 := 1])], Install(0));
  }

  lemma InstallBuilt(s: State)
    requires 0 in s.smo && s.smo[0].phase == Built
    ensures Enabled(s, Install(0)) && Ordered(s, Install(0))
  {
  }

  lemma NewestOfOne(op: Op, e: Vid)
    ensures Newest([op], e) == if op.dst == e then Some(op.kind) else None
  {
    assert [op][..0] == [];
  }

  lemma ProjOfOne(r: Rec, v: Vid)
    ensures Proj([r], v) == if r.src == v then [r.op] else []
  {
    assert [r][..0] == [];
  }

  lemma DeletionContradicts(s: State)
    requires s.loc == map[0 := 0] && 0 in s.smo && s.smo[0].phase == Forwarding
    requires s.smo[0].target == map[0 := 1] && Log(s, 0) == [Ins2]
    ensures Enabled(s, Write(0, Del2.op)) && !Ordered(s, Write(0, Del2.op))
  {
    ProjOfOne(Ins2, 0);
    NewestOfOne(Ins2.op, 2);
  }

  /** A deletion of edge 2 arriving now is enabled and contradicts the waiting
   *  insertion: by `ContradictingWriteIsLost` the edge comes back. */
  lemma LostWriteIsReachable() returns (steps: seq<Step>)
    ensures Runs(Start, steps)
    ensures Enabled(After(Start, steps), Write(0, Del2.op))
    ensures !Ordered(After(Start, steps), Write(0, Del2.op))
  {
    hide Ordered, Enabled, Next, Runs, After;
    steps := OneFetched();
    WriteWaits(steps, Ins2.op);
    steps := steps + [Write(0, Ins2.op)];
    assert Log(After(Start, steps), 0) == [] + [Ins2] == [Ins2];
    MergeAndInstall(steps);
    steps := steps + [Merge(0, map[0 := 1])] + [Install(0)];
    DeletionContradicts(After(Start, steps));
  }

  lemma DrainOne(steps: seq<Step>)
    requires Runs(Start, steps)
    requires var s := After(Start, steps);
      && s.loc == map[0 := 0] && s.smo.Keys == {0} && s.smo[0].phase == Forwarding
      && s.smo[0].target == map[0 := 1] && s.smo[0].tail == map[]
      && Log(s, 0) == [Ins2, Del2] && Log(s, 1) == []
    ensures Runs(Start, steps + [FetchStray(0)] + [Drain(0)])
    ensures var s' := After(Start, steps + [FetchStray(0)] + [Drain(0)]);
      && s'.loc == map[0 := 0] && s'.smo.Keys == {0} && s'.smo[0].phase == Draining
      && s'.smo[0].target == map[0 := 1]
      && s'.smo[0].stray == [Del2] && Log(s', 1) == [Ins2]
  {
    RunsSnoc(Start, steps, FetchStray(0));
    RunsSnoc(Start, steps + [FetchStray(0)], Drain(0));
    assert [Ins2, Del2][1..] == [Del2];
    assert [] + [Ins2] == [Ins2];
  }

  lemma DrainedHalf(s: State)
    requires s.loc == map[0 := 0] && 0 in s.smo && s.smo[0].phase == Draining && s.smo[0].target == map[0 := 1]
    requires 1 !in s.smo && s.smo[0].stray == [Del2] && Log(s, 1) == [Ins2]
    ensures MidDrain(s, 0, 2)
  {
    assert Arrived(s, 1) == [Ins2];
    ProjOfOne(Ins2, 0);
    ProjOfOne(Del2, 0);
    NewestOfOne(Ins2.op, 2);
    NewestOfOne(Del2.op, 2);
  }

  /** Two waiting records of one edge, the first one drained: a read made now
   *  still shows the edge that was deleted. */
  lemma MidDrainIsReachable() returns (steps: seq<Step>)
    ensures Runs(Start, steps)
    ensures After(Start, steps).loc == map[0 := 0] && MidDrain(After(Start, steps), 0, 2)
  {
    hide Ordered, Enabled, Next, Runs, After, MidDrain;
    steps := OneFetched();
    WriteWaits(steps, Ins2.op);
    steps := steps + [Write(0, Ins2.op)];
    WriteWaits(steps, Del2.op);
    steps := steps + [Write(0, Del2.op)];
    assert Log(After(Start, steps), 0) == [Ins2, Del2];
    MergeAndInstall(steps);
    steps := steps + [Merge(0, map[0 := 1])] + [Install(0)];
    DrainOne(steps);
    steps := steps + [FetchStray(0)] + [Drain(0)];
    DrainedHalf(After(Start, steps));
  }
}
