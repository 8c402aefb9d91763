/** Which vertices are kept outside CSR pages (src/smo.cc): those whose list has reached the
 * bound when it is merged, and those that were kept outside before. */
module ConsolidationGiants {
  import opened Replay
  import opened Consolidation
  import opened ConsolidationRuns
  import opened ConsolidationReaders

  /** A prepared vertex is going to be a giant exactly if it is one or its new list is as
   *  long as the bound. */
  ghost predicate Sorted(s: State, p: PageNo, v: Vid)
    requires p in s.smo && v in s.smo[p].merged
  {
    v in s.smo[p].giants <==> v in s.giant || |s.smo[p].merged[v]| >= s.bound
  }

  ghost predicate JobSorted(s: State, p: PageNo) {
    p in s.smo && s.smo[p].phase != Fetched ==>
      forall v :: v in s.smo[p].target && v in s.smo[p].merged && v !in s.smo[p].done ==> Sorted(s, p, v)
  }

  ghost predicate AllSorted(s: State) {
    forall p :: JobSorted(s, p)
  }

  /** Only a switch makes a vertex a giant. */
  lemma GiantStep(s: State, t: Step, v: Vid)
    requires SmosOk(s) && Enabled(s, t) && !Switches(t, v)
    ensures v in Next(s, t).giant <==> v in s.giant
  {
    hide DoWrite, DoFetch, DoMerge, DoInstall, DoFetchStray, DoDrain, DoSwitch, DoDetach, MergedLists, Giants, SmosOk, Dropped,
         CanMerge, CanDrain, CanDetach;
    match t
    case Write(u, op) => WriteFrame(s, u, op);
    case Fetch(q) => FetchFrame(s, q, q);
    case Merge(q, target) => MergeFrame(s, q, target, q);
    case Install(q) => InstallFrame(s, q, q);
    case FetchStray(q) => FetchStrayFrame(s, q, q);
    case Drain(q) => DrainFrame(s, q, q);
    case Switch(q, w) =>
      SwitchReady(s, q, w);
      SwitchFrame(s, q, w, q);
    case Detach(q) => DetachFrame(s, q, q);
  }

  lemma BoundStep(s: State, t: Step)
    requires Enabled(s, t)
    ensures Next(s, t).bound == s.bound
  {
    hide Proj, MergedLists, Giants, Dropped;
  }

  /** What was prepared stays. */
  lemma PreparedStep(s: State, t: Step, p: PageNo)
    requires SmosOk(s) && Enabled(s, t) && p in s.smo && s.smo[p].phase != Fetched && t != Detach(p)
    ensures p in Next(s, t).smo
    ensures var c, c' := s.smo[p], Next(s, t).smo[p];
      && c'.merged == c.merged && c'.giants == c.giants && c'.target == c.target
      && c'.done == if t.Switch? && t.p == p then c.done + {t.w} else c.done
  {
    hide DoWrite, DoFetch, DoMerge, DoInstall, DoFetchStray, DoDrain, DoSwitch, DoDetach, MergedLists, Giants, Log, SmosOk,
         Dropped, CanDrain;
    match t
    case Write(v, op) =>
      WriteFrame(s, v, op);
      WriteSmoFrame(s, v, op, p);
    case Fetch(q) => FetchFrame(s, q, p);
    case Merge(q, target) => MergeFrame(s, q, target, p);
    case Install(q) => InstallFrame(s, q, p);
    case FetchStray(q) => FetchStrayFrame(s, q, p);
    case Drain(q) => DrainFrame(s, q, p);
    case Switch(q, w) =>
      SwitchReady(s, q, w);
      SwitchFrame(s, q, w, p);
    case Detach(q) => DetachFrame(s, q, p);
  }

  /** A vertex that one worker has still to switch is switched by no other. */
  lemma OnlyMine(s: State, q: PageNo, w: Vid, p: PageNo)
    requires SmosOk(s) && CanSwitch(s, q, w) && p in s.smo && s.smo[p].phase != Fetched
    requires w in s.smo[p].target && w !in s.smo[p].done
    ensures p == q
  {
    SwitchReady(s, q, w);
    assert SmoOk(s, p);
    assert TargetOk(s, p, w);
  }

  lemma MergeSorted(s: State, p: PageNo, target: map<Vid, PageNo>)
    requires CanMerge(s, p, target)
    ensures JobSorted(DoMerge(s, p, target), p)
  {
    hide MergedLists;
  }

  lemma SortedStep(s: State, t: Step, p: PageNo)
    requires SmosOk(s) && Enabled(s, t) && p in s.smo && s.smo[p].phase != Fetched && t != Detach(p) && JobSorted(s, p)
    ensures JobSorted(Next(s, t), p)
  {
    hide Enabled, Next, SmosOk;
    var s' := Next(s, t);
    PreparedStep(s, t, p);
    BoundStep(s, t);
    forall v | v in s'.smo[p].target && v in s'.smo[p].merged && v !in s'.smo[p].done
      ensures Sorted(s', p, v)
    {
      assert Sorted(s, p, v);
      if Switches(t, v) {
        SwitchedByOther(s, t, v, p);
      } else {
        GiantStep(s, t, v);
      }
    }
  }

  lemma SwitchedByOther(s: State, t: Step, v: Vid, p: PageNo)
    requires SmosOk(s) && Enabled(s, t) && Switches(t, v) && p in s.smo && s.smo[p].phase != Fetched
    requires v in s.smo[p].target && v !in s.smo[p].done
    ensures t.p == p
  {
    OnlyMine(s, t.p, v, p);
  }

  lemma NewSorted(s: State, t: Step, p: PageNo)
    requires SmosOk(s) && Enabled(s, t) && (p !in s.smo || s.smo[p].phase == Fetched || t == Detach(p))
    ensures JobSorted(Next(s, t), p)
  {
    hide DoWrite, DoFetch, DoMerge, DoInstall, DoFetchStray, DoDrain, DoSwitch, DoDetach, MergedLists, Giants, Log, SmosOk,
         Dropped, CanDrain, Sorted;
    match t
    case Write(v, op) =>
      WriteFrame(s, v, op);
      if p in s.smo {
        WriteSmoFrame(s, v, op, p);
      }
    case Fetch(q) => FetchFrame(s, q, p);
    case Merge(q, target) =>
      if p == q {
        MergeSorted(s, q, target);
      } else {
        MergeFrame(s, q, target, p);
      }
    case Install(q) => InstallFrame(s, q, p);
    case FetchStray(q) => FetchStrayFrame(s, q, p);
    case Drain(q) => DrainFrame(s, q, p);
    case Switch(q, w) =>
      SwitchReady(s, q, w);
      SwitchFrame(s, q, w, p);
    case Detach(q) => DetachFrame(s, q, p);
  }

  lemma AllSortedStep(s: State, t: Step)
    requires SmosOk(s) && Enabled(s, t) && AllSorted(s)
    ensures AllSorted(Next(s, t))
  {
    hide Enabled, Next, SmosOk, JobSorted;
    forall p ensures JobSorted(Next(s, t), p) {
      assert JobSorted(s, p);
      if p !in s.smo || s.smo[p].phase == Fetched || t == Detach(p) {
        NewSorted(s, t, p);
      } else {
        SortedStep(s, t, p);
      }
    }
  }

  /** A switched vertex is a giant exactly if it was one or its stored list has reached the
   *  bound; so a list kept on a page is shorter. */
  lemma SwitchSorts(s: State, p: PageNo, w: Vid)
    requires SmosOk(s) && CanSwitch(s, p, w) && AllSorted(s)
    ensures var s' := DoSwitch(s, p, w);
      w in s'.giant <==> w in s.giant || |Base(s', w)| >= s'.bound
  {
    hide DoSwitch, Dropped;
    SwitchReady(s, p, w);
    SwitchFrame(s, p, w, p);
    SwitchBase(s, p, w);
    assert JobSorted(s, p);
    assert Sorted(s, p, w);
    BoundStep(s, Switch(p, w));
  }

  ghost predicate Small(s: State, v: Vid) {
    v in s.giant || |Base(s, v)| < s.bound
  }

  lemma SmallStep(s: State, t: Step, v: Vid)
    requires Shape(s) && Enabled(s, t) && AllSorted(s) && v in s.loc && (Small(s, v) || Switches(t, v))
    ensures v in Next(s, t).loc && Small(Next(s, t), v)
    ensures v in s.giant ==> v in Next(s, t).giant
  {
    hide DoSwitch, Enabled, Next, AllSorted, Base, LocOk, AllPlaced, LogOk;
    if Switches(t, v) {
      StepIsSwitch(s, t);
      SwitchSorts(s, t.p, v);
      SwitchReady(s, t.p, v);
      SwitchFrame(s, t.p, v, t.p);
    } else {
      SnapshotSurvives(s, t, v);
      GiantStep(s, t, v);
      BoundStep(s, t);
    }
  }

  lemma StepIsSwitch(s: State, t: Step)
    requires Enabled(s, t) && t.Switch?
    ensures CanSwitch(s, t.p, t.w) && Next(s, t) == DoSwitch(s, t.p, t.w)
  {
  }

  lemma {:induction false} RunSorts(s: State, truth: Truth, steps: seq<Step>, v: Vid)
    requires Inv(s, truth) && Runs(s, steps) && AllSorted(s) && v in s.loc
    ensures v in After(s, steps).loc && After(s, steps).bound == s.bound
    ensures v in s.giant ==> v in After(s, steps).giant
    ensures SwitchedIn(steps, v) || Small(s, v) ==> Small(After(s, steps), v)
    decreases |steps|
  {
    hide Shape, ViewsOk, Enabled, Ordered, Next, AllSorted, Base, Runs, After, Switches, SwitchedIn;
    if steps == [] {
      NoSteps(s, steps, v);
    } else {
      FirstOf(s, steps);
      var t, s', rest := steps[0], Next(s, steps[0]), steps[1..];
      assert steps == [t] + rest;
      StepKeeps(s, truth, t);
      AllSortedHere(s, t);
      BoundStep(s, t);
      StaysServed(s, truth, t, s', v);
      if Switches(t, v) || Small(s, v) {
        SmallStep(s, t, v);
      }
      if !Switches(t, v) {
        SwitchedLater(t, rest, v);
      }
      RunSorts(s', NextTruth(truth, t), rest, v);
    }
  }

  /** Over any run from an initial database: a vertex that has been switched is a giant or
   *  its page stores fewer neighbours than the bound, and no giant becomes an ordinary
   *  vertex again. */
  lemma SwitchedIsSmall(s: State, steps: seq<Step>, v: Vid)
    requires Initial(s) && Runs(s, steps) && v in s.loc
    ensures var end := After(s, steps);
      && v in end.loc && end.loc[v] in end.csr && v in end.csr[end.loc[v]]
      && (v in s.giant ==> v in end.giant)
      && (SwitchedIn(steps, v) ==> v in end.giant || |end.csr[end.loc[v]][v]| < s.bound)
  {
    hide Initial, Runs, After, SwitchedIn, Shape, ViewsOk;
    InitialInv(s);
    InitialSorted(s);
    RunSorts(s, InitialTruth(s), steps, v);
    var truth := RunKeeps(s, InitialTruth(s), steps);
    StoredThere(After(s, steps), truth, v);
  }

  lemma StoredThere(s: State, truth: Truth, v: Vid)
    requires Inv(s, truth) && v in s.loc
    ensures s.loc[v] in s.csr && v in s.csr[s.loc[v]] && (v !in s.giant ==> Base(s, v) == s.csr[s.loc[v]][v])
  {
  }

  lemma InitialSorted(s: State)
    requires Initial(s)
    ensures AllSorted(s)
  {
  }

  lemma NoSteps(s: State, steps: seq<Step>, v: Vid)
    requires steps == []
    ensures Runs(s, steps) && After(s, steps) == s && !SwitchedIn(steps, v)
  {
  }

  lemma FirstOf(s: State, steps: seq<Step>)
    requires Runs(s, steps) && steps != []
    ensures Enabled(s, steps[0]) && Ordered(s, steps[0]) && Runs(Next(s, steps[0]), steps[1..])
    ensures After(s, steps) == After(Next(s, steps[0]), steps[1..])
  {
    hide Enabled, Ordered, Next;
  }

  lemma AllSortedHere(s: State, t: Step)
    requires Shape(s) && Enabled(s, t) && AllSorted(s)
    ensures AllSorted(Next(s, t))
  {
    hide Enabled, Next, AllSorted;
    AllSortedStep(s, t);
  }

  lemma StaysServed(s: State, truth: Truth, t: Step, s': State, v: Vid)
    requires Inv(s, truth) && Enabled(s, t) && Inv(s', NextTruth(truth, t)) && v in s.loc
    ensures v in s'.loc
  {
    NextTruthKeys(s, truth, t);
  }
}
