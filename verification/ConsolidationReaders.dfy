/** Readers that walk late: the base list and the chain head are taken under the latch
 * of the vertex (src/db.cc), the chain is walked without it, while the consolidation
 * (src/smo.cc) may cut it. */
module ConsolidationReaders {
  import opened Replay
  import opened Consolidation
  import opened ConsolidationRuns
  import opened ConsolidationLimits
  import opened ConsolidationRaces

  ghost predicate Switches(t: Step, v: Vid) {
    t.Switch? && t.w == v
  }

  ghost predicate SwitchedIn(steps: seq<Step>, v: Vid) {
    exists i :: 0 <= i < |steps| && Switches(steps[i], v)
  }

  /** A switch clears the link of the first rerouted record of its vertex, so that a walk
   *  that comes to this record from above ends with it. */
  ghost function CutBy(s: State, t: Step, v: Vid, lo: nat, hi: nat): nat {
    if Switches(t, v) && t.p in s.smo && v in s.smo[t.p].tail && lo <= s.smo[t.p].tail[v] < hi then s.smo[t.p].tail[v]
    else lo
  }

  /** Where a walk down from position `hi` ends after a run, if it ended at `lo` before. */
  ghost function Floor(s: State, steps: seq<Step>, v: Vid, lo: nat, hi: nat): nat
    requires Runs(s, steps)
    decreases |steps|
  {
    if steps == [] then lo
    else Floor(Next(s, steps[0]), steps[1..], v, CutBy(s, steps[0], v, lo, hi), hi)
  }

  /** What a reader returns that takes base and head in `s` and walks after the run:
   *  records are never changed or moved, only links are cleared. */
  ghost function LateRead(s: State, steps: seq<Step>, v: Vid): set<Vid>
    requires Runs(s, steps) && Cut(s, v) <= Floor(s, steps, v, Cut(s, v), Top(s, v)) <= Top(s, v)
  {
    Run(Base(s, v), Chain(s, v)[Floor(s, steps, v, Cut(s, v), Top(s, v)) - Cut(s, v)..])
  }

  // ---------------------------------------------------------------------------
  // Where the walk ends

  /** Position of the first rerouted record of `v`, if it has one. */
  function Boundary(s: State, v: Vid): Option<nat> {
    if v in s.loc && s.loc[v] in s.smo && v in s.smo[s.loc[v]].tail then Some(s.smo[s.loc[v]].tail[v]) else None
  }

  /** The first rerouted record of `v`, if there is one, is not below `hi`. */
  ghost predicate Fresh(s: State, v: Vid, hi: nat) {
    v in s.loc && Top(s, v) >= hi && (Boundary(s, v).Some? ==> Boundary(s, v).value >= hi)
  }

  lemma TopStep(s: State, t: Step, v: Vid)
    requires Shape(s) && Enabled(s, t) && v in s.loc
    ensures Top(Next(s, t), v) >= Top(s, v)
  {
    hide DoWrite, DoFetch, DoMerge, DoInstall, DoFetchStray, DoDrain, DoSwitch, DoDetach, Dropped, LocOk, AllPlaced, LogOk,
         SmosOk, CanMerge, CanDrain, CanDetach;
    match t
    case Write(u, op) => WriteFrame(s, u, op);
    case Fetch(p) => FetchFrame(s, p, p);
    case Merge(p, target) => MergeFrame(s, p, target, p);
    case Install(p) => InstallFrame(s, p, p);
    case FetchStray(p) => FetchStrayFrame(s, p, p);
    case Drain(p) => DrainFrame(s, p, p);
    case Switch(p, w) =>
      SwitchReady(s, p, w);
      SwitchFrame(s, p, w, p);
    case Detach(p) => DetachFrame(s, p, p);
  }

  lemma SameBoundary(s: State, s': State, v: Vid)
    requires v in s.loc && s'.loc == s.loc && s'.smo.Keys == s.smo.Keys
    requires s.loc[v] in s.smo ==> s'.smo[s.loc[v]].tail == s.smo[s.loc[v]].tail
    ensures Boundary(s', v) == Boundary(s, v)
  {
  }

  /** A boundary is there to stay, or there is none and a new one is on top. */
  ghost predicate Goes(s: State, s': State, v: Vid) {
    && v in s.loc && v in s'.loc
    && (|| Boundary(s', v) == Boundary(s, v)
        || (Boundary(s, v) == None && Boundary(s', v).Some? && Boundary(s', v).value >= Top(s, v)))
  }

  lemma WriteGoes(s: State, u: Vid, op: Op, v: Vid)
    requires u in s.loc && v in s.loc
    ensures Goes(s, DoWrite(s, u, op), v)
  {
    hide DoWrite, Top;
    WriteFrame(s, u, op);
    if s.loc[v] in s.smo {
      WriteSmoFrame(s, u, op, s.loc[v]);
    }
  }

  lemma DrainGoes(s: State, p: PageNo, v: Vid)
    requires CanDrain(s, p) && v in s.loc
    ensures Goes(s, DoDrain(s, p), v)
  {
    hide DoDrain, Top;
    DrainFrame(s, p, s.loc[v]);
  }

  lemma FetchGoes(s: State, p: PageNo, v: Vid)
    requires CanFetch(s, p) && v in s.loc
    ensures Goes(s, DoFetch(s, p), v)
  {
    hide DoFetch, Top;
    FetchFrame(s, p, s.loc[v]);
  }

  lemma MergeGoes(s: State, p: PageNo, target: map<Vid, PageNo>, v: Vid)
    requires CanMerge(s, p, target) && v in s.loc
    ensures Goes(s, DoMerge(s, p, target), v)
  {
    hide DoMerge, MergedLists, Giants, Expected, Top, Boundary;
    MergeFrame(s, p, target, s.loc[v]);
    SameBoundary(s, DoMerge(s, p, target), v);
  }

  lemma SwitchGoes(s: State, p: PageNo, w: Vid, v: Vid)
    requires SmosOk(s) && CanSwitch(s, p, w) && v in s.loc && v != w
    ensures Goes(s, DoSwitch(s, p, w), v)
  {
    hide DoSwitch, Top, Dropped, SmosOk;
    SwitchReady(s, p, w);
    SwitchFrame(s, p, w, s.loc[v]);
  }

  lemma DetachGoes(s: State, p: PageNo, v: Vid)
    requires Shape(s) && CanDetach(s, p) && v in s.loc
    ensures Goes(s, DoDetach(s, p), v)
  {
    hide DoDetach, Top, Shape, CanDetach;
    DetachedServesNone(s, p, v);
    DetachFrame(s, p, s.loc[v]);
  }

  lemma BoundaryStep(s: State, t: Step, v: Vid)
    requires Shape(s) && Enabled(s, t) && v in s.loc && !Switches(t, v)
    ensures Goes(s, Next(s, t), v)
  {
    hide DoWrite, DoFetch, DoMerge, DoInstall, DoFetchStray, DoDrain, DoSwitch, DoDetach, Top, LocOk, AllPlaced, LogOk,
         SmosOk, CanMerge, CanDrain, CanDetach, Boundary;
    match t
    case Write(u, op) => WriteGoes(s, u, op, v);
    case Fetch(p) => FetchGoes(s, p, v);
    case Merge(p, target) => MergeGoes(s, p, target, v);
    case Install(p) =>
      InstallFrame(s, p, s.loc[v]);
      SameBoundary(s, DoInstall(s, p), v);
    case FetchStray(p) =>
      FetchStrayFrame(s, p, s.loc[v]);
      SameBoundary(s, DoFetchStray(s, p), v);
    case Drain(p) => DrainGoes(s, p, v);
    case Switch(p, w) => SwitchGoes(s, p, w, v);
    case Detach(p) => DetachGoes(s, p, v);
  }

  /** A page that a vertex has just been switched to has no rerouted record. */
  lemma SwitchedFresh(s: State, p: PageNo, v: Vid, hi: nat)
    requires Shape(s) && CanSwitch(s, p, v) && Top(s, v) >= hi
    ensures Fresh(DoSwitch(s, p, v), v, hi)
  {
    hide DoSwitch, Shape, CanSwitch, CasHolds, DestinationOk;
    SwitchedFrom(s, p, v);
    var q := s.smo[p].target[v];
    SwitchFrame(s, p, v, q);
    NoBoundaryAt(s, p, v);
  }

  lemma NoBoundaryAt(s: State, p: PageNo, v: Vid)
    requires Shape(s) && CanSwitch(s, p, v)
    ensures var q := s.smo[p].target[v]; q != p && (q in s.smo ==> s.smo[q].tail == map[])
  {
    SwitchReady(s, p, v);
    var q := s.smo[p].target[v];
    assert q in s.smo ==> SmoOk(s, q);
  }

  lemma FreshStep(s: State, t: Step, v: Vid, lo: nat, hi: nat)
    requires Shape(s) && Enabled(s, t) && Fresh(s, v, hi)
    ensures Fresh(Next(s, t), v, hi) && CutBy(s, t, v, lo, hi) == lo
  {
    hide Shape, Top, DoSwitch, CanMerge, CanDrain, CanDetach;
    if Switches(t, v) {
      SwitchedFresh(s, t.p, v, hi);
      SwitchedFrom(s, t.p, v);
    } else {
      TopStep(s, t, v);
      BoundaryStep(s, t, v);
    }
  }

  lemma SwitchedFrom(s: State, p: PageNo, v: Vid)
    requires Shape(s) && CanSwitch(s, p, v)
    ensures v in s.loc && s.loc[v] == p && CasHolds(s, p, v)
    ensures p in s.smo && v in s.smo[p].target
  {
    SwitchReady(s, p, v);
  }

  /** With no rerouted record below the head, nothing the reader holds is cut. */
  lemma {:induction false} FreshFloor(s: State, truth: Truth, steps: seq<Step>, v: Vid, lo: nat, hi: nat)
    requires Inv(s, truth) && Runs(s, steps) && Fresh(s, v, hi)
    ensures Floor(s, steps, v, lo, hi) == lo
    decreases |steps|
  {
    if steps != [] {
      hide Fresh, CutBy, Shape, ViewsOk, Enabled, Ordered, Next;
      FreshStep(s, steps[0], v, lo, hi);
      StepKeeps(s, truth, steps[0]);
      FreshFloor(Next(s, steps[0]), NextTruth(truth, steps[0]), steps[1..], v, lo, hi);
    }
  }

  lemma ReroutedStep(s: State, t: Step, v: Vid, k: nat, lo: nat, hi: nat)
    requires Shape(s) && Enabled(s, t) && Boundary(s, v) == Some(k) && !Switches(t, v) && hi <= Top(s, v)
    ensures Boundary(Next(s, t), v) == Some(k) && hi <= Top(Next(s, t), v) && CutBy(s, t, v, lo, hi) == lo
  {
    hide Shape, Enabled, Next, Top;
    BoundaryStep(s, t, v);
    TopStep(s, t, v);
  }

  lemma SwitchedLater(t: Step, rest: seq<Step>, v: Vid)
    requires !Switches(t, v)
    ensures SwitchedIn([t] + rest, v) <==> SwitchedIn(rest, v)
  {
    if SwitchedIn(rest, v) {
      var i :| 0 <= i < |rest| && Switches(rest[i], v);
      assert Switches(([t] + rest)[i + 1], v);
    }
    if SwitchedIn([t] + rest, v) {
      var i :| 0 <= i < |[t] + rest| && Switches(([t] + rest)[i], v);
      assert Switches(rest[i - 1], v);
    }
  }

  /** With one, the walk ends there if and only if the vertex is switched meanwhile. */
  lemma {:induction false} ReroutedFloor(s: State, truth: Truth, steps: seq<Step>, v: Vid, lo: nat, hi: nat, k: nat)
    requires Inv(s, truth) && Runs(s, steps) && Boundary(s, v) == Some(k) && lo <= k < hi <= Top(s, v)
    ensures Floor(s, steps, v, lo, hi) == if SwitchedIn(steps, v) then k else lo
    decreases |steps|
  {
    hide Boundary, Fresh, Shape, ViewsOk, Enabled, Ordered, Next, Top, CutBy, SwitchedIn, Runs, Floor, Switches;
    if steps == [] {
      FloorEnd(s, steps, v, lo, hi);
    } else {
      FloorStep(s, steps, v, lo, hi);
      var t, s', rest := steps[0], Next(s, steps[0]), steps[1..];
      StepKeeps(s, truth, t);
      if Switches(t, v) {
        SwitchCuts(s, t, v, lo, hi, k);
        FreshFloor(s', NextTruth(truth, t), rest, v, k, hi);
        SwitchedFirst(steps, v);
      } else {
        ReroutedStep(s, t, v, k, lo, hi);
        ReroutedFloor(s', NextTruth(truth, t), rest, v, lo, hi, k);
        SwitchedLater(t, rest, v);
        assert steps == [t] + rest;
      }
    }
  }

  lemma FloorEnd(s: State, steps: seq<Step>, v: Vid, lo: nat, hi: nat)
    requires steps == []
    ensures Runs(s, steps) && Floor(s, steps, v, lo, hi) == lo && !SwitchedIn(steps, v)
  {
  }

  lemma FloorStep(s: State, steps: seq<Step>, v: Vid, lo: nat, hi: nat)
    requires Runs(s, steps) && steps != []
    ensures Enabled(s, steps[0]) && Ordered(s, steps[0]) && Runs(Next(s, steps[0]), steps[1..])
    ensures Floor(s, steps, v, lo, hi) == Floor(Next(s, steps[0]), steps[1..], v, CutBy(s, steps[0], v, lo, hi), hi)
  {
    hide Enabled, Ordered, Next, CutBy;
  }

  lemma SwitchedFirst(steps: seq<Step>, v: Vid)
    requires steps != [] && Switches(steps[0], v)
    ensures SwitchedIn(steps, v)
  {
  }

  lemma SwitchCuts(s: State, t: Step, v: Vid, lo: nat, hi: nat, k: nat)
    requires Shape(s) && Enabled(s, t) && Switches(t, v) && Boundary(s, v) == Some(k) && lo <= k < hi <= Top(s, v)
    ensures CutBy(s, t, v, lo, hi) == k && Fresh(Next(s, t), v, hi)
  {
    hide Shape, Top, DoSwitch;
    SwitchedFrom(s, t.p, v);
    SwitchedFresh(s, t.p, v, hi);
  }

  // ---------------------------------------------------------------------------
  // Without a switch

  /** The base of a vertex kept on a CSR page depends on that page only. */
  lemma FrameBase(s: State, s': State, v: Vid)
    requires v in s.loc && v in s'.loc && s'.loc[v] == s.loc[v] && v !in s.giant && v !in s'.giant
    requires s.loc[v] in s.csr && s.loc[v] in s'.csr && s'.csr[s.loc[v]] == s.csr[s.loc[v]]
    ensures Base(s', v) == Base(s, v)
  {
  }

  lemma SwitchSurvives(s: State, p: PageNo, w: Vid, v: Vid)
    requires Shape(s) && CanSwitch(s, p, w) && v in s.loc && w != v
    ensures var s' := DoSwitch(s, p, w);
      && v in s'.loc && s'.loc[v] == s.loc[v] && (v in s'.giant <==> v in s.giant)
      && Chain(s', v) == Chain(s, v) && s'.csr == s.csr
  {
    hide DoSwitch, Dropped;
    SwitchReady(s, p, w);
    SwitchFrame(s, p, w, p);
  }

  lemma OtherSurvives(s: State, t: Step, v: Vid)
    requires LocOk(s) && Enabled(s, t) && v in s.loc && !t.Switch?
    requires t.Detach? ==> s.loc[v] != t.p
    ensures var s' := Next(s, t);
      && s'.loc == s.loc && s'.giant == s.giant && Chain(s, v) <= Chain(s', v)
      && s.loc[v] in s'.csr && s'.csr[s.loc[v]] == s.csr[s.loc[v]]
  {
    match t
    case Write(u, op) => WriteFrame(s, u, op);
    case Fetch(p) => FetchFrame(s, p, p);
    case Merge(p, target) => MergeFrame(s, p, target, s.loc[v]);
    case Install(p) => InstallFrame(s, p, p);
    case FetchStray(p) => FetchStrayFrame(s, p, p);
    case Drain(p) => DrainFrame(s, p, p);
    case Detach(p) => DetachFrame(s, p, s.loc[v]);
    case Switch(_, _) =>
  }

  /** Without a switch of its vertex in between, the records a reader holds stay
   *  where they are, under the records added since, and so does the base of a
   *  vertex that is kept on a CSR page: a delayed walk returns the snapshot. */
  lemma SnapshotSurvives(s: State, t: Step, v: Vid)
    requires Shape(s) && Enabled(s, t) && v in s.loc
    requires t.Switch? ==> t.w != v
    ensures v in Next(s, t).loc && Chain(s, v) <= Chain(Next(s, t), v)
    ensures v !in s.giant ==> v !in Next(s, t).giant && Base(Next(s, t), v) == Base(s, v)
  {
    match t
    case Switch(p, w) =>
      SwitchSurvives(s, p, w, v);
      if v !in s.giant {
        FrameBase(s, Next(s, t), v);
      }
    case Detach(p) =>
      DetachedServesNone(s, p, v);
      OtherSurvives(s, t, v);
      if v !in s.giant {
        FrameBase(s, Next(s, t), v);
      }
    case _ =>
      OtherSurvives(s, t, v);
      if v !in s.giant {
        FrameBase(s, Next(s, t), v);
      }
  }

  /** The same over a run. */
  lemma {:induction false} SnapshotStays(s: State, truth: Truth, steps: seq<Step>, v: Vid)
    requires Inv(s, truth) && Runs(s, steps) && v in s.loc && !SwitchedIn(steps, v)
    ensures v in After(s, steps).loc && Chain(s, v) <= Chain(After(s, steps), v)
    ensures v !in s.giant ==> Base(After(s, steps), v) == Base(s, v) && v !in After(s, steps).giant
    decreases |steps|
  {
    hide Shape, ViewsOk, Enabled, Ordered, Next, Switches, Base, Chain;
    if steps != [] {
      StepKeeps(s, truth, steps[0]);
      assert Switches(steps[0], v) ==> SwitchedIn(steps, v);
      NotSwitched(steps[0], v);
      SnapshotSurvives(s, steps[0], v);
      assert steps == [steps[0]] + steps[1..];
      SwitchedLater(steps[0], steps[1..], v);
      SnapshotStays(Next(s, steps[0]), NextTruth(truth, steps[0]), steps[1..], v);
    }
  }

  lemma NotSwitched(t: Step, v: Vid)
    requires !Switches(t, v)
    ensures t.Switch? ==> t.w != v
  {
  }

  // ---------------------------------------------------------------------------
  // What the walk returns

  /** The newest record of edge e is below the first rerouted record of the vertex, and the
   *  base list does not have its effect. */
  ghost predicate Buried(s: State, v: Vid, e: Vid) {
    && Boundary(s, v).Some? && Cut(s, v) <= Boundary(s, v).value <= Top(s, v)
    && BuriedAt(Base(s, v), Chain(s, v), Boundary(s, v).value - Cut(s, v), e)
  }

  ghost predicate BuriedAt(base: set<Vid>, chain: seq<Op>, i: nat, e: Vid)
    requires i <= |chain|
  {
    && Newest(chain[i..], e) == None && Newest(chain[..i], e).Some?
    && (Newest(chain[..i], e) == Some(Insert)) != (e in base)
  }

  lemma BuriedEdge(base: set<Vid>, chain: seq<Op>, i: nat, e: Vid)
    requires i <= |chain|
    ensures (e in Run(base, chain[i..]) <==> e in Run(base, chain)) <==> !BuriedAt(base, chain, i, e)
  {
    RunIsVisible(base, chain, e);
    RunIsVisible(base, chain[i..], e);
    assert chain == chain[..i] + chain[i..];
    NewestConcat(chain[..i], chain[i..], e);
  }

  /** A vertex has a rerouted record exactly while it is moving and records have reached its
   *  new page; the records from the first rerouted one on are these. */
  lemma BoundaryView(s: State, truth: Truth, v: Vid)
    requires Inv(s, truth) && v in s.loc && Boundary(s, v).Some?
    ensures ViewHolds(s, truth, v) && Cut(s, v) <= Boundary(s, v).value < Top(s, v)
    ensures ViewOf(s, v).Moving? && Chain(s, v)[Boundary(s, v).value - Cut(s, v)..] == ViewOf(s, v).moved
  {
    hide Shape;
    InvVertex(s, truth, v);
    RoutedPhase(s, truth, v);
    var w := ViewOf(s, v);
    assert w.Moving? && w.tail == Some(s.smo[s.loc[v]].tail[v] - Cut(s, v));
    assert |w.chain[w.tail.value..]| == |w.moved| > 0;
  }

  lemma RoutedPhase(s: State, truth: Truth, v: Vid)
    requires Inv(s, truth) && v in s.loc && Boundary(s, v).Some?
    ensures s.loc[v] in s.smo && s.smo[s.loc[v]].phase != Fetched && s.smo[s.loc[v]].phase != Built
  {
    var p := s.loc[v];
    assert SmoOk(s, p);
    InvVertex(s, truth, v);
    if s.smo[p].phase == Built {
      ShapeServes(s, v);
    }
  }

  /** Where the walk of a reader ends that took its snapshot before the run. */
  lemma FloorIs(s: State, truth: Truth, steps: seq<Step>, v: Vid)
    requires Inv(s, truth) && Runs(s, steps) && v in s.loc
    ensures Boundary(s, v).Some? ==> Cut(s, v) <= Boundary(s, v).value < Top(s, v)
    ensures Floor(s, steps, v, Cut(s, v), Top(s, v))
         == if Boundary(s, v).Some? && SwitchedIn(steps, v) then Boundary(s, v).value else Cut(s, v)
  {
    hide Inv, Boundary, Runs, Floor, SwitchedIn;
    if Boundary(s, v).Some? {
      BoundaryView(s, truth, v);
      ReroutedFloor(s, truth, steps, v, Cut(s, v), Top(s, v), Boundary(s, v).value);
    } else {
      FreshFloor(s, truth, steps, v, Cut(s, v), Top(s, v));
    }
  }

  /** One edge, seen by a walk that ends at the first rerouted record. */
  lemma CutEdge(s: State, truth: Truth, v: Vid, e: Vid)
    requires Inv(s, truth) && v in s.loc && v in truth
    requires Boundary(s, v).Some? && Cut(s, v) <= Boundary(s, v).value <= Top(s, v)
    ensures (e in Run(Base(s, v), Chain(s, v)[Boundary(s, v).value - Cut(s, v)..]) <==> e in truth[v])
        <==> !MidDrain(s, v, e) && !Buried(s, v, e)
  {
    hide Inv, ViewHolds, Run, Boundary;
    BoundaryView(s, truth, v);
    BuriedEdge(Base(s, v), Chain(s, v), Boundary(s, v).value - Cut(s, v), e);
    ReadEdge(s, truth, v, e);
  }

  /** Two sets are equal if they agree on every edge. */
  lemma EdgesAgree(late: set<Vid>, t: set<Vid>, s: State, v: Vid)
    requires v in s.loc
    requires forall e :: (e in late <==> e in t) <==> !MidDrain(s, v, e) && !Buried(s, v, e)
    ensures late == t <==> forall e :: !MidDrain(s, v, e) && !Buried(s, v, e)
  {
    hide MidDrain, Buried;
    if forall e :: !MidDrain(s, v, e) && !Buried(s, v, e) {
      assert forall e :: e in late <==> e in t;
    }
  }

  lemma CutExact(s: State, truth: Truth, v: Vid)
    requires Inv(s, truth) && v in s.loc && v in truth
    requires Boundary(s, v).Some? && Cut(s, v) <= Boundary(s, v).value <= Top(s, v)
    ensures Run(Base(s, v), Chain(s, v)[Boundary(s, v).value - Cut(s, v)..]) == truth[v]
        <==> forall e :: !MidDrain(s, v, e) && !Buried(s, v, e)
  {
    hide Inv, Run, Boundary, MidDrain, Buried, Base, Chain, Cut;
    var late := Run(Base(s, v), Chain(s, v)[Boundary(s, v).value - Cut(s, v)..]);
    forall e ensures (e in late <==> e in truth[v]) <==> !MidDrain(s, v, e) && !Buried(s, v, e) {
      CutEdge(s, truth, v, e);
    }
    EdgesAgree(late, truth[v], s, v);
  }

  lemma WholeExact(s: State, truth: Truth, v: Vid)
    requires Inv(s, truth) && v in s.loc
    ensures v in truth
    ensures Run(Base(s, v), Chain(s, v)[0..]) == truth[v] <==> forall e :: !MidDrain(s, v, e)
  {
    hide Run, MidDrain;
    InvVertex(s, truth, v);
    ReadExact(s, truth, v);
    assert Chain(s, v)[0..] == Chain(s, v);
  }

  lemma NoneBuried(s: State, v: Vid)
    ensures Boundary(s, v) == None ==> forall e :: !Buried(s, v, e)
  {
  }

  /** A reader that walks its chain only after a run returns the edge set of the moment at
   *  which it took its snapshot, exactly when no edge was in the middle of a drain then
   *  and, if the vertex has been switched since, no edge was decided by a record below the
   *  first rerouted one that the base list did not have. */
  lemma LateReaderExact(s: State, truth: Truth, steps: seq<Step>, v: Vid)
    requires Inv(s, truth) && Runs(s, steps) && v in s.loc
    ensures v in truth && Cut(s, v) <= Floor(s, steps, v, Cut(s, v), Top(s, v)) <= Top(s, v)
    ensures LateRead(s, steps, v) == truth[v]
        <==> forall e :: !MidDrain(s, v, e) && !(SwitchedIn(steps, v) && Buried(s, v, e))
  {
    hide Inv, Boundary, MidDrain, SwitchedIn, Runs, Floor, Buried, Run, Base;
    FloorIs(s, truth, steps, v);
    WholeExact(s, truth, v);
    if Boundary(s, v).Some? && SwitchedIn(steps, v) {
      CutExact(s, truth, v);
    } else {
      NoneBuried(s, v);
    }
  }

  // ---------------------------------------------------------------------------
  // It happens
  //
  // Edge 1 is merged into the replacement page and edge 2 written behind the forwarding
  // table; then a reader takes its snapshot, and the vertex is switched before it walks.

  const TO_NEXT: map<Vid, PageNo> := map[0 := 1]
  const Job1 := Smo(Built, [Ins1], map[0 := {1}], TO_NEXT, {}, [], map[], map[0 := 0], {})
  const Wrote1 := Start.(chain := map[0 := [Ins1.op]], log := map[0 := [Ins1]])
  const Fetched1 := Wrote1.(log := map[0 := []], smo := map[0 := Began([Ins1])])
  const Merged1 := Fetched1.(csr := map[0 := map[0 := {}], 1 := map[0 := {1}]], smo := map[0 := Job1])
  const Installed1 := Merged1.(smo := map[0 := Job1.(phase := Forwarding)])
  const Held := Installed1.(chain := map[0 := [Ins1.op, Ins2.op]], log := map[0 := [], 1 := [Ins2]],
                            smo := map[0 := Job1.(phase := Forwarding, tail := map[0 := 1])])
  const Stray1 := Held.(smo := map[0 := Job1.(phase := Draining, tail := map[0 := 1])])

  /** One more step of an ordered run. */
  lemma Further(s: State, steps: seq<Step>, at: State, t: Step, to: State) returns (more: seq<Step>)
    requires Runs(s, steps) && After(s, steps) == at && Leads(at, t, to) && Ordered(at, t)
    ensures Runs(s, more) && After(s, more) == to && more == steps + [t]
  {
    RunsSnoc(s, steps, t);
    more := steps + [t];
  }

  lemma ToWrote1()
    ensures Leads(Start, Write(0, Ins1.op), Wrote1) && Ordered(Start, Write(0, Ins1.op))
  {
    assert [] + [Ins1.op] == [Ins1.op] && [] + [Ins1] == [Ins1];
    SameState(DoWrite(Start, 0, Ins1.op), Wrote1);
  }

  lemma ToFetched1()
    ensures Leads(Wrote1, Fetch(0), Fetched1) && Ordered(Wrote1, Fetch(0))
  {
    SameState(DoFetch(Wrote1, 0), Fetched1);
  }

  lemma ListsMerged()
    ensures MergedLists(Fetched1, 0) == map[0 := {1}] && Giants(Fetched1, map[0 := {1}]) == {}
  {
    hide MergedLists, Giants;
    OneMerged(Fetched1, 0, Ins1);
    assert {} + {1} == {1} && |{1}| == 1;
    NoGiants(Fetched1, map[0 := {1}]);
  }

  lemma ToMerged1()
    ensures Leads(Fetched1, Merge(0, TO_NEXT), Merged1) && Ordered(Fetched1, Merge(0, TO_NEXT))
  {
    hide MergedLists, Giants, DoMerge;
    ListsMerged();
    PlainMerge(Fetched1, 0, TO_NEXT, 1, map[0 := {1}]);
    assert Expected(Fetched1, TO_NEXT) == map[0 := 0];
    SameState(DoMerge(Fetched1, 0, TO_NEXT), Merged1);
  }

  lemma ToInstalled1()
    ensures Leads(Merged1, Install(0), Installed1) && Ordered(Merged1, Install(0))
  {
    hide Leads;
    Installed(Merged1, 0);
    assert Merged1.smo[0 := Job1.(phase := Forwarding)] == Installed1.smo;
  }

  lemma ToHeld()
    ensures Leads(Installed1, Write(0, Ins2.op), Held) && Ordered(Installed1, Write(0, Ins2.op))
  {
    assert [Ins1.op] + [Ins2.op] == [Ins1.op, Ins2.op] && [] + [Ins2] == [Ins2];
    SameState(DoWrite(Installed1, 0, Ins2.op), Held);
  }

  lemma ToStray1()
    ensures Leads(Held, FetchStray(0), Stray1) && Ordered(Held, FetchStray(0))
  {
    hide Leads;
    NoStrays(Held, 0);
    assert Held.smo[0 := Job1.(phase := Draining, tail := map[0 := 1])] == Stray1.smo;
  }

  lemma ToSwitched1()
    ensures Leads(Stray1, Switch(0, 0), DoSwitch(Stray1, 0, 0)) && Ordered(Stray1, Switch(0, 0))
  {
  }

  lemma Before() returns (steps: seq<Step>)
    ensures Runs(Start, steps) && After(Start, steps) == Held
    ensures steps == [Write(0, Ins1.op), Fetch(0), Merge(0, TO_NEXT), Install(0), Write(0, Ins2.op)]
  {
    hide Leads, Ordered, Runs, After;
    StandStill(Start);
    ToWrote1();
    ToFetched1();
    ToMerged1();
    ToInstalled1();
    ToHeld();
    steps := Further(Start, [], Start, Write(0, Ins1.op), Wrote1);
    steps := Further(Start, steps, Wrote1, Fetch(0), Fetched1);
    steps := Further(Start, steps, Fetched1, Merge(0, TO_NEXT), Merged1);
    steps := Further(Start, steps, Merged1, Install(0), Installed1);
    steps := Further(Start, steps, Installed1, Write(0, Ins2.op), Held);
  }

  lemma Meanwhile() returns (steps: seq<Step>)
    ensures Runs(Held, steps) && steps == [FetchStray(0), Switch(0, 0)]
  {
    hide Leads, Ordered, Runs, After;
    StandStill(Held);
    ToStray1();
    ToSwitched1();
    steps := Further(Held, [], Held, FetchStray(0), Stray1);
    steps := Further(Held, steps, Stray1, Switch(0, 0), DoSwitch(Stray1, 0, 0));
  }

  lemma StandStill(s: State)
    ensures Runs(s, []) && After(s, []) == s
  {
  }

  lemma FirstIsBuried()
    ensures Buried(Held, 0, 1)
  {
    assert [Ins1.op, Ins2.op][1..] == [Ins2.op] && [Ins1.op, Ins2.op][..1] == [Ins1.op];
    NewestOfOne(Ins2.op, 1);
    NewestOfOne(Ins1.op, 1);
  }

  /** A run in which a reader that walks late misses an edge that was there before it took
   *  its snapshot. */
  lemma LateReaderMisses() returns (before: seq<Step>, during: seq<Step>)
    ensures Initial(Start) && Runs(Start, before) && After(Start, before) == Held && Runs(Held, during)
    ensures before == [Write(0, Ins1.op), Fetch(0), Merge(0, TO_NEXT), Install(0), Write(0, Ins2.op)]
    ensures during == [FetchStray(0), Switch(0, 0)]
    ensures Cut(Held, 0) <= Floor(Held, during, 0, Cut(Held, 0), Top(Held, 0)) <= Top(Held, 0)
    ensures LateRead(Held, during, 0) != Run(Base(Start, 0), WritesTo(before, 0))
  {
    hide Inv, Runs, After, Floor, LateRead, MidDrain, Buried, WritesTo, InitialTruth, Initial, Run, Base;
    StartIsInitial();
    InitialInv(Start);
    before := Before();
    during := Meanwhile();
    var truth := RunKeeps(Start, InitialTruth(Start), before);
    StartTruth();
    LateReaderExact(Held, truth, during, 0);
    FirstIsBuried();
    assert Switches(during[1], 0);
  }

  lemma StartTruth()
    ensures 0 in InitialTruth(Start) && InitialTruth(Start)[0] == Base(Start, 0)
  {
  }
}
