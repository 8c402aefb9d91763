/** The consolidation protocol over whole runs: what a read returns. */
module ConsolidationRuns {
  import opened Replay
  import opened Consolidation

  lemma StepKeeps(s: State, truth: Truth, t: Step)
    requires Inv(s, truth) && Enabled(s, t) && Ordered(s, t)
    ensures Inv(Next(s, t), NextTruth(truth, t))
  {
    match t
    case Write(v, op) => WriteKeeps(s, truth, v, op);
    case Fetch(p) => FetchKeeps(s, truth, p);
    case Merge(p, target) => MergeKeeps(s, truth, p, target);
    case Install(p) => InstallKeeps(s, truth, p);
    case FetchStray(p) => FetchStrayKeeps(s, truth, p);
    case Drain(p) => DrainKeeps(s, truth, p);
    case Switch(p, w) => SwitchKeeps(s, truth, p, w);
    case Detach(p) => DetachKeeps(s, truth, p);
  }

  /** A database before any write: every page serves what it stores. */
  ghost predicate Initial(s: State) {
    && s.log == map[] && s.smo == map[]
    && s.chain.Keys == s.loc.Keys && (forall v :: v in s.loc ==> s.chain[v] == [])
    && (forall v :: v in s.loc ==> s.loc[v] in s.csr && v in s.csr[s.loc[v]])
    && (forall p, v :: p in s.csr && v in s.csr[p] ==> v in s.loc && s.loc[v] == p)
    && (forall v :: v in s.giant ==> v in s.giantList)
  }

  ghost function InitialTruth(s: State): Truth {
    map v | v in s.loc :: Base(s, v)
  }

  lemma InitialInv(s: State)
    requires Initial(s)
    ensures Inv(s, InitialTruth(s))
  {
    forall v | v in s.loc ensures ViewHolds(s, InitialTruth(s), v) {
      assert ViewOf(s, v) == Settled(Base(s, v), [], []);
    }
  }

  /** A finite run in which every step is enabled and respects the schedule hypotheses. */
  ghost predicate Runs(s: State, steps: seq<Step>)
    decreases |steps|
  {
    steps == [] || (Enabled(s, steps[0]) && Ordered(s, steps[0]) && Runs(Next(s, steps[0]), steps[1..]))
  }

  ghost function After(s: State, steps: seq<Step>): State
    requires Runs(s, steps)
    decreases |steps|
  {
    if steps == [] then s else After(Next(s, steps[0]), steps[1..])
  }

  /** The writes of a run to one vertex, in latch order. */
  function WritesTo(steps: seq<Step>, v: Vid): seq<Op>
    decreases |steps|
  {
    if steps == [] then []
    else (if steps[0].Write? && steps[0].v == v then [steps[0].op] else []) + WritesTo(steps[1..], v)
  }

  lemma WritesCons(truth: Truth, steps: seq<Step>, v: Vid)
    requires steps != [] && v in truth
    ensures v in NextTruth(truth, steps[0])
    ensures Run(NextTruth(truth, steps[0])[v], WritesTo(steps[1..], v)) == Run(truth[v], WritesTo(steps, v))
  {
    var rest := WritesTo(steps[1..], v);
    if steps[0].Write? && steps[0].v == v {
      RunConcat(truth[v], [steps[0].op], rest);
      RunSnoc(truth[v], [], steps[0].op);
      assert [] + [steps[0].op] == [steps[0].op];
    } else {
      assert [] + rest == rest;
    }
  }

  lemma NextTruthKeys(s: State, truth: Truth, t: Step)
    requires Enabled(s, t) && truth.Keys == s.loc.Keys
    ensures NextTruth(truth, t).Keys == truth.Keys
  {
  }

  lemma {:induction false} RunKeeps(s: State, truth: Truth, steps: seq<Step>) returns (end: Truth)
    requires Inv(s, truth) && Runs(s, steps)
    ensures Inv(After(s, steps), end)
    ensures end.Keys == truth.Keys
    ensures forall v :: v in truth ==> end[v] == Run(truth[v], WritesTo(steps, v))
    decreases |steps|
  {
    if steps == [] {
      end := truth;
    } else {
      StepKeeps(s, truth, steps[0]);
      NextTruthKeys(s, truth, steps[0]);
      end := RunKeeps(Next(s, steps[0]), NextTruth(truth, steps[0]), steps[1..]);
      forall v | v in truth ensures end[v] == Run(truth[v], WritesTo(steps, v)) {
        WritesCons(truth, steps, v);
      }
    }
  }

  /** The one moment at which an edge can be misread: some record of it has been
   *  re-inserted while a later one still waits, and they disagree. */
  ghost predicate MidDrain(s: State, v: Vid, e: Vid)
    requires v in s.loc
  {
    var w := ViewOf(s, v);
    w.Moving? && Newest(w.moved, e).Some? && Newest(w.waiting, e).Some?
      && Newest(w.moved, e) != Newest(w.waiting, e)
  }

  lemma ViewReadEdge(w: View, t: set<Vid>, e: Vid)
    requires ViewOk(w, t)
    ensures (e in Run(w.base, w.chain) <==> e in t)
        <==> !(w.Moving? && Newest(w.moved, e).Some? && Newest(w.waiting, e).Some?
               && Newest(w.moved, e) != Newest(w.waiting, e))
  {
    RunIsVisible(w.base, w.chain, e);
    match w
    case Settled(_, _, _) =>
    case Taken(_, _, _, _) =>
    case Prepared(_, _, _, _, _) =>
    case Moving(_, _, _, _, _, _) =>
      assert EdgeOk(w, t, e);
      if Newest(w.moved, e).Some? && Newest(w.waiting, e).Some? {
        assert Newest(w.moved, e).value == Insert || Newest(w.moved, e).value == Delete;
        assert Newest(w.waiting, e).value == Insert || Newest(w.waiting, e).value == Delete;
      }
  }

  lemma ReadIsView(s: State, v: Vid)
    requires v in s.loc
    ensures Read(s, v) == Run(ViewOf(s, v).base, ViewOf(s, v).chain)
  {
  }

  lemma ReadEdge(s: State, truth: Truth, v: Vid, e: Vid)
    requires ViewHolds(s, truth, v)
    ensures (e in Read(s, v) <==> e in truth[v]) <==> !MidDrain(s, v, e)
  {
    ReadIsView(s, v);
    ViewReadEdge(ViewOf(s, v), truth[v], e);
  }

  /** A read is right exactly when no edge of the vertex is in the middle of a drain. */
  lemma ReadExact(s: State, truth: Truth, v: Vid)
    requires ViewHolds(s, truth, v)
    ensures Read(s, v) == truth[v] <==> forall e :: !MidDrain(s, v, e)
  {
    if Read(s, v) == truth[v] {
      forall e ensures !MidDrain(s, v, e) {
        ReadEdge(s, truth, v, e);
      }
    }
    if forall e :: !MidDrain(s, v, e) {
      forall e ensures e in Read(s, v) <==> e in truth[v] {
        ReadEdge(s, truth, v, e);
      }
    }
  }

  /** Consolidation is invisible.  After any run from an initial database, a read
   *  of `v` returns the initial list with the writes to `v` applied in latch
   *  order, exactly when no edge of `v` is in the middle of being drained. */
  lemma ConsolidationInvisible(s: State, steps: seq<Step>, v: Vid)
    requires Initial(s) && Runs(s, steps) && v in s.loc
    ensures v in After(s, steps).loc
    ensures Read(After(s, steps), v) == Run(Base(s, v), WritesTo(steps, v))
        <==> forall e :: !MidDrain(After(s, steps), v, e)
  {
    InitialInv(s);
    var end := RunKeeps(s, InitialTruth(s), steps);
    InvVertex(After(s, steps), end, v);
    ReadExact(After(s, steps), end, v);
  }
}
