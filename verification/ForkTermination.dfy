/** Runs of the fork protocol are finite, and cost at most two messages per peer and
    critical section. */
module ForkTermination {
  import opened Sums
  import opened Network
  import opened ForkProtocol
  import opened ForkSafety
  import opened ForkOrder

  // ---- a quantity that every step decreases ----

  /** What one end of an edge can still cause: a dirty fork to give up, a request to
      send, messages in transit. */
  ghost function EndWeight(e: Edge): (w: int)
    ensures w >= 0
  {
    4 * Bit(e.a.fork && e.a.dirty) + 2 * Bit(!e.a.fork && e.a.token && e.a.phase != Serving) + 2 * |e.ab|
  }

  ghost function EdgeWeight(e: Edge): int {
    EndWeight(e) + EndWeight(Flip(e))
  }

  function PhaseWeight(ph: Phase): int {
    if ph == Calling then 2 else if ph == Polling then 1 else 0
  }

  ghost function Weights(s: State): (int, int) -> int
    requires Wf(s)
  {
    (a: int, b: int) => if Pair(s.n, a, b) then EndWeight(EdgeOf(s, a, b)) else 0
  }

  /** Enough for everything a release can set in motion. */
  function EntryWeight(n: nat, left: int): (w: int)
    ensures left >= 0 ==> w >= 0
  {
    6 * n * left
  }

  ghost function NodeWeights(s: State): int -> int
    requires Wf(s)
  {
    i => if Child(s.n, i) then EntryWeight(s.n, Quota(i) - s.procs[i].iter) + PhaseWeight(s.procs[i].phase) else 0
  }

  ghost function Measure(s: State): int
    requires Wf(s)
  {
    Sum(s.n, NodeWeights(s)) + Grid(s.n, Weights(s))
  }

  /** How much a step of i may add to an edge at i. */
  function Allowance(step: Step, b: int): int {
    if b == step.i then 0
    else if step.ReleaseStep? then 6
    else if step.ReceiveStep? && step.from == b then -2
    else 0
  }

  lemma ReceiveWeight(e: Edge, ph: Phase)
    requires EdgeOk(e) && e.a.phase == Polling && e.ba != [] && ph != Serving
    ensures EdgeWeight(ReceiveEdge(e, ph)) <= EdgeWeight(e) - 2
  {
  }

  lemma ServeWeight(e: Edge)
    requires EdgeOk(e) && e.a.phase == Serving && e.ba != []
    ensures EdgeWeight(ServeEdge(e)) <= EdgeWeight(e) - 2
  {
    ServeKeeps(e);
  }

  lemma ReleaseWeight(e: Edge, last: bool)
    requires EdgeOk(e) && e.a.phase == Critical
    ensures EdgeWeight(ReleaseEdge(e, last)) <= EdgeWeight(e) + 6
  {
    CriticalQuiet(e);
  }

  lemma StepWeight(s: State, step: Step, b: int)
    requires Inv(s) && Enabled(s, step) && Pair(s.n, step.i, b)
    ensures EdgeWeight(StepEdge(s, step, b)) <= EdgeWeight(EdgeOf(s, step.i, b)) + Allowance(step, b)
  {
    var e := EdgeOf(s, step.i, b);
    EdgeFact(s, step.i, b);
    match step
    case AskStep(i) =>
    case EnterStep(i) =>
    case ReleaseStep(i) => ReleaseWeight(e, s.procs[i].iter + 1 >= Quota(i));
    case ReceiveStep(i, from) =>
      var m := s.ch(from, i)[0];
      Uncrashed(s, step);
      if e.a.phase == Polling {
        ReceivePhase(s.procs[i], s.n, from, m);
        if b == from { ReceiveWeight(e, Local(s, step).proc.phase); }
      } else {
        ServePhase(s.procs[i], s.n, from, m);
        if b == from { ServeWeight(e); }
      }
  }

  /** The change of the grid is the sum of the changes of the edges at i. */
  lemma GridWeight(s: State, step: Step)
    requires Inv(s) && Enabled(s, step)
    ensures Grid(s.n, Weights(Apply(s, step))) <= Grid(s.n, Weights(s)) + Sum(s.n, b => Allowance(step, b))
  {
    var s' := Apply(s, step);
    var f, g := Weights(s), Weights(s');
    forall a, b | Pair(s.n, a, b) && a != step.i && b != step.i
      ensures f(a, b) == g(a, b)
    {
      OtherEdges(s, step, a, b);
    }
    GridChange(s.n, f, g, step.i);
    forall b | Child(s.n, b)
      ensures Cross(f, g, step.i, b) <= Allowance(step, b)
    {
      if b != step.i {
        Uncrashed(s, step);
        EdgeAfterStep(s, step, b);
        StepWeight(s, step, b);
        assert EdgeOf(s', b, step.i) == Flip(EdgeOf(s', step.i, b));
        assert EdgeOf(s, b, step.i) == Flip(EdgeOf(s, step.i, b));
      }
    }
    SumBounded(s.n, b => Cross(f, g, step.i, b), b => Allowance(step, b));
  }

  lemma AllowanceTotal(n: nat, step: Step)
    requires Child(n, step.i) && (step.ReceiveStep? ==> Pair(n, step.i, step.from))
    ensures Sum(n, b => Allowance(step, b)) ==
            if step.ReleaseStep? then 6 * (n - 1) else if step.ReceiveStep? then -2 else 0
  {
    var all := (b: int) => Allowance(step, b);
    var zero := (b: int) => 0;
    var six := (b: int) => 6;
    SumConstant(n, zero, 0);
    SumConstant(n, six, 6);
    if step.ReleaseStep? {
      SumChange(n, six, all, step.i);
    } else if step.ReceiveStep? {
      SumChange(n, zero, all, step.from);
    } else {
      SumEqual(n, zero, all);
    }
  }

  lemma LocalProgress(s: State, step: Step)
    requires Wf(s) && Enabled(s, step) && Local(s, step).proc.phase != Crashed
    ensures var p, q := s.procs[step.i], Local(s, step).proc;
            q.iter == p.iter + Bit(step.ReleaseStep?) &&
            PhaseWeight(q.phase) <= PhaseWeight(p.phase) +
              if step.ReleaseStep? then 2 else if step.ReceiveStep? then 1 else -1
  {
    if step.ReceiveStep? {
      var m := s.ch(step.from, step.i)[0];
      if s.procs[step.i].phase == Polling {
        ReceivePhase(s.procs[step.i], s.n, step.from, m);
      } else {
        ServePhase(s.procs[step.i], s.n, step.from, m);
      }
    }
  }

  lemma NodeWeight(s: State, step: Step)
    requires Wf(s) && Enabled(s, step) && Local(s, step).proc.phase != Crashed
    ensures Sum(s.n, NodeWeights(Apply(s, step))) <= Sum(s.n, NodeWeights(s)) +
            if step.ReleaseStep? then 2 - 6 * s.n else if step.ReceiveStep? then 1 else -1
  {
    var i := step.i;
    LocalProgress(s, step);
    SumChange(s.n, NodeWeights(s), NodeWeights(Apply(s, step)), i);
    var left := Quota(i) - s.procs[i].iter;
    assert EntryWeight(s.n, left - 1) == EntryWeight(s.n, left) - 6 * s.n;
  }

  /** Every step strictly decreases the measure, which never goes below zero. */
  lemma MeasureDecreases(s: State, step: Step)
    requires Inv(s) && Enabled(s, step)
    ensures Measure(Apply(s, step)) < Measure(s)
  {
    Uncrashed(s, step);
    GridWeight(s, step);
    AllowanceTotal(s.n, step);
    NodeWeight(s, step);
  }

  lemma MeasureNonNegative(s: State)
    requires Inv(s)
    ensures Measure(s) >= 0
  {
    GridNonNegative(s.n, Weights(s));
    NodesNonNegative(s);
  }

  lemma NodesNonNegative(s: State)
    requires Wf(s) && NodesOk(s)
    ensures Sum(s.n, NodeWeights(s)) >= 0
  {
    forall i | Child(s.n, i)
      ensures NodeWeights(s)(i) >= 0
    {
      assert NodeOk(s, i);
    }
    SumZero(s.n, NodeWeights(s));
  }

  /** A run from s has at most Measure(s) steps. */
  lemma {:induction false} RunIsBounded(s: State, steps: seq<Step>)
    requires Inv(s) && Runs(s, steps)
    ensures |steps| <= Measure(s)
    decreases |steps|
  {
    if steps == [] {
      MeasureNonNegative(s);
    } else {
      InvKept(s, steps[0]);
      MeasureDecreases(s, steps[0]);
      RunIsBounded(Apply(s, steps[0]), steps[1..]);
    }
  }
}
