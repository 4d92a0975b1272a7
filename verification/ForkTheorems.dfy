/** Completion and bounded bypass of the fork protocol. */
module ForkTheorems {
  import opened Sums
  import opened Network
  import opened ForkProtocol
  import opened ForkSafety
  import opened ForkOrder
  import opened ForkProgress
  import opened ForkTermination

  lemma QuotaWeight(n: nat, i: nat)
    requires i <= n
    ensures EntryWeight(n, 5 * i) <= 30 * (n * n)
  {
    var d := n - i;
    assert n * n == n * i + n * d && n * d >= 0;
    assert EntryWeight(n, 5 * i) == 30 * (n * i);
  }

  lemma InitialNode(n: nat, i: int)
    requires Child(n, i)
    ensures NodeWeights(Init(n))(i) <= 30 * (n * n) + 2
  {
    QuotaWeight(n, i);
  }

  lemma Cube(n: nat)
    ensures n * (30 * (n * n) + 2) == 30 * (n * n * n) + 2 * n
  {
  }

  lemma InitialNodes(n: nat)
    ensures Sum(n, NodeWeights(Init(n))) <= 30 * (n * n * n) + 2 * n
  {
    var most := 30 * (n * n) + 2;
    forall i | Child(n, i)
      ensures NodeWeights(Init(n))(i) <= most
    {
      InitialNode(n, i);
    }
    SumBounded(n, NodeWeights(Init(n)), (i: int) => most);
    SumConstant(n, (i: int) => most, most);
    Cube(n);
  }

  lemma InitialGrid(n: nat)
    ensures Grid(n, Weights(Init(n))) <= 4 * (n * n)
  {
    var w := Weights(Init(n));
    forall a, b | Child(n, a) && Child(n, b)
      ensures w(a, b) <= 4
    {
    }
    GridBounded(n, w, 4);
  }

  /** Every run is finite, with an explicit bound on its length, and a run that cannot
      be continued has completed all 5 * id critical sections of every child. */
  lemma {:induction false} EveryMaximalRunCompletes(n: nat, steps: seq<Step>)
    requires Runs(Init(n), steps)
    ensures |steps| <= 30 * (n * n * n) + 4 * (n * n) + 2 * n
    ensures Stuck(After(Init(n), steps)) <==> Finished(After(Init(n), steps))
  {
    InitOk(n);
    RunIsBounded(Init(n), steps);
    InitialNodes(n);
    InitialGrid(n);
    StuckIffFinished(After(Init(n), steps));
  }

  // ---- bounded bypass ----

  /** The other end's request has been handled and it has not entered since: the fork
      is clean here next to the request, under way to it, or clean there. */
  ghost predicate Owes(e: Edge) {
    (e.a.fork && !e.a.dirty && e.a.token) || Reply in e.ab || (e.b.fork && !e.b.dirty)
  }

  /** Critical sections child q has entered so far. */
  ghost function Entered(s: State, q: int): int
    requires Wf(s) && Child(s.n, q)
  {
    s.procs[q].iter + Bit(s.procs[q].phase == Critical)
  }

  /** p is outside its critical section in every state a step is taken from. */
  ghost predicate Waits(s: State, steps: seq<Step>, p: int)
    requires Wf(s) && Runs(s, steps) && Child(s.n, p)
    decreases |steps|
  {
    steps == [] || (s.procs[p].phase != Critical && Waits(Apply(s, steps[0]), steps[1..], p))
  }

  /** The entries q may still make before p. */
  ghost function Slack(e: Edge): int {
    Bit(e.a.fork && e.a.phase != Critical)
  }

  lemma OwesUnderOwnStep(s: State, step: Step, p: int)
    requires Inv(s) && Enabled(s, step) && Pair(s.n, step.i, p)
    requires Owes(EdgeOf(s, step.i, p))
    ensures Owes(StepEdge(s, step, p))
    ensures Bit(StepEdge(s, step, p).a.phase == Critical) + Slack(StepEdge(s, step, p)) + Bit(step.ReleaseStep?) <=
            Bit(s.procs[step.i].phase == Critical) + Slack(EdgeOf(s, step.i, p))
  {
    var e := EdgeOf(s, step.i, p);
    EdgeFact(s, step.i, p);
    StepEdgeOk(s, step, p);
    match step
    case AskStep(i) =>
    case EnterStep(i) =>
    case ReleaseStep(i) =>
      CriticalQuiet(e);
    case ReceiveStep(i, from) =>
      if from == p {
        if e.a.phase == Polling {
          OwedIsQuiet(e);
          assert false;
        }
        ServeKeeps(e);
      }
  }

  /** While q owes p the fork, nothing from p is in flight to a q that is polling: this is
      what bounds the bypass. */
  lemma OwedIsQuiet(e: Edge)
    requires EdgeOk(e) && Owes(e) && e.a.phase == Polling
    ensures e.ba == []
  {
    if e.ba != [] {
      ShapeRest(e.ba);
    }
  }

  lemma OwesUnderPeerStep(s: State, step: Step, q: int)
    requires Inv(s) && Enabled(s, step) && Pair(s.n, step.i, q)
    requires s.procs[step.i].phase != Critical
    requires Owes(EdgeOf(s, q, step.i))
    ensures Owes(Flip(StepEdge(s, step, q)))
    ensures StepEdge(s, step, q).b == EndOf(s, q, step.i)
  {
    var e := EdgeOf(s, step.i, q);
    EdgeFact(s, step.i, q);
    assert Flip(e) == EdgeOf(s, q, step.i);
    match step
    case AskStep(i) =>
    case EnterStep(i) =>
    case ReceiveStep(i, from) =>
      if from == q {
        ShapeRest(e.ba);
        if e.a.phase != Polling { ServeKeeps(e); }
      }
  }

  /** One step while p is kept waiting: q still owes p, and uses up its one entry. */
  lemma OwesKept(s: State, step: Step, q: int, p: int)
    requires Inv(s) && Enabled(s, step) && Pair(s.n, q, p)
    requires Owes(EdgeOf(s, q, p)) && s.procs[p].phase != Critical
    ensures Owes(EdgeOf(Apply(s, step), q, p))
    ensures Entered(Apply(s, step), q) + Slack(EdgeOf(Apply(s, step), q, p)) <=
            Entered(s, q) + Slack(EdgeOf(s, q, p))
  {
    var s' := Apply(s, step);
    Uncrashed(s, step);
    if q == step.i {
      EdgeAfterStep(s, step, p);
      OwesUnderOwnStep(s, step, p);
      LocalProgress(s, step);
      assert EdgeOf(s', q, p).a.phase == s'.procs[q].phase;
    } else if p == step.i {
      EdgeAfterStep(s, step, q);
      OwesUnderPeerStep(s, step, q);
      assert EdgeOf(s', q, p) == Flip(EdgeOf(s', p, q));
    } else {
      OtherEdges(s, step, q, p);
    }
  }

  lemma {:induction false} OwedEntries(s: State, steps: seq<Step>, q: int, p: int)
    requires Inv(s) && Runs(s, steps) && Pair(s.n, q, p) && Waits(s, steps, p)
    requires Owes(EdgeOf(s, q, p))
    ensures Entered(After(s, steps), q) <= Entered(s, q) + Slack(EdgeOf(s, q, p))
    decreases |steps|
  {
    if steps != [] {
      InvKept(s, steps[0]);
      OwesKept(s, steps[0], q, p);
      OwedEntries(Apply(s, steps[0]), steps[1..], q, p);
    }
  }

  lemma HandlingOwes(s: State, q: int, p: int)
    requires Inv(s) && Enabled(s, ReceiveStep(q, p)) && s.ch(p, q)[0] == Request
    ensures Owes(StepEdge(s, ReceiveStep(q, p), p))
    ensures StepEdge(s, ReceiveStep(q, p), p).a.phase == Critical ==> s.procs[q].phase == Polling
  {
    EdgeFact(s, q, p);
    var e := EdgeOf(s, q, p);
    if e.a.phase == Polling {
      ReceiveKeeps(e, Calling);
    } else {
      ServeKeeps(e);
    }
  }

  /** From the moment q handles p's fork request until p next enters, q enters at
      most once. */
  lemma {:induction false} BoundedBypass(s: State, steps: seq<Step>, q: int, p: int)
    requires Reachable(s) && Pair(s.n, q, p) && Runs(s, steps)
    requires steps != [] && steps[0] == ReceiveStep(q, p) && s.ch(p, q)[0] == Request
    requires Waits(s, steps, p)
    ensures Entered(After(s, steps), q) <= Entered(s, q) + 1
  {
    ReachableInv(s);
    var step := steps[0];
    var s' := Apply(s, step);
    InvKept(s, step);
    Uncrashed(s, step);
    EdgeAfterStep(s, step, p);
    HandlingOwes(s, q, p);
    LocalProgress(s, step);
    OwedEntries(s', steps[1..], q, p);
    assert EdgeOf(s', q, p).a.phase == s'.procs[q].phase;
  }
}
