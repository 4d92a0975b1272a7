/** Runs of the fork protocol: exclusion, fork conservation, the precedence order,
    and the absence of stuck states. */
module ForkOrder {
  import opened Network
  import opened ForkProtocol
  import opened ForkSafety

  ghost predicate Runs(s: State, steps: seq<Step>)
    requires Wf(s)
    decreases |steps|
  {
    steps == [] || (Enabled(s, steps[0]) && Runs(Apply(s, steps[0]), steps[1..]))
  }

  ghost function After(s: State, steps: seq<Step>): (s': State)
    requires Wf(s) && Runs(s, steps)
    ensures Wf(s') && s'.n == s.n
    decreases |steps|
  {
    if steps == [] then s else After(Apply(s, steps[0]), steps[1..])
  }

  ghost predicate Reachable(s: State) {
    exists steps :: Runs(Init(s.n), steps) && After(Init(s.n), steps) == s
  }

  lemma {:induction false} RunKeepsInv(s: State, steps: seq<Step>)
    requires Inv(s) && Runs(s, steps)
    ensures Inv(After(s, steps))
    decreases |steps|
  {
    if steps != [] {
      InvKept(s, steps[0]);
      RunKeepsInv(Apply(s, steps[0]), steps[1..]);
    }
  }

  lemma ReachableInv(s: State)
    requires Reachable(s)
    ensures Inv(s)
  {
    var steps :| Runs(Init(s.n), steps) && After(Init(s.n), steps) == s;
    InitOk(s.n);
    RunKeepsInv(Init(s.n), steps);
  }

  // ---- safety ----

  /** At most one child is between `request_cs` and `release_cs`. */
  lemma MutualExclusion(s: State, i: int, j: int)
    requires Reachable(s) && Child(s.n, i) && Child(s.n, j)
    requires s.procs[i].phase == Critical && s.procs[j].phase == Critical
    ensures i == j
  {
    ReachableInv(s);
    if i != j {
      CriticalApart(EdgeOf(s, i, j));
    }
  }

  /** No assertion and no message type check of the source ever fails. */
  lemma NoCrash(s: State, i: int)
    requires Reachable(s) && Child(s.n, i)
    ensures s.procs[i].phase != Crashed
  {
    ReachableInv(s);
    assert NodeOk(s, i);
  }

  /** The entry test comes down to holding every fork: a dirty fork that has been asked
      for has been given up before. */
  lemma EntryTestIsForks(s: State, i: int)
    requires Reachable(s) && Child(s.n, i)
    ensures Wf(s) && (CanEnter(s.procs[i], s.n) <==> forall c :: Pair(s.n, i, c) ==> s.procs[i].fork[c])
  {
    ReachableInv(s);
    forall c | Pair(s.n, i, c)
      ensures !(s.procs[i].fork[c] && s.procs[i].dirty[c] && s.procs[i].token[c])
    {
      EdgeFact(s, i, c);
    }
  }

  /** Every pair shares exactly one fork and at most one request token; while both
      children are unfinished there is exactly one. */
  lemma ForkAndTokenConservation(s: State, i: int, j: int)
    requires Reachable(s) && Pair(s.n, i, j)
    ensures Forks(EdgeOf(s, i, j)) == 1
    ensures Tokens(EdgeOf(s, i, j)) <= 1
    ensures s.procs[i].phase != Serving && s.procs[j].phase != Serving ==> Tokens(EdgeOf(s, i, j)) == 1
  {
    ReachableInv(s);
    assert EdgeOk(EdgeOf(s, i, j));
  }

  /** A request in transit from j finds the fork at its destination, or behind a fork
      that travels ahead of it in the same channel. */
  lemma ForkAheadOfRequest(s: State, j: int, i: int, k: int)
    requires Reachable(s) && Pair(s.n, j, i)
    requires 0 <= k < |s.ch(j, i)| && s.ch(j, i)[k] == Request
    ensures s.procs[i].fork[j] || exists l :: 0 <= l < k && s.ch(j, i)[l] == Reply
  {
    ReachableInv(s);
    assert EdgeOk(EdgeOf(s, j, i));
    if !s.procs[i].fork[j] {
      assert s.ch(j, i) == [Reply, Request];
      assert s.ch(j, i)[0] == Reply;
    }
  }

  // ---- precedence ----

  /** The other end has priority: the fork is dirty here, under way to it, or clean there. */
  ghost predicate Yields(e: Edge) {
    (e.a.fork && e.a.dirty) || Reply in e.ab || (e.b.fork && !e.b.dirty)
  }

  /** v has priority over u. */
  ghost predicate Before(s: State, v: int, u: int)
    requires Wf(s)
  {
    Pair(s.n, v, u) && Yields(EdgeOf(s, u, v))
  }

  ghost predicate StrictTotalOrder(s: State)
    requires Wf(s)
  {
    && (forall v, u :: Pair(s.n, v, u) ==> (Before(s, v, u) <==> !Before(s, u, v)))
    && (forall x, y, z :: Before(s, x, y) && Before(s, y, z) ==> Before(s, x, z))
  }

  lemma OnePriority(e: Edge)
    requires EdgeOk(e)
    ensures Yields(e) != Yields(Flip(e))
  {
  }

  lemma YieldsUnderReceive(e: Edge, ph: Phase)
    requires EdgeOk(e) && e.a.phase == Polling && e.ba != []
    ensures Yields(ReceiveEdge(e, ph)) == Yields(e)
  {
    ShapeRest(e.ba);
  }

  lemma YieldsUnderServe(e: Edge)
    requires EdgeOk(e) && e.a.phase == Serving && e.ba != []
    ensures Yields(ServeEdge(e)) == Yields(e)
  {
    ServeKeeps(e);
    ShapeRest(e.ba);
    assert e.ba == [e.ba[0]] + e.ba[1..];
  }

  lemma YieldsUnderStep(s: State, step: Step, b: int)
    requires Inv(s) && Enabled(s, step) && Pair(s.n, step.i, b)
    ensures Yields(StepEdge(s, step, b)) == (step.ReleaseStep? || Yields(EdgeOf(s, step.i, b)))
  {
    var e := EdgeOf(s, step.i, b);
    assert EdgeOk(e);
    match step
    case AskStep(i) =>
    case EnterStep(i) =>
    case ReleaseStep(i) => CriticalQuiet(e);
    case ReceiveStep(i, from) =>
      if b == from {
        if e.a.phase == Polling {
          YieldsUnderReceive(e, Local(s, step).proc.phase);
        } else {
          YieldsUnderServe(e);
        }
      }
  }

  /** A release moves the releasing child to last place; no other step changes the order. */
  lemma PrecedenceUnderStep(s: State, step: Step, v: int, u: int)
    requires Inv(s) && Enabled(s, step) && Pair(s.n, v, u)
    ensures Before(Apply(s, step), v, u) <==>
            if step.ReleaseStep? && u == step.i then true
            else if step.ReleaseStep? && v == step.i then false
            else Before(s, v, u)
  {
    if u != step.i && v != step.i {
      OtherEdges(s, step, u, v);
    } else {
      var b := if u == step.i then v else u;
      Uncrashed(s, step);
      EdgeAfterStep(s, step, b);
      YieldsUnderStep(s, step, b);
      if v == step.i {
        OnePriority(EdgeOf(s, v, u));
        EdgeKept(s, step, v, u);
        OnePriority(EdgeOf(Apply(s, step), v, u));
      }
    }
  }

  lemma OrderKept(s: State, step: Step)
    requires Inv(s) && Enabled(s, step) && StrictTotalOrder(s)
    ensures StrictTotalOrder(Apply(s, step))
  {
    forall v, u | Pair(s.n, v, u)
      ensures Before(Apply(s, step), v, u) <==>
              if step.ReleaseStep? && u == step.i then true
              else if step.ReleaseStep? && v == step.i then false
              else Before(s, v, u)
    {
      PrecedenceUnderStep(s, step, v, u);
    }
  }

  lemma {:induction false} RunKeepsOrder(s: State, steps: seq<Step>)
    requires Inv(s) && StrictTotalOrder(s) && Runs(s, steps)
    ensures StrictTotalOrder(After(s, steps))
    decreases |steps|
  {
    if steps != [] {
      InvKept(s, steps[0]);
      OrderKept(s, steps[0]);
      RunKeepsOrder(Apply(s, steps[0]), steps[1..]);
    }
  }

  /** Initially priority is the order of ids. */
  lemma InitialOrder(n: nat)
    ensures forall v, u :: Pair(n, v, u) ==> (Before(Init(n), v, u) <==> v < u)
    ensures StrictTotalOrder(Init(n))
  {
  }

  /** In every reachable state precedence is a strict total order on the children. */
  lemma PrecedenceIsTotalOrder(s: State)
    requires Reachable(s)
    ensures Wf(s) && StrictTotalOrder(s)
  {
    ReachableInv(s);
    var steps :| Runs(Init(s.n), steps) && After(Init(s.n), steps) == s;
    InitOk(s.n);
    InitialOrder(s.n);
    RunKeepsOrder(Init(s.n), steps);
  }
}
