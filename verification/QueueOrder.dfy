/** Runs of the replicated queue protocol: exclusion, grants in timestamp order, and the
    exact condition under which no run gets stuck early. */
module QueueOrder {
  import opened Sums
  import opened Network
  import opened Stamps
  import opened QueueProtocol
  import opened QueueSafety
  import opened QueueSystem
  import opened QueueInvariant

  ghost predicate Runs(s: State, steps: seq<Step>)
    requires Wf(s)
    decreases |steps|
  {
    steps == [] || (Enabled(s, steps[0]) && Runs(Apply(s, steps[0]), steps[1..]))
  }

  ghost function After(s: State, steps: seq<Step>): (s': State)
    requires Wf(s) && Runs(s, steps)
    ensures Wf(s') && s'.n == s.n
    decreases |steps|
  {
    if steps == [] then s else After(Apply(s, steps[0]), steps[1..])
  }

  ghost predicate Reachable(s: State) {
    exists steps :: Runs(Init(s.n), steps) && After(Init(s.n), steps) == s
  }

  lemma {:induction false} RunKeepsInv(s: State, steps: seq<Step>)
    requires Inv(s) && Runs(s, steps)
    ensures Inv(After(s, steps))
    decreases |steps|
  {
    if steps != [] {
      InvKept(s, steps[0]);
      RunKeepsInv(Apply(s, steps[0]), steps[1..]);
    }
  }

  lemma ReachableInv(s: State)
    requires Reachable(s)
    ensures Inv(s)
  {
    var steps :| Runs(Init(s.n), steps) && After(Init(s.n), steps) == s;
    InitOk(s.n);
    RunKeepsInv(Init(s.n), steps);
  }

  /** At most one child is between `request_cs` and `release_cs`. */
  lemma MutualExclusion(s: State, i: int, j: int)
    requires Reachable(s) && Child(s.n, i) && Child(s.n, j)
    ensures s.procs[i].phase == Critical && s.procs[j].phase == Critical ==> i == j
  {
    ReachableInv(s);
    if i != j {
      CriticalApart(EdgeOf(s, i, j));
    }
  }

  /** Over any run, entries occur in strictly increasing order of (timestamp, id). */
  lemma OrderedGrants(s: State)
    requires Reachable(s)
    ensures Increasing(s.log)
  {
    ReachableInv(s);
  }

  /** No assertion and no message type check of the source ever fails. */
  lemma NoCrash(s: State, i: int)
    requires Reachable(s) && Child(s.n, i)
    ensures s.procs[i].phase != Crashed
  {
    ReachableInv(s);
    assert NodeOk(s, i);
  }

  /** A pending request is, for each peer, in exactly one place: under way, answered with
      the reply under way, or counted; the counter is the number of the last kind. */
  lemma ReplyAccounting(s: State, i: int, j: int)
    requires Reachable(s) && Pair(s.n, i, j)
    requires s.procs[i].queue[i] != 0 && s.procs[i].phase != Critical
    ensures Count(s.ch(i, j), ARequest) + Count(s.ch(j, i), AReply) + Bit(Replied(s, i, j)) == 1
    ensures s.procs[i].replies == RepliedCount(s, i)
  {
    ReachableInv(s);
    EdgeFact(s, i, j);
    assert NodeOk(s, i);
  }

  /** A peer is counted from the receipt of its reply to the release, whatever interrupts
      the call in between. */
  lemma CountedIsReceived(s: State, step: Step, i: int, j: int)
    requires Inv(s) && Enabled(s, step) && Pair(s.n, i, j)
    ensures Replied(Apply(s, step), i, j) <==>
            step != ReleaseStep(i) && (Replied(s, i, j) || (step == ReceiveStep(i, j) && s.ch(j, i)[0].Reply?))
  {
    if step.i == i {
      StageAfter(s, step, j);
      EdgeFact(s, i, j);
    } else {
      SameReplies(s, step, i, j);
    }
  }

  /** Replica agreement: the requests and releases in transit from i to j take j's entry
      for i to i's own entry, and meet an empty or full entry as the source asserts. */
  lemma ReplicaAgreement(s: State, i: int, j: int)
    requires Reachable(s) && Pair(s.n, i, j)
    ensures Agree(s.procs[j].queue[i], s.ch(i, j), s.procs[i].queue[i])
  {
    ReachableInv(s);
    EdgeFact(s, i, j);
  }

  /** The child inside holds the least of all pending requests of the system, not only of
      those its own queue shows. */
  lemma CriticalIsLeast(s: State, i: int, j: int)
    requires Reachable(s) && Pair(s.n, i, j) && s.procs[i].phase == Critical
    ensures s.procs[j].queue[j] != 0 ==> Less(s.procs[i].queue[i], i, s.procs[j].queue[j], j)
  {
    ReachableInv(s);
    EdgeFact(s, i, j);
  }

  // ---- progress ----

  ghost predicate Stuck(s: State)
    requires Wf(s)
  {
    forall step :: !Enabled(s, step)
  }

  ghost predicate Finished(s: State)
    requires Wf(s)
  {
    && (forall i :: Child(s.n, i) ==>
          s.procs[i].phase == Serving && s.procs[i].awaiting == 0 && s.procs[i].iter == Quota(i))
    && (forall i, j :: Pair(s.n, i, j) ==> s.ch(i, j) == [])
  }

  lemma NothingLeft(e: Edge)
    requires EdgeOk(e) && e.a.phase == Serving && e.b.phase == Serving && Count(e.ab, ADone) == 0
    ensures e.ab == []
  {
    if e.ab != [] {
      CountPresent(e.ab, e.ab[0]);
    }
  }

  /** A child that leaves the driver's closing loop leaves empty channels behind. */
  lemma ExitLeavesNothing(s: State, i: int)
    requires Inv(s) && Child(s.n, i)
    requires s.procs[i].phase == Serving && s.procs[i].awaiting == 0
    ensures forall j :: Pair(s.n, i, j) ==> s.procs[j].phase == Serving && s.ch(j, i) == []
  {
    var f := j => Bit(Awaited(s, i, j));
    SumZero(s.n, f);
    assert NodeOk(s, i);
    forall j | Pair(s.n, i, j)
      ensures s.procs[j].phase == Serving && s.ch(j, i) == []
    {
      assert f(j) == 0;
      EdgeFact(s, j, i);
      NothingLeft(EdgeOf(s, j, i));
    }
  }

  /** Nothing arrives for a child that has left, in any continuation of the run. */
  lemma {:induction false} ExitIsFinal(s: State, steps: seq<Step>, i: int)
    requires Inv(s) && Child(s.n, i) && Runs(s, steps)
    requires s.procs[i].phase == Serving && s.procs[i].awaiting == 0
    ensures After(s, steps).procs[i] == s.procs[i]
    ensures forall j :: Pair(s.n, i, j) ==> After(s, steps).ch(j, i) == []
    decreases |steps|
  {
    ExitLeavesNothing(s, i);
    if steps != [] {
      InvKept(s, steps[0]);
      LeftAlone(s, steps[0], i);
      ExitIsFinal(Apply(s, steps[0]), steps[1..], i);
    }
  }

  lemma LeftAlone(s: State, step: Step, i: int)
    requires Wf(s) && Enabled(s, step) && Child(s.n, i)
    requires s.procs[i].phase == Serving && s.procs[i].awaiting == 0
    ensures Apply(s, step).procs[i] == s.procs[i]
  {
  }

  lemma StuckIsQuiet(s: State)
    requires Inv(s) && Stuck(s)
    ensures forall i :: Child(s.n, i) ==> s.procs[i].phase == Polling || s.procs[i].phase == Serving
    ensures forall i, j :: Pair(s.n, j, i) ==> s.ch(j, i) == []
  {
    forall i | Child(s.n, i)
      ensures s.procs[i].phase == Polling || s.procs[i].phase == Serving
    {
      assert !Enabled(s, CallStep(i)) && !Enabled(s, ReleaseStep(i));
      assert NodeOk(s, i);
    }
    forall i, j | Pair(s.n, j, i)
      ensures s.ch(j, i) == []
    {
      assert !Enabled(s, ReceiveStep(i, j));
      AwaitingNonNegative(s, i);
      if s.procs[i].phase == Serving && s.procs[i].awaiting == 0 {
        ExitLeavesNothing(s, i);
      }
    }
  }

  lemma AwaitingNonNegative(s: State, i: int)
    requires Inv(s) && Child(s.n, i)
    ensures s.procs[i].awaiting >= 0
  {
    assert NodeOk(s, i);
    SumZero(s.n, j => Bit(Awaited(s, i, j)));
  }

  ghost predicate Waiting(s: State, i: int)
    requires Wf(s) && Child(s.n, i)
  {
    s.procs[i].phase == Polling
  }

  lemma {:induction false} LeastWaiting(s: State, k: nat) returns (v: int)
    requires Wf(s) && k <= s.n
    requires exists i :: 1 <= i <= k && Waiting(s, i)
    ensures 1 <= v <= k && Waiting(s, v)
    ensures forall u :: 1 <= u <= k && u != v && Waiting(s, u) ==> Less(s.procs[v].queue[v], v, s.procs[u].queue[u], u)
    decreases k
  {
    if exists i :: 1 <= i <= k - 1 && Waiting(s, i) {
      v := LeastWaiting(s, k - 1);
      if Waiting(s, k) && Less(s.procs[k].queue[k], k, s.procs[v].queue[v], v) {
        v := k;
      }
    } else {
      v := k;
    }
  }

  /** With nothing in transit, the least waiting request has been answered by all, and
      the replicas are exact. */
  lemma LeastIsAnswered(e: Edge)
    requires EdgeOk(e) && e.a.phase == Polling && e.ab == [] && e.ba == []
    ensures StageOf(e) == Counted && e.a.view == e.b.own
    ensures e.b.phase == Serving ==> e.b.own == 0
  {
  }

  ghost predicate AfterLeast(s: State, v: int, u: int)
    requires Wf(s) && Pair(s.n, v, u)
  {
    s.procs[u].phase == Serving || (Waiting(s, u) && Less(s.procs[v].queue[v], v, s.procs[u].queue[u], u))
  }

  lemma LeastHasEntered(s: State, v: int)
    requires Inv(s) && Child(s.n, v) && Waiting(s, v)
    requires forall i, j :: Pair(s.n, j, i) ==> s.ch(j, i) == []
    requires forall u :: Pair(s.n, v, u) ==> AfterLeast(s, v, u)
    ensures s.n == 1
  {
    var f := j => Bit(Replied(s, v, j));
    var q := s.procs[v].queue;
    forall j | Pair(s.n, v, j)
      ensures f(j) == 1 && (q[j] != 0 ==> Less(q[v], v, q[j], j))
    {
      assert AfterLeast(s, v, j);
      EdgeFact(s, v, j);
      LeastIsAnswered(EdgeOf(s, v, j));
    }
    SumFull(s.n, f, v);
    assert NodeOk(s, v);
    forall c | 1 <= c <= s.n && c != v && q[c] != 0
      ensures Less(q[v], v, q[c], c)
    {
      assert Pair(s.n, v, c);
    }
    TopIsLeast(q, s.n, v);
  }

  lemma StuckIsFinished(s: State)
    requires Inv(s) && Stuck(s) && s.n != 1
    ensures Finished(s)
  {
    StuckIsQuiet(s);
    if exists i :: 1 <= i <= s.n && Waiting(s, i) {
      var v := LeastWaiting(s, s.n);
      LeastHasEntered(s, v);
      assert false;
    }
    assert forall i :: Child(s.n, i) ==> !Waiting(s, i);
    forall i | Child(s.n, i)
      ensures s.procs[i].awaiting == 0 && s.procs[i].iter == Quota(i) && s.procs[i].phase == Serving
    {
      assert NodeOk(s, i);
      SumConstant(s.n, j => Bit(Awaited(s, i, j)), 0);
    }
  }

  /** A lone child never enters: the entry test follows a received message only. */
  lemma LoneChildWaits(s: State)
    requires Reachable(s) && s.n == 1
    ensures s.procs[1].phase == Calling || s.procs[1].phase == Polling
    ensures s.procs[1].iter == 0
  {
    var steps :| Runs(Init(s.n), steps) && After(Init(s.n), steps) == s;
    LoneRun(Init(1), steps);
  }

  lemma {:induction false} LoneRun(s: State, steps: seq<Step>)
    requires Wf(s) && Runs(s, steps) && s.n == 1
    requires (s.procs[1].phase == Calling || s.procs[1].phase == Polling) && s.procs[1].iter == 0
    ensures var p := After(s, steps).procs[1]; (p.phase == Calling || p.phase == Polling) && p.iter == 0
    decreases |steps|
  {
    if steps != [] {
      LoneRun(Apply(s, steps[0]), steps[1..]);
    }
  }

  /** A reachable state in which no step is enabled is a finished one, except exactly
      in the system of a single child. */
  lemma StuckFinishedUnlessAlone(s: State)
    requires Reachable(s) && Wf(s) && Stuck(s)
    ensures Finished(s) <==> s.n != 1
  {
    ReachableInv(s);
    if s.n == 1 {
      LoneChildWaits(s);
      assert Child(s.n, 1);
    } else {
      StuckIsFinished(s);
    }
  }

  lemma FinishedIsStuck(s: State)
    requires Wf(s) && Finished(s)
    ensures Stuck(s)
  {
  }
}
