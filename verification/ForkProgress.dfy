/** The fork protocol never gets stuck before every child has finished, and runs are
    finite: together, every maximal run completes all critical sections. */
module ForkProgress {
  import opened Sums
  import opened Network
  import opened ForkProtocol
  import opened ForkSafety
  import opened ForkOrder

  ghost predicate Stuck(s: State)
    requires Wf(s)
  {
    forall step :: !Enabled(s, step)
  }

  /** Every child has run all its critical sections and heard every DONE, and nothing
      is left in transit between children. */
  ghost predicate Finished(s: State)
    requires Wf(s)
  {
    && (forall i :: Child(s.n, i) ==>
          s.procs[i].phase == Serving && s.procs[i].awaiting == 0 && s.procs[i].iter == Quota(i))
    && (forall i, j :: Pair(s.n, i, j) ==> s.ch(i, j) == [])
  }

  /** A child that leaves the driver's closing loop leaves empty channels behind. */
  lemma ExitLeavesNothing(s: State, i: int)
    requires Inv(s) && Child(s.n, i)
    requires s.procs[i].phase == Serving && s.procs[i].awaiting == 0
    ensures forall j :: Pair(s.n, i, j) ==> s.procs[j].phase == Serving && s.ch(j, i) == []
  {
    var f := j => Bit(Awaited(s, i, j));
    SumZero(s.n, f);
    assert NodeOk(s, i);
    forall j | Pair(s.n, i, j)
      ensures s.procs[j].phase == Serving && s.ch(j, i) == []
    {
      assert f(j) == 0;
      EdgeFact(s, j, i);
      NothingLeft(EdgeOf(s, j, i));
    }
  }

  /** Nothing arrives for a child that has left, in any continuation of the run. */
  lemma {:induction false} ExitIsFinal(s: State, steps: seq<Step>, i: int)
    requires Inv(s) && Child(s.n, i) && Runs(s, steps)
    requires s.procs[i].phase == Serving && s.procs[i].awaiting == 0
    ensures After(s, steps).procs[i] == s.procs[i]
    ensures forall j :: Pair(s.n, i, j) ==> After(s, steps).ch(j, i) == []
    decreases |steps|
  {
    ExitLeavesNothing(s, i);
    if steps != [] {
      InvKept(s, steps[0]);
      LeftAlone(s, steps[0], i);
      ExitIsFinal(Apply(s, steps[0]), steps[1..], i);
    }
  }

  lemma LeftAlone(s: State, step: Step, i: int)
    requires Wf(s) && Enabled(s, step) && Child(s.n, i)
    requires s.procs[i].phase == Serving && s.procs[i].awaiting == 0
    ensures Apply(s, step).procs[i] == s.procs[i]
  {
  }

  lemma NothingLeft(e: Edge)
    requires EdgeOk(e) && e.a.phase == Serving && e.b.phase == Serving && Done !in e.ab
    ensures e.ab == []
  {
  }

  lemma StuckIsQuiet(s: State)
    requires Inv(s) && Stuck(s)
    ensures forall i :: Child(s.n, i) ==> s.procs[i].phase == Polling || s.procs[i].phase == Serving
    ensures forall i, j :: Pair(s.n, j, i) ==> s.ch(j, i) == []
  {
    forall i | Child(s.n, i)
      ensures s.procs[i].phase == Polling || s.procs[i].phase == Serving
    {
      assert !Enabled(s, AskStep(i)) && !Enabled(s, ReleaseStep(i));
      assert NodeOk(s, i);
    }
    forall i, j | Pair(s.n, j, i)
      ensures s.ch(j, i) == []
    {
      assert !Enabled(s, ReceiveStep(i, j));
      assert NodeOk(s, i);
      SumZero(s.n, j => Bit(Awaited(s, i, j)));
      if s.procs[i].phase == Serving && s.procs[i].awaiting == 0 {
        ExitLeavesNothing(s, i);
      }
    }
  }

  lemma {:induction false} FirstInOrder(s: State, k: nat) returns (v: int)
    requires Wf(s) && StrictTotalOrder(s) && k <= s.n
    requires exists i :: 1 <= i <= k && s.procs[i].phase == Polling
    ensures 1 <= v <= k && s.procs[v].phase == Polling
    ensures forall u :: 1 <= u <= k && u != v && s.procs[u].phase == Polling ==> Before(s, v, u)
    decreases k
  {
    if exists i :: 1 <= i <= k - 1 && s.procs[i].phase == Polling {
      v := FirstInOrder(s, k - 1);
      if s.procs[k].phase == Polling {
        assert Pair(s.n, v, k);
        if Before(s, k, v) {
          v := k;
        }
      }
    } else {
      v := k;
    }
  }

  /** With nothing in transit, the child with priority holds the fork. */
  lemma PriorityHoldsFork(e: Edge)
    requires EdgeOk(e) && e.a.phase == Polling && e.ab == [] && e.ba == []
    requires e.b.phase == Serving || !Yields(e)
    ensures e.a.fork && !(e.a.dirty && e.a.token)
  {
  }

  lemma FirstCanEnter(s: State, v: int)
    requires Inv(s) && StrictTotalOrder(s) && Child(s.n, v) && s.procs[v].phase == Polling
    requires forall i, j :: Pair(s.n, j, i) ==> s.ch(j, i) == []
    requires forall u :: Pair(s.n, v, u) ==> s.procs[u].phase == Serving || Before(s, v, u)
    ensures CanEnter(s.procs[v], s.n)
  {
    forall c | 1 <= c <= s.n && c != v
      ensures s.procs[v].fork[c] && !(s.procs[v].dirty[c] && s.procs[v].token[c])
    {
      assert Pair(s.n, v, c);
      EdgeFact(s, v, c);
      assert s.procs[c].phase == Serving || !Before(s, c, v);
      PriorityHoldsFork(EdgeOf(s, v, c));
    }
  }

  /** A reachable state in which no step is enabled is exactly a finished one. */
  lemma StuckIffFinished(s: State)
    requires Reachable(s)
    ensures Wf(s) && (Stuck(s) <==> Finished(s))
  {
    ReachableInv(s);
    PrecedenceIsTotalOrder(s);
    if Stuck(s) {
      StuckIsQuiet(s);
      if exists i :: Child(s.n, i) && s.procs[i].phase == Polling {
        var v := FirstInOrder(s, s.n);
        FirstCanEnter(s, v);
        assert Enabled(s, EnterStep(v));
        assert false;
      }
      forall i | Child(s.n, i)
        ensures s.procs[i].awaiting == 0 && s.procs[i].iter == Quota(i) && s.procs[i].phase == Serving
      {
        assert NodeOk(s, i);
        assert forall j :: 1 <= j <= s.n ==> !Awaited(s, i, j);
        SumZero(s.n, j => Bit(Awaited(s, i, j)));
      }
    }
  }
}
