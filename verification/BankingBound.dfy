/** How long a history can get in any run, also in those that lose a DONE. */
module BankingBound {
  import opened Sums
  import opened Network
  import opened Stamps
  import opened Banking
  import opened BankingSafety
  import opened BankingTheorems
  import opened BankingLength

  ghost predicate HasStopped(s: State, j: int)
    requires Wf(s)
  {
    Child(s.n, j) && s.accounts[j].stage != Running
  }

  /** Children past their STOP. */
  ghost function Stops(s: State): int
    requires Wf(s)
  {
    Sum(s.n, j => Bit(HasStopped(s, j)))
  }

  ghost predicate HasHeard(s: State, i: int, j: int)
    requires Wf(s) && Child(s.n, i)
  {
    HasStopped(s, j) && j != i && s.ch(j, i) == []
  }

  /** DONE messages child i has taken, in its main loop or while collecting. */
  ghost function Heard(s: State, i: int): int
    requires Wf(s) && Child(s.n, i)
  {
    Sum(s.n, j => Bit(HasHeard(s, i, j)))
  }

  /** The latest stamp of a DONE once m children have stopped: each of them can have taken
      the DONE of all before it, the latest first. */
  function Latest(clock: int, m: int): int
    requires m >= 0
  {
    clock + m + Triangle(m)
  }

  ghost predicate AccountBounded(s: State, i: int)
    requires Wf(s) && Child(s.n, i)
  {
    var a := s.accounts[i];
    var m := Stops(s);
    m >= 0 &&
    if a.stage == Reported then |a.history| <= Latest(s.clock, m) + s.n
    else a.clock <= Latest(s.clock, m) + Heard(s, i)
  }

  ghost predicate LinkBounded(s: State, j: int, i: int)
    requires Wf(s) && Pair(s.n, i, j)
  {
    && (s.accounts[j].stage == Running ==> s.ch(j, i) == [])
    && (s.ch(j, i) == [] || (|s.ch(j, i)| == 1 && s.ch(j, i)[0].Finish? && Stops(s) >= 0
                             && s.ch(j, i)[0].time <= Latest(s.clock, Stops(s))))
  }

  ghost predicate ParentLinkBounded(s: State, i: int)
    requires Wf(s) && Child(s.n, i)
  {
    forall m :: m in s.ch(0, i) ==> m == Stop(s.clock)
  }

  ghost predicate Bounded(s: State)
    requires Wf(s)
  {
    && (forall i :: Child(s.n, i) ==> AccountBounded(s, i) && ParentLinkBounded(s, i))
    && (forall i, j :: Pair(s.n, i, j) ==> LinkBounded(s, j, i))
  }

  // ---- the counts under a step ----

  lemma HeardAtMost(s: State, i: int)
    requires Wf(s) && Child(s.n, i)
    ensures 0 <= Heard(s, i) <= s.n - 1
  {
    SumZero(s.n, j => Bit(HasHeard(s, i, j)));
    SumFull(s.n, j => Bit(HasHeard(s, i, j)), i);
  }

  lemma HeardAtMostStops(s: State, i: int)
    requires Wf(s) && Child(s.n, i)
    ensures 0 <= Heard(s, i) <= Stops(s)
  {
    HeardAtMost(s, i);
    SumBounded(s.n, j => Bit(HasHeard(s, i, j)), j => Bit(HasStopped(s, j)));
  }

  lemma StopsAtMost(s: State)
    requires Wf(s)
    ensures 0 <= Stops(s) <= s.n
  {
    SumZero(s.n, j => Bit(HasStopped(s, j)));
    SumBounded(s.n, j => Bit(HasStopped(s, j)), j => 1);
    SumConstant(s.n, j => 1, 1);
  }

  lemma SameStops(s: State, s': State)
    requires Wf(s) && Wf(s') && s'.n == s.n
    requires forall j :: Child(s.n, j) ==> (HasStopped(s', j) <==> HasStopped(s, j))
    ensures Stops(s') == Stops(s)
  {
    SumEqual(s.n, j => Bit(HasStopped(s, j)), j => Bit(HasStopped(s', j)));
  }

  lemma OneMoreStop(s: State, s': State, i: int)
    requires Wf(s) && Wf(s') && s'.n == s.n && Child(s.n, i)
    requires forall j :: Child(s.n, j) && j != i ==> (HasStopped(s', j) <==> HasStopped(s, j))
    requires !HasStopped(s, i) && HasStopped(s', i)
    ensures Stops(s') == Stops(s) + 1
  {
    SumChange(s.n, j => Bit(HasStopped(s, j)), j => Bit(HasStopped(s', j)), i);
  }

  lemma SameHeard(s: State, s': State, k: int)
    requires Wf(s) && Wf(s') && s'.n == s.n && Child(s.n, k)
    requires forall j :: Child(s.n, j) ==> (HasHeard(s', k, j) <==> HasHeard(s, k, j))
    ensures Heard(s', k) == Heard(s, k)
  {
    SumEqual(s.n, j => Bit(HasHeard(s, k, j)), j => Bit(HasHeard(s', k, j)));
  }

  lemma OneMoreHeard(s: State, s': State, k: int, j: int)
    requires Wf(s) && Wf(s') && s'.n == s.n && Child(s.n, k) && Child(s.n, j)
    requires forall l :: Child(s.n, l) && l != j ==> (HasHeard(s', k, l) <==> HasHeard(s, k, l))
    requires !HasHeard(s, k, j) && HasHeard(s', k, j)
    ensures Heard(s', k) == Heard(s, k) + 1
  {
    SumChange(s.n, l => Bit(HasHeard(s, k, l)), l => Bit(HasHeard(s', k, l)), j);
  }

  lemma LatestGrows(clock: int, m: int)
    requires m >= 0
    ensures Latest(clock, m + 1) == Latest(clock, m) + m + 2
  {
  }

  // ---- every step keeps the bounds ----

  lemma StopBounded(s: State)
    requires Inv(s) && Enabled(s, StopStep)
    ensures Bounded(Apply(s, StopStep))
  {
    var s' := Apply(s, StopStep);
    assert forall j :: !HasStopped(s', j);
    SumZero(s.n, j => Bit(HasStopped(s', j)));
    forall i | Child(s.n, i)
      ensures AccountBounded(s', i) && ParentLinkBounded(s', i)
    {
      HeardAtMost(s', i);
      assert s.ch(0, i) == InTransit(s.flight, 0, i);
    }
    forall i, j | Pair(s.n, i, j)
      ensures LinkBounded(s', j, i)
    {
      assert s.ch(j, i) == InTransit(s.flight, j, i);
    }
  }

  /** A child takes a DONE: s' differs in that message and in the child's account, which
      advances by one tick past what it has seen. */
  ghost predicate Takes(s: State, s': State, i: int, j: int)
    requires Wf(s) && Wf(s')
  {
    && Pair(s.n, i, j) && s'.n == s.n && s'.clock == s.clock && s.ch(j, i) != []
    && HasStopped(s, j) && (HasStopped(s', i) <==> HasStopped(s, i))
    && (forall k :: 0 <= k <= s.n && k != i ==> s'.accounts[k] == s.accounts[k])
    && (forall x, y :: s'.ch(x, y) == if x == j && y == i then s.ch(x, y)[1..] else s.ch(x, y))
  }

  lemma TakesCounts(s: State, s': State, i: int, j: int)
    requires Wf(s) && Wf(s') && Takes(s, s', i, j) && LinkBounded(s, j, i)
    ensures Stops(s') == Stops(s)
    ensures Heard(s', i) == Heard(s, i) + 1
    ensures forall k :: Child(s.n, k) && k != i ==> Heard(s', k) == Heard(s, k)
  {
    SameStops(s, s');
    OneMoreHeard(s, s', i, j);
    forall k | Child(s.n, k) && k != i
      ensures Heard(s', k) == Heard(s, k)
    {
      SameHeard(s, s', k);
    }
  }

  lemma TakesBounded(s: State, s': State, i: int, j: int)
    requires Wf(s) && Wf(s') && Bounded(s) && Takes(s, s', i, j)
    requires AccountBounded(s', i)
    ensures Bounded(s')
  {
    assert LinkBounded(s, j, i);
    TakesCounts(s, s', i, j);
    forall k | Child(s.n, k)
      ensures AccountBounded(s', k) && ParentLinkBounded(s', k)
    {
      assert AccountBounded(s, k) && ParentLinkBounded(s, k);
    }
    forall x, y | Pair(s.n, x, y)
      ensures LinkBounded(s', y, x)
    {
      assert LinkBounded(s, y, x);
    }
  }

  lemma TakenClock(a: Account, n: nat, m: Order, bound: int)
    requires a.stage == Running && m.Finish? && a.clock <= bound && m.time <= bound
    ensures var r := Receive(a, n, m);
            r.account.stage == Running && r.account.clock <= bound + 1 && r.out == Nothing(n)
  {
  }

  lemma CollectedClock(a: Account, start: int, n: nat, j: int, m: Order, bound: int)
    requires AccountOk(a, start) && m.Finish? && a.clock <= bound && m.time <= bound
    ensures var r := Collect(a, n, j, m);
            && r.account.stage != Running && r.out == Nothing(n)
            && (if r.account.stage == Reported then |r.account.history| <= bound + 2 else r.account.clock <= bound + 1)
  {
  }

  lemma HaltedClock(a: Account, start: int, n: nat, time: int, bound: int)
    requires AccountOk(a, start) && a.stage == Running && a.clock <= bound && time <= bound
    ensures var r := Receive(a, n, Stop(time));
            var t := Sync(a.clock, time) + 1;
            && r.account.stage != Running && t <= bound + 2 && r.out == ToAll(n, a.id, Finish(t))
            && (r.account.stage == Reported ==> n < NextOther(a.id, 0) && |r.account.history| <= bound + 3)
            && (r.account.stage != Reported ==> r.account.clock == t)
  {
    ArriveKeeps(a, start, Stop(time));
  }

  lemma DoneTaken(s: State, i: int, j: int)
    requires Wf(s) && s.parent == Stopped && Bounded(s) && Enabled(s, ReceiveStep(i, j)) && j != 0
    ensures Takes(s, Apply(s, ReceiveStep(i, j)), i, j)
    ensures Stops(s) >= 0
    ensures Apply(s, ReceiveStep(i, j)).accounts[i].clock <= Latest(s.clock, Stops(s)) + Heard(s, i) + 1
  {
    assert LinkBounded(s, j, i) && AccountBounded(s, i);
    HeardAtMost(s, i);
    TakenClock(s.accounts[i], s.n, s.ch(j, i)[0], Latest(s.clock, Stops(s)) + Heard(s, i));
  }

  lemma ReceiveDoneBounded(s: State, i: int, j: int)
    requires Wf(s) && s.parent == Stopped && Bounded(s) && Enabled(s, ReceiveStep(i, j)) && j != 0
    ensures Bounded(Apply(s, ReceiveStep(i, j)))
  {
    var s' := Apply(s, ReceiveStep(i, j));
    assert LinkBounded(s, j, i);
    DoneTaken(s, i, j);
    TakesCounts(s, s', i, j);
    TakesBounded(s, s', i, j);
  }

  lemma DoneCollected(s: State, i: int)
    requires Inv(s) && Bounded(s) && Enabled(s, CollectStep(i))
    ensures var s' := Apply(s, CollectStep(i));
            var bound := Latest(s.clock, Stops(s)) + Heard(s, i);
            && Takes(s, s', i, s.accounts[i].stage.next)
            && (if s'.accounts[i].stage == Reported then |s'.accounts[i].history| <= bound + 2
                else s'.accounts[i].clock <= bound + 1)
    ensures Stops(s) >= 0
  {
    var j := s.accounts[i].stage.next;
    CollectsFinish(s, i);
    assert LinkBounded(s, j, i) && AccountBounded(s, i) && AccountOk(s.accounts[i], s.start[i]);
    HeardAtMost(s, i);
    CollectedClock(s.accounts[i], s.start[i], s.n, j, s.ch(j, i)[0], Latest(s.clock, Stops(s)) + Heard(s, i));
  }

  lemma CollectBounded(s: State, i: int)
    requires Inv(s) && Bounded(s) && Enabled(s, CollectStep(i))
    ensures Bounded(Apply(s, CollectStep(i)))
  {
    var s' := Apply(s, CollectStep(i));
    DoneCollected(s, i);
    assert LinkBounded(s, s.accounts[i].stage.next, i);
    TakesCounts(s, s', i, s.accounts[i].stage.next);
    HeardAtMost(s', i);
    TakesBounded(s, s', i, s.accounts[i].stage.next);
  }

  /** A child takes STOP. */
  ghost predicate Halts(s: State, s': State, i: int, t: int)
    requires Wf(s) && Wf(s')
  {
    && Child(s.n, i) && s'.n == s.n && s'.clock == s.clock && s.ch(0, i) != []
    && !HasStopped(s, i) && HasStopped(s', i)
    && (forall k :: 0 <= k <= s.n && k != i ==> s'.accounts[k] == s.accounts[k])
    && (forall x, y :: Pair(s.n, x, y) ==> s'.ch(x, y) == s.ch(x, y) + if x == i then [Finish(t)] else [])
    && (forall y :: Child(s.n, y) ==> s'.ch(0, y) == if y == i then s.ch(0, i)[1..] else s.ch(0, y))
  }

  lemma HaltsCounts(s: State, s': State, i: int, t: int)
    requires Wf(s) && Wf(s') && Bounded(s) && Halts(s, s', i, t)
    ensures Stops(s') == Stops(s) + 1
    ensures forall k :: Child(s.n, k) ==> Heard(s', k) == Heard(s, k)
  {
    OneMoreStop(s, s', i);
    forall k | Child(s.n, k)
      ensures Heard(s', k) == Heard(s, k)
    {
      SameHeard(s, s', k);
    }
  }

  lemma HaltsBounded(s: State, s': State, i: int, t: int)
    requires Wf(s) && Wf(s') && Bounded(s) && Halts(s, s', i, t)
    requires AccountBounded(s', i) && Stops(s') >= 0 && t <= Latest(s.clock, Stops(s'))
    ensures Bounded(s')
  {
    StopsAtMost(s);
    HaltsCounts(s, s', i, t);
    LatestGrows(s.clock, Stops(s));
    forall k | Child(s.n, k)
      ensures AccountBounded(s', k) && ParentLinkBounded(s', k)
    {
      assert AccountBounded(s, k) && ParentLinkBounded(s, k);
      assert forall m :: m in s'.ch(0, k) ==> m in s.ch(0, k);
    }
    forall x, y | Pair(s.n, x, y)
      ensures LinkBounded(s', y, x)
    {
      assert LinkBounded(s, y, x);
    }
  }

  lemma StopTaken(s: State, i: int)
    requires Inv(s) && s.parent == Stopped && Bounded(s) && Enabled(s, ReceiveStep(i, 0))
    ensures var s' := Apply(s, ReceiveStep(i, 0));
            var t := Sync(s.accounts[i].clock, s.clock) + 1;
            var bound := Latest(s.clock, Stops(s)) + Heard(s, i);
            && Halts(s, s', i, t) && t <= bound + 2
            && (if s'.accounts[i].stage == Reported then s.n == 1 && |s'.accounts[i].history| <= bound + 3
                else s'.accounts[i].clock == t)
    ensures Stops(s) >= 0
  {
    assert s.ch(0, i)[0] in s.ch(0, i) && ParentLinkBounded(s, i) && AccountBounded(s, i);
    assert AccountOk(s.accounts[i], s.start[i]);
    HeardAtMost(s, i);
    HaltedClock(s.accounts[i], s.start[i], s.n, s.clock, Latest(s.clock, Stops(s)) + Heard(s, i));
  }

  lemma ReceiveStopBounded(s: State, i: int)
    requires Inv(s) && s.parent == Stopped && Bounded(s) && Enabled(s, ReceiveStep(i, 0))
    ensures Bounded(Apply(s, ReceiveStep(i, 0)))
  {
    var s' := Apply(s, ReceiveStep(i, 0));
    var t := Sync(s.accounts[i].clock, s.clock) + 1;
    StopTaken(s, i);
    HeardAtMostStops(s, i);
    HeardAtMost(s, i);
    LatestGrows(s.clock, Stops(s));
    HaltsCounts(s, s', i, t);
    HaltsBounded(s, s', i, t);
  }

  // ---- the bound ----

  ghost predicate BoundOk(s: State) {
    Inv(s) && ParentClockOk(s) && (s.parent == Stopped ==> Bounded(s))
  }

  lemma BoundKept(s: State, step: Step)
    requires BoundOk(s) && Enabled(s, step)
    ensures BoundOk(Apply(s, step))
  {
    InvKept(s, step);
    ParentClockKept(s, step);
    if s.parent == Stopped {
      StoppedKeepsBounded(s, step);
    } else if step == StopStep {
      StopBounded(s);
    } else {
      StaysServing(s, step);
    }
  }

  lemma StoppedKeepsBounded(s: State, step: Step)
    requires Inv(s) && s.parent == Stopped && Bounded(s) && Enabled(s, step)
    ensures Apply(s, step).parent == Stopped && Bounded(Apply(s, step))
  {
    match step
    case ReceiveStep(i, from) => if from == 0 { ReceiveStopBounded(s, i); } else { ReceiveDoneBounded(s, i, from); }
    case CollectStep(i) => CollectBounded(s, i);
  }

  lemma {:induction false} RunKeepsBound(s: State, steps: seq<Step>)
    requires BoundOk(s) && Runs(s, steps)
    ensures BoundOk(After(s, steps))
    decreases |steps|
  {
    if steps != [] {
      BoundKept(s, steps[0]);
      RunKeepsBound(Apply(s, steps[0]), steps[1..]);
    }
  }

  /** Transfers ordered so far. */
  function Begun(s: State): int {
    s.done + if s.parent.Awaiting? then 1 else 0
  }

  /** In every state of every run, whatever has been lost, no history is longer than this. */
  lemma HistoryBound(s: State, i: int)
    requires Reachable(s) && Wf(s) && Child(s.n, i)
    ensures |s.accounts[i].history| <= 6 * Begun(s) + 3 * s.n + 2 + Triangle(s.n)
  {
    var steps :| |s.start| == s.n + 1 && Runs(Init(s.n, s.start), steps) && After(Init(s.n, s.start), steps) == s;
    InitOk(s.n, s.start);
    RunKeepsBound(Init(s.n, s.start), steps);
    assert AccountOk(s.accounts[i], s.start[i]);
    if s.parent == Stopped {
      assert AccountBounded(s, i);
      StopsAtMost(s);
      HeardAtMost(s, i);
      TriangleGrows(Stops(s), s.n);
    }
  }
}
