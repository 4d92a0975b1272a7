/** The end of the banking run: when all children report, and how long histories are. */
module BankingLength {
  import opened Network
  import opened Stamps
  import opened Banking
  import opened BankingSafety
  import opened BankingTheorems

  /** The parent's clock is determined by the number of completed transfers. */
  ghost predicate ParentClockOk(s: State) {
    s.clock == s.n + 6 * s.done + if s.parent == Ready then 1 else 2
  }

  /** Has child i taken the DONE of child j out of its channel while collecting? */
  ghost predicate Taken(s: State, i: int, j: int)
    requires Wf(s) && Pair(s.n, i, j)
  {
    match s.accounts[i].stage
    case Collecting(next) => j < next
    case Reported => true
    case _ => false
  }

  /** The DONE of child j has reached child i in its main loop, which ignores it. */
  ghost predicate Dropped(s: State, i: int, j: int)
    requires Wf(s)
  {
    Pair(s.n, i, j) && s.accounts[j].stage != Running && s.ch(j, i) == [] && !Taken(s, i, j)
  }

  /** DONE messages collected so far by a child that waits for `next`. */
  function Collected(i: int, next: int): int {
    if i < next then next - 2 else next - 1
  }

  /** Clock, history and STOP channel of a child, with the STOP sent at s.clock. */
  ghost predicate AccountExact(s: State, i: int)
    requires Wf(s) && Child(s.n, i)
  {
    var a := s.accounts[i];
    match a.stage
    case Running => a.clock < s.clock && s.ch(0, i) == [Stop(s.clock)]
    case Collecting(next) =>
      a.clock == s.clock + 2 + Collected(i, next) && |a.history| == s.clock + 1 && s.ch(0, i) == []
    case Reported => |a.history| == s.clock + s.n + 2 && s.ch(0, i) == []
    case Broken => false
  }

  ghost predicate LinkExact(s: State, j: int, i: int)
    requires Wf(s) && Pair(s.n, i, j)
  {
    if s.accounts[j].stage == Running then s.ch(j, i) == [] && !Taken(s, i, j)
    else s.ch(j, i) == if Taken(s, i, j) then [] else [Finish(s.clock + 2)]
  }

  ghost predicate Exact(s: State)
    requires Wf(s)
  {
    && (forall i :: Child(s.n, i) ==> AccountExact(s, i))
    && (forall i, j :: Pair(s.n, i, j) ==> LinkExact(s, j, i))
  }

  /** Every channel and every clock is as it should be, and nothing has been lost. */
  ghost predicate EndOk(s: State) {
    Inv(s) && ParentClockOk(s) && (s.parent == Stopped ==> Exact(s))
  }

  // ---- while nothing has been dropped ----

  lemma StopExact(s: State)
    requires EndOk(s) && Enabled(s, StopStep)
    ensures Exact(Apply(s, StopStep))
  {
    var s' := Apply(s, StopStep);
    forall i | Child(s.n, i)
      ensures AccountExact(s', i)
    {
      assert Link(s.n, 0, i);
      assert s.ch(0, i) == [];
    }
    forall i, j | Pair(s.n, i, j)
      ensures LinkExact(s', j, i)
    {
      assert Link(s.n, j, i);
      assert s.ch(j, i) == [];
    }
  }

  /** A child that receives STOP announces DONE at the same time as every other. */
  lemma StoppedAccount(s: State, i: int)
    requires EndOk(s) && s.parent == Stopped && Enabled(s, ReceiveStep(i, 0))
    ensures s.ch(0, i) == [Stop(s.clock)]
    ensures var r := Receive(s.accounts[i], s.n, s.ch(0, i)[0]);
            && r.out == ToAll(s.n, i, Finish(s.clock + 2))
            && (if s.n == 1 then r.account.stage == Reported && |r.account.history| == s.clock + 3
                else r.account.stage == Collecting(NextOther(i, 0)) && r.account.clock == s.clock + 2
                     && |r.account.history| == s.clock + 1)
  {
    assert AccountExact(s, i);
    assert AccountOk(s.accounts[i], s.start[i]);
    ArriveKeeps(s.accounts[i], s.start[i], Stop(s.clock));
  }

  /** STOP taken, as far as stages and channels are concerned. */
  ghost predicate TakesStop(s: State, s': State, i: int)
    requires Wf(s) && Wf(s')
  {
    && Child(s.n, i) && s'.n == s.n && s'.clock == s.clock && s.accounts[i].stage == Running
    && (forall k :: 0 <= k <= s.n && k != i ==> s'.accounts[k] == s.accounts[k])
    && s'.accounts[i].stage == (if s.n == 1 then Reported else Collecting(NextOther(i, 0)))
    && (forall y :: Child(s.n, y) && y != i ==> s'.ch(0, y) == s.ch(0, y))
    && (forall x, y :: Pair(s.n, x, y) ==> s'.ch(x, y) == s.ch(x, y) + if x == i then [Finish(s.clock + 2)] else [])
  }

  lemma StopTakesStop(s: State, i: int)
    requires EndOk(s) && s.parent == Stopped && Enabled(s, ReceiveStep(i, 0))
    ensures TakesStop(s, Apply(s, ReceiveStep(i, 0)), i)
    ensures AccountExact(Apply(s, ReceiveStep(i, 0)), i)
  {
    StoppedAccount(s, i);
  }

  lemma ReceiveStopExact(s: State, i: int)
    requires EndOk(s) && s.parent == Stopped && Enabled(s, ReceiveStep(i, 0))
    ensures Exact(Apply(s, ReceiveStep(i, 0)))
  {
    var s' := Apply(s, ReceiveStep(i, 0));
    StopTakesStop(s, i);
    forall k | Child(s.n, k)
      ensures AccountExact(s', k)
    {
      assert AccountExact(s, k);
    }
    forall x, y | Pair(s.n, x, y)
      ensures LinkExact(s', y, x)
    {
      assert LinkExact(s, y, x);
      StopLink(s, s', i, x, y);
    }
  }

  lemma StopLink(s: State, s': State, i: int, x: int, y: int)
    requires Wf(s) && Wf(s') && TakesStop(s, s', i) && Pair(s.n, x, y) && LinkExact(s, y, x)
    ensures LinkExact(s', y, x)
  {
  }

  /** A child collects the awaited DONE, one tick later each time. */
  lemma CollectedAccount(s: State, i: int)
    requires EndOk(s) && s.parent == Stopped && Enabled(s, CollectStep(i))
    ensures var j := s.accounts[i].stage.next;
            var a := s.accounts[i];
            var next := NextOther(i, j);
            && Pair(s.n, i, j) && s.ch(j, i) == [Finish(s.clock + 2)]
            && s.accounts[j].stage != Running
            && (var r := Collect(a, s.n, j, s.ch(j, i)[0]);
                && r.out == Nothing(s.n)
                && (if next > s.n then r.account.stage == Reported && |r.account.history| == s.clock + s.n + 2
                    else r.account.stage == Collecting(next) && r.account.clock == s.clock + 2 + Collected(i, next)
                         && |r.account.history| == s.clock + 1))
  {
    CollectsFinish(s, i);
    var j := s.accounts[i].stage.next;
    assert AccountExact(s, i) && LinkExact(s, j, i);
  }

  /** A collected DONE, as far as stages and channels are concerned. */
  ghost predicate Collects(s: State, s': State, i: int)
    requires Wf(s) && Wf(s')
  {
    && Child(s.n, i) && s'.n == s.n && s'.clock == s.clock && s.accounts[i].stage.Collecting?
    && var j := s.accounts[i].stage.next;
    && Pair(s.n, i, j) && |s.ch(j, i)| == 1
    && (forall k :: 0 <= k <= s.n && k != i ==> s'.accounts[k] == s.accounts[k])
    && s'.accounts[i].stage == (if NextOther(i, j) > s.n then Reported else Collecting(NextOther(i, j)))
    && (forall x, y :: s'.ch(x, y) == if x == j && y == i then [] else s.ch(x, y))
  }

  lemma CollectCollects(s: State, i: int)
    requires EndOk(s) && s.parent == Stopped && Enabled(s, CollectStep(i))
    ensures Collects(s, Apply(s, CollectStep(i)), i)
    ensures AccountExact(Apply(s, CollectStep(i)), i)
  {
    CollectedAccount(s, i);
    assert AccountExact(s, i);
  }

  lemma CollectExact(s: State, i: int)
    requires EndOk(s) && s.parent == Stopped && Enabled(s, CollectStep(i))
    ensures Exact(Apply(s, CollectStep(i)))
  {
    var s' := Apply(s, CollectStep(i));
    CollectCollects(s, i);
    forall k | Child(s.n, k)
      ensures AccountExact(s', k)
    {
      assert AccountExact(s, k);
    }
    forall x, y | Pair(s.n, x, y)
      ensures LinkExact(s', y, x)
    {
      assert LinkExact(s, y, x);
      CollectLink(s, s', i, x, y);
    }
  }

  lemma CollectLink(s: State, s': State, i: int, x: int, y: int)
    requires Wf(s) && Wf(s') && Collects(s, s', i) && Pair(s.n, x, y) && LinkExact(s, y, x)
    ensures LinkExact(s', y, x)
  {
  }

  // ---- losing a DONE ----

  /** The main loop takes a DONE, which neither of its branches handles. */
  ghost predicate Loses(s: State, step: Step)
    requires Wf(s) && Enabled(s, step)
  {
    step.ReceiveStep? && s.ch(step.from, step.i)[0].Finish?
  }

  ghost predicate NoneLost(s: State, steps: seq<Step>)
    requires Wf(s) && Runs(s, steps)
    decreases |steps|
  {
    steps == [] || (!Loses(s, steps[0]) && NoneLost(Apply(s, steps[0]), steps[1..]))
  }

  lemma LossDrops(s: State, step: Step)
    requires EndOk(s) && Enabled(s, step) && Loses(s, step)
    ensures Apply(s, step).parent == Stopped && Dropped(Apply(s, step), step.i, step.from)
  {
    if s.parent != Stopped {
      WhoReceives(s, step.i, step.from);
    } else {
      StoppedReceiveKeeps(s, step.i, step.from);
      StoppedLoss(s, step.i, step.from);
    }
  }

  lemma StoppedLoss(s: State, i: int, j: int)
    requires EndOk(s) && s.parent == Stopped && Enabled(s, ReceiveStep(i, j)) && s.ch(j, i)[0].Finish?
    ensures Dropped(Apply(s, ReceiveStep(i, j)), i, j)
  {
    assert AccountExact(s, i);
    assert Pair(s.n, i, j) && LinkExact(s, j, i);
  }

  /** A lost DONE stays lost, so its receiver never reports. */
  lemma DroppedForever(s: State, step: Step, i: int, j: int)
    requires Inv(s) && s.parent == Stopped && Enabled(s, step) && Dropped(s, i, j)
    ensures Dropped(Apply(s, step), i, j)
    ensures Apply(s, step).parent == Stopped
  {
    match step
    case ReceiveStep(k, from) => DroppedReceive(s, k, from, i, j);
    case CollectStep(k) => DroppedCollect(s, k, i, j);
  }

  lemma DroppedReceive(s: State, k: int, from: int, i: int, j: int)
    requires Inv(s) && s.parent == Stopped && Enabled(s, ReceiveStep(k, from)) && Dropped(s, i, j)
    ensures Dropped(Apply(s, ReceiveStep(k, from)), i, j)
  {
    StoppedReceiveKeeps(s, k, from);
    var b := Arrive(s.accounts[k], s.ch(from, k)[0]);
    AdvanceStage(b.(clock := b.clock + 1), s.n, NextOther(k, 0), b.clock + 1);
  }

  lemma DroppedCollect(s: State, k: int, i: int, j: int)
    requires Inv(s) && s.parent == Stopped && Enabled(s, CollectStep(k)) && Dropped(s, i, j)
    ensures Dropped(Apply(s, CollectStep(k)), i, j)
  {
    CollectsFinish(s, k);
    var from := s.accounts[k].stage.next;
    var t := s.ch(from, k)[0].time;
    AdvanceStage(s.accounts[k].(clock := Sync(s.accounts[k].clock, t)), s.n, NextOther(k, from), t);
  }

  lemma ParentClockKept(s: State, step: Step)
    requires Inv(s) && ParentClockOk(s) && Enabled(s, step)
    ensures ParentClockOk(Apply(s, step))
  {
    if step == AckStep {
      AckKeeps(s);
    }
  }

  lemma EndKept(s: State, step: Step)
    requires EndOk(s) && Enabled(s, step) && !Loses(s, step)
    ensures EndOk(Apply(s, step))
  {
    InvKept(s, step);
    ParentClockKept(s, step);
    if s.parent == Stopped {
      match step
      case ReceiveStep(i, from) =>
        StoppedReceiveKeeps(s, i, from);
        StopFromParent(s, i, from);
        ReceiveStopExact(s, i);
      case CollectStep(i) => CollectExact(s, i);
    } else if step == StopStep {
      StopExact(s);
    } else {
      StaysServing(s, step);
    }
  }

  lemma StopFromParent(s: State, i: int, from: int)
    requires Inv(s) && s.parent == Stopped && Enabled(s, ReceiveStep(i, from)) && !s.ch(from, i)[0].Finish?
    ensures from == 0
  {
    assert OnlyStops(s.ch(from, i), from) && s.ch(from, i)[0] in s.ch(from, i);
  }

  lemma StaysServing(s: State, step: Step)
    requires Inv(s) && s.parent != Stopped && Enabled(s, step) && step != StopStep
    ensures Apply(s, step).parent != Stopped
  {
  }

  lemma {:induction false} DroppedInRun(s: State, steps: seq<Step>, i: int, j: int)
    requires Inv(s) && s.parent == Stopped && Runs(s, steps) && Dropped(s, i, j)
    ensures Dropped(After(s, steps), i, j)
    decreases |steps|
  {
    if steps != [] {
      InvKept(s, steps[0]);
      DroppedForever(s, steps[0], i, j);
      DroppedInRun(Apply(s, steps[0]), steps[1..], i, j);
    }
  }

  /** A run either loses nothing and stays exact, or ends with a DONE lost. */
  lemma {:induction false} RunKeepsEnd(s: State, steps: seq<Step>)
    requires EndOk(s) && Runs(s, steps)
    ensures if NoneLost(s, steps) then EndOk(After(s, steps)) else exists i, j :: Dropped(After(s, steps), i, j)
    decreases |steps|
  {
    if steps != [] {
      var s' := Apply(s, steps[0]);
      if Loses(s, steps[0]) {
        InvKept(s, steps[0]);
        LossDrops(s, steps[0]);
        DroppedInRun(s', steps[1..], steps[0].i, steps[0].from);
        assert Dropped(After(s, steps), steps[0].i, steps[0].from);
      } else {
        EndKept(s, steps[0]);
        RunKeepsEnd(s', steps[1..]);
        assert After(s, steps) == After(s', steps[1..]);
      }
    }
  }

  // ---- the theorems ----

  ghost predicate AllReported(s: State)
    requires Wf(s)
  {
    forall i :: Child(s.n, i) ==> s.accounts[i].stage == Reported
  }

  /** When all histories are sent they have the same length, fixed by the number of
      children and the number of transfers. */
  lemma HistoryLength(s: State, i: int)
    requires Reachable(s) && Wf(s) && s.parent == Stopped && AllReported(s) && Child(s.n, i)
    ensures |s.accounts[i].history| == 2 * s.n + 4 + 6 * s.done
  {
    var steps :| |s.start| == s.n + 1 && Runs(Init(s.n, s.start), steps) && After(Init(s.n, s.start), steps) == s;
    InitOk(s.n, s.start);
    RunKeepsEnd(Init(s.n, s.start), steps);
    assert AccountExact(s, i);
  }

  /** The n transfers of `bank_robbery` with at most 15 children fit the history. */
  lemma HistoryFits(s: State, i: int)
    requires Reachable(s) && Wf(s) && s.parent == Stopped && AllReported(s) && Child(s.n, i)
    requires s.n <= 15 && s.done <= s.n
    ensures |s.accounts[i].history| <= 124 < 256
  {
    HistoryLength(s, i);
  }

  lemma CanCollect(s: State, i: int)
    requires EndOk(s) && s.parent == Stopped && Child(s.n, i) && s.accounts[i].stage.Collecting?
    requires forall j :: Child(s.n, j) ==> s.accounts[j].stage != Running
    ensures Enabled(s, CollectStep(i))
  {
    var j := s.accounts[i].stage.next;
    assert Pair(s.n, i, j) && LinkExact(s, j, i);
  }

  /** A child that has lost a DONE never reports, however the run goes on. */
  lemma {:induction false} DroppedNeverReports(s: State, steps: seq<Step>, i: int, j: int)
    requires Inv(s) && s.parent == Stopped && Runs(s, steps) && Dropped(s, i, j)
    ensures After(s, steps).accounts[i].stage != Reported
  {
    DroppedInRun(s, steps, i, j);
  }

  ghost predicate Stuck(s: State)
    requires Wf(s)
  {
    forall step :: !Enabled(s, step)
  }

  /** A transfer under way always goes on, and without one STOP can be sent. */
  lemma ServingGoesOn(s: State) returns (step: Step)
    requires Inv(s) && s.parent != Stopped
    ensures Enabled(s, step)
  {
    match s.flight
    case Quiet => step := StopStep;
    case ToSource(m) =>
      step := ReceiveStep(m.src, 0);
      assert Link(s.n, 0, m.src);
    case ToTarget(m) =>
      step := ReceiveStep(m.dst, m.src);
      assert Link(s.n, m.src, m.dst);
    case Returning(dst, t) =>
      step := AckStep;
      assert Link(s.n, dst, 0);
  }

  lemma StuckHasReported(s: State)
    requires EndOk(s) && Stuck(s)
    ensures AllReported(s)
  {
    if s.parent != Stopped {
      var step := ServingGoesOn(s);
      assert false;
    }
    forall i | Child(s.n, i)
      ensures s.accounts[i].stage != Running
    {
      assert AccountExact(s, i);
      assert !Enabled(s, ReceiveStep(i, 0));
    }
    forall i | Child(s.n, i)
      ensures s.accounts[i].stage == Reported
    {
      assert AccountExact(s, i);
      if s.accounts[i].stage.Collecting? {
        CanCollect(s, i);
      }
    }
  }

  /** A run that cannot be continued has all histories if and only if the main loop of no
      child has taken a DONE. */
  lemma {:induction false} AllReportUnlessLost(n: nat, start: seq<int>, steps: seq<Step>)
    requires |start| == n + 1 && Runs(Init(n, start), steps) && Stuck(After(Init(n, start), steps))
    ensures AllReported(After(Init(n, start), steps)) <==> NoneLost(Init(n, start), steps)
  {
    InitOk(n, start);
    RunKeepsEnd(Init(n, start), steps);
    if NoneLost(Init(n, start), steps) {
      StuckHasReported(After(Init(n, start), steps));
    }
  }
}
