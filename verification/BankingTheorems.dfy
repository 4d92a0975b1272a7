/** Runs of the banking protocol: conservation at every recorded time, the meaning of the
    histories, and their common length. */
module BankingTheorems {
  import opened Sums
  import opened Network
  import opened Stamps
  import opened Banking
  import opened BankingSafety

  // ---- the remaining steps keep the invariant ----

  lemma AccountsKept(s: State, step: Step)
    requires Inv(s) && Enabled(s, step)
    ensures AccountsOk(Apply(s, step))
  {
    forall k | Child(s.n, k)
      ensures AccountOk(Apply(s, step).accounts[k], s.start[k])
    {
      assert AccountOk(s.accounts[k], s.start[k]);
      if step.ReceiveStep? && k == step.i {
        ReceiveKeepsAccount(s.accounts[k], s.start[k], s.n, s.ch(step.from, k)[0]);
      } else if step.CollectStep? && k == step.i {
        CollectsFinish(s, k);
        var j := s.accounts[k].stage.next;
        CollectKeepsAccount(s.accounts[k], s.start[k], s.n, j, s.ch(j, k)[0]);
      }
    }
  }

  /** The type check on the collected messages never fails. */
  lemma CollectsFinish(s: State, i: int)
    requires Inv(s) && Enabled(s, CollectStep(i))
    ensures s.parent == Stopped && Pair(s.n, s.accounts[i].stage.next, i)
    ensures s.ch(s.accounts[i].stage.next, i)[0].Finish?
  {
    var j := s.accounts[i].stage.next;
    assert Link(s.n, j, i);
    assert s.ch(j, i)[0] in s.ch(j, i);
  }

  lemma AdvanceStage(a: Account, n: nat, next: int, last: int)
    requires next >= 1 && next != a.id
    ensures var st := Advance(a, n, next, last).stage;
            st == Reported || (st == Collecting(next) && 1 <= next <= n && next != a.id)
    ensures Advance(a, n, next, last).id == a.id && Advance(a, n, next, last).balance == a.balance
  {
  }

  lemma StoppedReceiveKeeps(s: State, i: int, from: int)
    requires Inv(s) && s.parent == Stopped && Enabled(s, ReceiveStep(i, from))
    ensures StoppedOk(Apply(s, ReceiveStep(i, from)))
    ensures s.ch(from, i)[0].Stop? || s.ch(from, i)[0].Finish?
  {
    var s' := Apply(s, ReceiveStep(i, from));
    var m := s.ch(from, i)[0];
    assert OnlyStops(s.ch(from, i), from) && m in s.ch(from, i);
    var b := Arrive(s.accounts[i], m);
    if m.Stop? { AdvanceStage(b.(clock := b.clock + 1), s.n, NextOther(i, 0), b.clock + 1); }
    forall x, y | Link(s.n, x, y) && y != 0
      ensures OnlyStops(s'.ch(x, y), x)
    {
      assert OnlyStops(s.ch(x, y), x);
    }
  }

  lemma CollectKeeps(s: State, i: int)
    requires Inv(s) && Enabled(s, CollectStep(i))
    ensures StoppedOk(Apply(s, CollectStep(i)))
  {
    var s' := Apply(s, CollectStep(i));
    CollectsFinish(s, i);
    var j := s.accounts[i].stage.next;
    var m := s.ch(j, i)[0];
    AdvanceStage(s.accounts[i].(clock := Sync(s.accounts[i].clock, m.time)), s.n, NextOther(i, j), m.time);
    forall x, y | Link(s.n, x, y) && y != 0
      ensures OnlyStops(s'.ch(x, y), x)
    {
      assert OnlyStops(s.ch(x, y), x);
    }
  }

  /** After STOP no balance changes, and neither does the money at any time. */
  lemma StoppedConserves(s: State, step: Step)
    requires Inv(s) && s.parent == Stopped && Enabled(s, step)
    ensures Conserved(Apply(s, step))
  {
    var s' := Apply(s, step);
    var i := step.i;
    forall t: nat
      ensures Wealth(s', t) + Missing(s'.flight, t) == InitialWealth(s')
    {
      assert AccountOk(s.accounts[i], s.start[i]);
      if step.ReceiveStep? {
        StoppedReceiveKeeps(s, i, step.from);
        ReceiveWorth(s.accounts[i], s.start[i], s.n, s.ch(step.from, i)[0], t);
      } else {
        var j := s.accounts[i].stage.next;
        CollectWorth(s.accounts[i], s.n, j, s.ch(j, i)[0], t);
      }
      WealthAfter(s, s', i, t);
      assert Wealth(s, t) + Missing(s.flight, t) == InitialWealth(s);
    }
  }

  lemma InvKept(s: State, step: Step)
    requires Inv(s) && Enabled(s, step)
    ensures Inv(Apply(s, step))
  {
    AccountsKept(s, step);
    match step
    case TransferStep(_, _, _) => ParentStepKeeps(s, step);
    case StopStep => ParentStepKeeps(s, step);
    case AckStep => AckKeeps(s);
    case CollectStep(i) =>
      CollectsFinish(s, i);
      CollectKeeps(s, i);
      StoppedConserves(s, step);
    case ReceiveStep(i, from) =>
      if s.parent == Stopped {
        StoppedReceiveKeeps(s, i, from);
        StoppedConserves(s, step);
      } else {
        WhoReceives(s, i, from);
        ServingConserves(s, i, from);
        if s.flight.ToSource? { SourceKeeps(s, i); } else { TargetKeeps(s, i, from); }
      }
  }

  lemma InitOk(n: nat, start: seq<int>)
    requires |start| == n + 1
    ensures Inv(Init(n, start))
  {
    var s := Init(n, start);
    forall t: nat
      ensures Wealth(s, t) == InitialWealth(s)
    {
      SumEqual(n, i => if Child(n, i) then Worth(s.accounts[i], t) else 0, i => if Child(n, i) then s.start[i] else 0);
    }
  }

  // ---- runs ----

  ghost predicate Runs(s: State, steps: seq<Step>)
    requires Wf(s)
    decreases |steps|
  {
    steps == [] || (Enabled(s, steps[0]) && Runs(Apply(s, steps[0]), steps[1..]))
  }

  ghost function After(s: State, steps: seq<Step>): (s': State)
    requires Wf(s) && Runs(s, steps)
    ensures Wf(s') && s'.n == s.n && s'.start == s.start
    decreases |steps|
  {
    if steps == [] then s else After(Apply(s, steps[0]), steps[1..])
  }

  lemma {:induction false} RunsJoin(s: State, one: seq<Step>, two: seq<Step>)
    requires Wf(s) && Runs(s, one) && Runs(After(s, one), two)
    ensures Runs(s, one + two) && After(s, one + two) == After(After(s, one), two)
    decreases |one|
  {
    if one == [] {
      assert one + two == two;
    } else {
      assert (one + two)[1..] == one[1..] + two;
      RunsJoin(Apply(s, one[0]), one[1..], two);
    }
  }

  lemma {:induction false} RunsStep(s: State, step: Step, more: seq<Step>)
    requires Wf(s) && Enabled(s, step) && Runs(Apply(s, step), more)
    ensures Runs(s, [step] + more) && After(s, [step] + more) == After(Apply(s, step), more)
  {
    assert ([step] + more)[1..] == more;
  }

  ghost predicate Reachable(s: State) {
    exists steps ::
      |s.start| == s.n + 1 && Runs(Init(s.n, s.start), steps) && After(Init(s.n, s.start), steps) == s
  }

  lemma {:induction false} RunKeepsInv(s: State, steps: seq<Step>)
    requires Inv(s) && Runs(s, steps)
    ensures Inv(After(s, steps))
    decreases |steps|
  {
    if steps != [] {
      InvKept(s, steps[0]);
      RunKeepsInv(Apply(s, steps[0]), steps[1..]);
    }
  }

  lemma ReachableInv(s: State)
    requires Reachable(s)
    ensures Inv(s)
  {
    var steps :| |s.start| == s.n + 1 && Runs(Init(s.n, s.start), steps) && After(Init(s.n, s.start), steps) == s;
    InitOk(s.n, s.start);
    RunKeepsInv(Init(s.n, s.start), steps);
  }

  // ---- the theorems ----

  /** Has every child recorded an entry for time t? */
  ghost predicate Recorded(s: State, t: nat)
    requires Wf(s)
  {
    forall i :: Child(s.n, i) ==> t < |s.accounts[i].history|
  }

  /** What the histories show at time t: balances plus money in transit. */
  ghost function RecordedWealth(s: State, t: nat): int
    requires Wf(s) && Recorded(s, t)
  {
    Sum(s.n, i => if Child(s.n, i) then s.accounts[i].history[t].balance + s.accounts[i].history[t].pending else 0)
  }

  /** Conservation: at every Lamport time recorded by all children, balances plus pending
      money add up to the initial total; in every state of every run, also while a
      transfer is under way. */
  lemma Conservation(s: State, t: nat)
    requires Reachable(s) && Wf(s) && Recorded(s, t)
    ensures RecordedWealth(s, t) == InitialWealth(s)
  {
    ReachableInv(s);
    NothingMissing(s, t);
    SumEqual(s.n, i => if Child(s.n, i) then Worth(s.accounts[i], t) else 0,
      i => if Child(s.n, i) then s.accounts[i].history[t].balance + s.accounts[i].history[t].pending else 0);
    assert Wealth(s, t) + Missing(s.flight, t) == InitialWealth(s);
  }

  /** While money is under way its destination has recorded nothing past its stamp. */
  lemma NothingMissing(s: State, t: nat)
    requires Inv(s) && Recorded(s, t)
    ensures Missing(s.flight, t) == 0
  {
    if s.flight.ToTarget? && s.parent != Stopped {
      var dst := s.flight.order.dst;
      assert AccountOk(s.accounts[dst], s.start[dst]);
    }
  }

  /** Entry k of a history is for time k and shows the initial balance plus all changes
      received at times up to k: no gap, no overwriting. */
  lemma HistoryMeaning(s: State, i: int, k: nat)
    requires Reachable(s) && Wf(s) && Child(s.n, i) && k < |s.accounts[i].history|
    ensures s.accounts[i].history[k].time == k
    ensures s.accounts[i].history[k].balance == BalanceAt(s.start[i], s.accounts[i].events, k)
  {
    ReachableInv(s);
    assert AccountOk(s.accounts[i], s.start[i]);
  }

  /** Neither the parent's assertion nor a child's checks ever fail. */
  lemma NothingBreaks(s: State, i: int)
    requires Reachable(s) && Wf(s) && Child(s.n, i)
    ensures s.parent != Failed && s.accounts[i].stage != Broken
  {
    ReachableInv(s);
    assert AccountOk(s.accounts[i], s.start[i]);
  }
}
