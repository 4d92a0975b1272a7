/** How long a history can get when polls read the channels in the order of ids and STOP
    is written in that order: the clock of a child that takes DONEs before its STOP stays
    low, because only smaller ids can have stopped by then. */
module BankingTight {
  import opened Sums
  import opened Network
  import opened Stamps
  import opened Banking
  import opened BankingSafety
  import opened BankingTheorems
  import opened BankingLength
  import opened BankingBound
  import opened BankingPolls

  /** The latest stamp of child j's DONE. */
  function Cap(clock: int, n: nat, j: int): int
    requires 1 <= j <= n
  {
    if j == n then Latest(clock, n) else Latest(clock, n - 1) + 3
  }

  /** Children other than i from x on. */
  function Ahead(n: int, i: int, x: int): int {
    n - x + 1 - if i >= x then 1 else 0
  }

  ghost predicate SomeDropped(s: State, i: int)
    requires Wf(s)
  {
    exists j :: Dropped(s, i, j)
  }

  ghost predicate SomeHeard(s: State, i: int)
    requires Wf(s) && Child(s.n, i)
  {
    exists j :: HasHeard(s, i, j)
  }

  /** A child in its main loop: a DONE read before STOP was written may still be on its
      way, but only one. */
  ghost predicate RunningTight(f: Fine, i: int)
    requires FineWf(f) && Child(f.s.n, i)
  {
    var a := f.s.accounts[i];
    && f.s.ch(0, i) == [Stop(f.s.clock)]
    && (a.clock < f.s.clock || SomeHeard(f.s, i))
    && (i < f.s.n && f.next[0] > i ==>
          a.clock <= Latest(f.s.clock, f.s.n - 1) + if f.poll[i] == 0 then 1 else 0)
  }

  ghost predicate ChildTight(f: Fine, i: int)
    requires FineWf(f) && Child(f.s.n, i)
  {
    var a, n, c := f.s.accounts[i], f.s.n, f.s.clock;
    match a.stage
    case Running => RunningTight(f, i)
    case Collecting(x) =>
      && f.next[0] > i && |a.history| <= Latest(c, n)
      && (SomeDropped(f.s, i) || a.clock <= Latest(c, n) + 1 - Ahead(n, i, x))
    case Reported => f.next[0] > i && |a.history| <= Latest(c, n) + 2
    case Broken => false
  }

  ghost predicate LinkTight(f: Fine, j: int, i: int)
    requires FineWf(f) && Pair(f.s.n, i, j)
  {
    forall m :: m in f.s.ch(j, i) ==> m.time <= Cap(f.s.clock, f.s.n, j)
  }

  ghost predicate Tight(f: Fine)
    requires FineWf(f)
  {
    && (forall i :: Child(f.s.n, i) ==> ChildTight(f, i))
    && (forall i, j :: Pair(f.s.n, i, j) ==> LinkTight(f, j, i))
  }

  ghost predicate TightOk(f: Fine) {
    FineWf(f) && BoundOk(f.s) && (f.s.parent == Stopped ==> Tight(f))
  }

  // ---- arithmetic ----

  lemma LatestOrder(clock: int, m: int, n: int)
    requires 0 <= m <= n
    ensures Latest(clock, m) + 2 * (n - m) <= Latest(clock, n)
    ensures clock <= Latest(clock, m)
    ensures m < n ==> Latest(clock, m) + m + 2 <= Latest(clock, n)
  {
    TriangleStep(m, n);
  }

  lemma {:induction false} TriangleStep(m: nat, n: nat)
    requires m <= n
    ensures Triangle(m) + n - m <= Triangle(n)
    ensures m < n ==> Triangle(m) + n <= Triangle(n)
    decreases n - m
  {
    if m < n {
      TriangleStep(m, n - 1);
    }
  }

  /** Every DONE comes early enough for a child that collects it, with the rest to follow. */
  lemma CapLeavesRoom(clock: int, n: nat, i: int, j: int)
    requires Pair(n, i, j)
    ensures Cap(clock, n, j) <= Latest(clock, n) + 1 - Ahead(n, i, j)
  {
    LatestGrows(clock, n - 1);
  }

  // ---- which children can have stopped ----

  lemma {:induction false} CountBelow(n: nat, j: int, f: int -> int)
    requires 1 <= j && forall k :: 1 <= k <= n ==> f(k) == Bit(k < j)
    ensures Sum(n, f) == if n < j then n else j - 1
  {
    if n > 0 {
      CountBelow(n - 1, j, f);
    }
  }

  lemma StopsBelow(s: State, j: int)
    requires Wf(s) && Child(s.n, j) && forall k :: HasStopped(s, k) ==> k < j
    ensures Stops(s) <= j - 1
  {
    var f, g := k => Bit(HasStopped(s, k)), (k: int) => Bit(k < j);
    forall k | 1 <= k <= s.n
      ensures f(k) <= g(k)
    {
      assert f(k) == Bit(HasStopped(s, k));
      assert g(k) == Bit(k < j);
      assert HasStopped(s, k) ==> k < j;
    }
    SumBounded(s.n, f, g);
    CountBelow(s.n, j, g);
  }

  /** Until its STOP is written, a child can only have heard of smaller ids. */
  lemma BeforeStop(f: Fine, j: int)
    requires TightOk(f) && f.s.parent == Stopped && 1 <= j < f.s.n && f.next[0] <= j
    requires f.s.accounts[j].stage == Running
    ensures f.s.accounts[j].clock <= Latest(f.s.clock, f.s.n - 1)
  {
    forall k | HasStopped(f.s, k)
      ensures k < j
    {
      assert ChildTight(f, k);
    }
    StopsBelow(f.s, j);
    StopsAtMost(f.s);
    HeardAtMostStops(f.s, j);
    assert AccountBounded(f.s, j);
    LatestOrder(f.s.clock, Stops(f.s), f.s.n - 1);
  }

  lemma StopsNotAll(s: State, i: int)
    requires Wf(s) && Child(s.n, i) && s.accounts[i].stage == Running
    ensures 0 <= Stops(s) <= s.n - 1
  {
    StopsAtMost(s);
    SumFull(s.n, j => Bit(HasStopped(s, j)), i);
  }

  // ---- every move keeps the bounds ----

  /** Child k is not concerned: its account and what it is sent are as before. */
  ghost predicate Unconcerned(f: Fine, f': Fine, k: int)
    requires FineWf(f) && FineWf(f') && Child(f.s.n, k)
  {
    && f'.s.n == f.s.n && f'.s.clock == f.s.clock && f'.s.accounts[k] == f.s.accounts[k]
    && f'.s.ch(0, k) == f.s.ch(0, k) && f'.next[0] >= f.next[0]
    && (SomeHeard(f.s, k) ==> SomeHeard(f'.s, k)) && (SomeDropped(f.s, k) ==> SomeDropped(f'.s, k))
  }

  /** The cursors of a child in its main loop after STOP has been written: once at 0 it
      stays there. */
  ghost predicate CursorsOk(f: Fine, f': Fine, k: int)
    requires FineWf(f) && FineWf(f') && Child(f.s.n, k) && f'.s.n == f.s.n
  {
    f.s.accounts[k].stage == Running && k < f.s.n && f'.next[0] > k ==>
      if f.next[0] > k then f.poll[k] == 0 ==> f'.poll[k] == 0
      else f.s.accounts[k].clock <= Latest(f.s.clock, f.s.n - 1)
  }

  lemma UnconcernedTight(f: Fine, f': Fine, k: int)
    requires FineWf(f) && FineWf(f') && Child(f.s.n, k) && ChildTight(f, k)
    requires Unconcerned(f, f', k) && CursorsOk(f, f', k)
    ensures ChildTight(f', k)
  {
  }

  lemma CursorTight(f: Fine, move: Move)
    requires TightOk(f) && f.s.parent == Stopped && CanMove(f, move) && !move.Act?
    ensures Tight(Next(f, move))
  {
    var f' := Next(f, move);
    forall k | Child(f.s.n, k)
      ensures ChildTight(f', k)
    {
      CursorsMoved(f, move, k);
      UnconcernedTight(f, f', k);
    }
    forall i, j | Pair(f.s.n, i, j)
      ensures LinkTight(f', j, i)
    {
      assert LinkTight(f, j, i);
    }
  }

  lemma CursorsMoved(f: Fine, move: Move, k: int)
    requires TightOk(f) && f.s.parent == Stopped && CanMove(f, move) && !move.Act? && Child(f.s.n, k)
    ensures ChildTight(f, k)
    ensures Unconcerned(f, Next(f, move), k) && CursorsOk(f, Next(f, move), k)
  {
    assert ChildTight(f, k);
    if f.s.accounts[k].stage == Running && k < f.s.n && f.next[0] <= k { BeforeStop(f, k); }
  }

  // ---- a child takes a DONE in its main loop ----

  /** All children but i, and the channels but those of i, are as before. */
  lemma OthersTight(f: Fine, f': Fine, i: int, k: int)
    requires FineWf(f) && FineWf(f') && Tight(f) && Child(f.s.n, k) && Child(f.s.n, i) && k != i
    requires Others(f, f', i)
    ensures ChildTight(f', k)
  {
    assert ChildTight(f, k);
    if SomeHeard(f.s, k) {
      var j :| HasHeard(f.s, k, j);
      assert HasHeard(f'.s, k, j);
    }
    if SomeDropped(f.s, k) {
      var j :| Dropped(f.s, k, j);
      assert Dropped(f'.s, k, j);
    }
    UnconcernedTight(f, f', k);
  }

  /** What a receive of i leaves unchanged for the others. */
  ghost predicate Others(f: Fine, f': Fine, i: int)
    requires FineWf(f) && FineWf(f') && Child(f.s.n, i)
  {
    && f'.s.n == f.s.n && f'.s.clock == f.s.clock
    && f'.next[0] == f.next[0] && (forall k :: Child(f.s.n, k) && k != i ==> f'.poll[k] == f.poll[k])
    && (forall k :: Child(f.s.n, k) && k != i ==>
          f'.s.accounts[k] == f.s.accounts[k] && f'.s.ch(0, k) == f.s.ch(0, k))
    && (HasStopped(f.s, i) ==> HasStopped(f'.s, i))
    && (forall j, k :: Pair(f.s.n, j, k) && k != i && f.s.ch(j, k) == [] && HasStopped(f.s, j) ==> f'.s.ch(j, k) == [])
  }

  lemma TakeTight(f: Fine, i: int, j: int)
    requires TightOk(f) && f.s.parent == Stopped && CanMove(f, Act(ReceiveStep(i, j))) && j != 0
    ensures Tight(Next(f, Act(ReceiveStep(i, j))))
  {
    var f' := Next(f, Act(ReceiveStep(i, j)));
    DoneTaken(f.s, i, j);
    TakerTight(f, i, j);
    forall k | Child(f.s.n, k)
      ensures ChildTight(f', k)
    {
      if k != i { OthersTight(f, f', i, k); }
    }
    forall x, y | Pair(f.s.n, x, y)
      ensures LinkTight(f', y, x)
    {
      assert LinkTight(f, y, x);
    }
  }

  lemma TakerTight(f: Fine, i: int, j: int)
    requires TightOk(f) && f.s.parent == Stopped && CanMove(f, Act(ReceiveStep(i, j))) && j != 0
    ensures ChildTight(Next(f, Act(ReceiveStep(i, j))), i)
  {
    DoneTaken(f.s, i, j);
    assert ChildTight(f, i);
    TakerHears(f.s, Apply(f.s, ReceiveStep(i, j)), i, j);
    TakerClock(f, i, j);
    TakerStays(f, Next(f, Act(ReceiveStep(i, j))), i, j);
  }

  lemma TakerStays(f: Fine, f': Fine, i: int, j: int)
    requires FineWf(f) && FineWf(f') && Takes(f.s, f'.s, i, j) && RunningTight(f, i)
    requires f.s.accounts[i].stage == Running && SomeHeard(f'.s, i) && f'.next[0] == f.next[0] && f'.poll[i] == 0
    requires i < f.s.n && f.next[0] > i ==> f'.s.accounts[i].clock <= Latest(f.s.clock, f.s.n - 1) + 1
    ensures ChildTight(f', i)
  {
  }

  lemma TakerClock(f: Fine, i: int, j: int)
    requires FineWf(f) && Bounded(f.s) && CanMove(f, Act(ReceiveStep(i, j))) && j != 0 && RunningTight(f, i)
    ensures i < f.s.n && f.next[0] > i ==>
              Apply(f.s, ReceiveStep(i, j)).accounts[i].clock <= Latest(f.s.clock, f.s.n - 1) + 1
  {
    if i < f.s.n && f.next[0] > i {
      HeadInTime(f.s, i, j);
      TakenClock(f.s.accounts[i], f.s.n, f.s.ch(j, i)[0], Latest(f.s.clock, f.s.n - 1));
    }
  }

  lemma TakerHears(s: State, s': State, i: int, j: int)
    requires Wf(s) && Wf(s') && Bounded(s) && Takes(s, s', i, j)
    ensures SomeHeard(s', i)
  {
    assert LinkBounded(s, j, i);
    assert HasHeard(s', i, j);
  }

  lemma HeadInTime(s: State, i: int, j: int)
    requires Wf(s) && Bounded(s) && Pair(s.n, i, j) && s.accounts[i].stage == Running && s.ch(j, i) != []
    ensures s.ch(j, i)[0].Finish? && s.ch(j, i)[0].time <= Latest(s.clock, s.n - 1)
  {
    assert LinkBounded(s, j, i);
    StopsNotAll(s, i);
    LatestOrder(s.clock, Stops(s), s.n - 1);
  }

  // ---- a child takes STOP ----

  /** STOP is written by then, and the next read finds it. */
  lemma StopIsWritten(f: Fine, i: int)
    requires TightOk(f) && f.s.parent == Stopped && CanMove(f, Act(ReceiveStep(i, 0)))
    ensures f.next[0] > i && f.poll[i] == 0 && RunningTight(f, i)
  {
    assert ChildTight(f, i);
  }

  /** The stamp of the DONE that follows. */
  lemma HaltStamp(f: Fine, i: int)
    requires TightOk(f) && f.s.parent == Stopped && CanMove(f, Act(ReceiveStep(i, 0)))
    ensures Sync(f.s.accounts[i].clock, f.s.clock) + 1 <= Cap(f.s.clock, f.s.n, i)
    ensures Sync(f.s.accounts[i].clock, f.s.clock) + 1 <= Latest(f.s.clock, f.s.n)
  {
    StopIsWritten(f, i);
    RunningClock(f.s, i);
    LatestOrder(f.s.clock, f.s.n - 1, f.s.n);
  }

  /** The clock of any child before its STOP. */
  lemma RunningClock(s: State, i: int)
    requires Wf(s) && Bounded(s) && Child(s.n, i) && s.accounts[i].stage == Running
    ensures s.accounts[i].clock + 2 <= Latest(s.clock, s.n)
  {
    assert AccountBounded(s, i);
    StopsNotAll(s, i);
    HeardAtMostStops(s, i);
    LatestGrows(s.clock, Stops(s));
    LatestOrder(s.clock, Stops(s) + 1, s.n);
  }

  lemma HalterTight(f: Fine, i: int)
    requires TightOk(f) && f.s.parent == Stopped && CanMove(f, Act(ReceiveStep(i, 0)))
    ensures ChildTight(Next(f, Act(ReceiveStep(i, 0))), i)
  {
    var s, s' := f.s, Apply(f.s, ReceiveStep(i, 0));
    StopIsWritten(f, i);
    HaltStamp(f, i);
    HaltedAccount(s, i);
    if s.n > 1 {
      if SomeHeard(s, i) {
        var j :| HasHeard(s, i, j);
        HeardIsDropped(s, i, j);
      } else {
        LatestOrder(s.clock, 1, s.n);
      }
    }
  }

  /** What STOP makes of a child. */
  lemma HaltedAccount(s: State, i: int)
    requires BoundOk(s) && s.parent == Stopped && Enabled(s, ReceiveStep(i, 0)) && s.ch(0, i) == [Stop(s.clock)]
    ensures var a, t := Apply(s, ReceiveStep(i, 0)).accounts[i], Sync(s.accounts[i].clock, s.clock) + 1;
            if s.n == 1 then a.stage == Reported && |a.history| == t + 1
            else a.stage == Collecting(NextOther(i, 0)) && a.clock == t && |a.history| == t - 1
  {
    assert AccountOk(s.accounts[i], s.start[i]);
    ArriveKeeps(s.accounts[i], s.start[i], Stop(s.clock));
  }

  /** A DONE taken before STOP is lost after it. */
  lemma HeardIsDropped(s: State, i: int, j: int)
    requires BoundOk(s) && s.parent == Stopped && Enabled(s, ReceiveStep(i, 0)) && s.ch(0, i) == [Stop(s.clock)]
    requires HasHeard(s, i, j)
    ensures Dropped(Apply(s, ReceiveStep(i, 0)), i, j)
  {
    HaltedAccount(s, i);
    StopTaken(s, i);
  }

  lemma HaltTight(f: Fine, i: int)
    requires TightOk(f) && f.s.parent == Stopped && CanMove(f, Act(ReceiveStep(i, 0)))
    ensures Tight(Next(f, Act(ReceiveStep(i, 0))))
  {
    var f' := Next(f, Act(ReceiveStep(i, 0)));
    HalterTight(f, i);
    HaltOthers(f, i);
    forall k | Child(f.s.n, k)
      ensures ChildTight(f', k)
    {
      if k != i { OthersTight(f, f', i, k); }
    }
    forall x, y | Pair(f.s.n, x, y)
      ensures LinkTight(f', y, x)
    {
      HaltLink(f, i, x, y);
    }
  }

  lemma HaltOthers(f: Fine, i: int)
    requires TightOk(f) && f.s.parent == Stopped && CanMove(f, Act(ReceiveStep(i, 0)))
    ensures Others(f, Next(f, Act(ReceiveStep(i, 0))), i)
  {
    StopTaken(f.s, i);
  }

  lemma HaltLink(f: Fine, i: int, x: int, y: int)
    requires TightOk(f) && f.s.parent == Stopped && CanMove(f, Act(ReceiveStep(i, 0))) && Pair(f.s.n, x, y)
    ensures LinkTight(Next(f, Act(ReceiveStep(i, 0))), y, x)
  {
    assert LinkTight(f, y, x);
    HaltStamp(f, i);
    StopTaken(f.s, i);
  }

  // ---- a child collects a DONE ----

  lemma CollectorTight(f: Fine, i: int)
    requires TightOk(f) && CanMove(f, Act(CollectStep(i)))
    ensures ChildTight(Next(f, Act(CollectStep(i))), i)
  {
    CollectsFinish(f.s, i);
    assert ChildTight(f, i);
    if SomeDropped(f.s, i) { CollectorLost(f, i); } else { CollectorOnTime(f, i); }
  }

  /** A child that has lost a DONE can collect others, but records nothing more. */
  lemma CollectorLost(f: Fine, i: int)
    requires TightOk(f) && CanMove(f, Act(CollectStep(i))) && f.s.parent == Stopped
    requires ChildTight(f, i) && SomeDropped(f.s, i)
    ensures ChildTight(Next(f, Act(CollectStep(i))), i)
  {
    var s' := Apply(f.s, CollectStep(i));
    var j :| Dropped(f.s, i, j);
    DroppedForever(f.s, CollectStep(i), i, j);
    assert SomeDropped(s', i);
    CollectedAccount(f.s, i);
  }

  lemma CollectedAccount(s: State, i: int)
    requires Inv(s) && Enabled(s, CollectStep(i))
    ensures var a, x := Apply(s, CollectStep(i)).accounts[i], s.accounts[i].stage.next;
            if NextOther(i, x) > s.n then a.stage == Reported
            else a.stage == Collecting(NextOther(i, x)) && a.history == s.accounts[i].history
  {
    CollectsFinish(s, i);
  }

  lemma CollectorOnTime(f: Fine, i: int)
    requires TightOk(f) && CanMove(f, Act(CollectStep(i))) && f.s.parent == Stopped
    requires ChildTight(f, i) && !SomeDropped(f.s, i)
    ensures ChildTight(Next(f, Act(CollectStep(i))), i)
  {
    var s := f.s;
    var x := s.accounts[i].stage.next;
    CollectsFinish(s, i);
    assert LinkTight(f, x, i) && s.ch(x, i)[0] in s.ch(x, i);
    CapLeavesRoom(s.clock, s.n, i, x);
    assert AccountOk(s.accounts[i], s.start[i]);
    CollectedClock(s.accounts[i], s.start[i], s.n, x, s.ch(x, i)[0], Latest(s.clock, s.n) + 1 - Ahead(s.n, i, x));
    CollectedAccount(s, i);
  }

  lemma CollectTight(f: Fine, i: int)
    requires TightOk(f) && CanMove(f, Act(CollectStep(i)))
    ensures Tight(Next(f, Act(CollectStep(i))))
  {
    var f' := Next(f, Act(CollectStep(i)));
    CollectsFinish(f.s, i);
    CollectorTight(f, i);
    CollectOthers(f, i);
    forall k | Child(f.s.n, k)
      ensures ChildTight(f', k)
    {
      if k != i { OthersTight(f, f', i, k); }
    }
    forall x, y | Pair(f.s.n, x, y)
      ensures LinkTight(f', y, x)
    {
      CollectLinkTight(f, i, x, y);
    }
  }

  lemma CollectOthers(f: Fine, i: int)
    requires TightOk(f) && f.s.parent == Stopped && CanMove(f, Act(CollectStep(i)))
    ensures Others(f, Next(f, Act(CollectStep(i))), i)
  {
    DoneCollected(f.s, i);
  }

  lemma CollectLinkTight(f: Fine, i: int, x: int, y: int)
    requires TightOk(f) && f.s.parent == Stopped && CanMove(f, Act(CollectStep(i))) && Pair(f.s.n, x, y)
    ensures LinkTight(Next(f, Act(CollectStep(i))), y, x)
  {
    assert LinkTight(f, y, x);
    DoneCollected(f.s, i);
  }

  // ---- whole runs ----

  lemma StopTight(f: Fine)
    requires TightOk(f) && CanMove(f, Act(StopStep))
    ensures Tight(Next(f, Act(StopStep)))
  {
    var f' := Next(f, Act(StopStep));
    forall i | Child(f.s.n, i)
      ensures ChildTight(f', i)
    {
      assert f.s.ch(0, i) == InTransit(f.s.flight, 0, i);
    }
    forall i, j | Pair(f.s.n, i, j)
      ensures LinkTight(f', j, i)
    {
      assert f.s.ch(j, i) == InTransit(f.s.flight, j, i);
    }
  }

  lemma TightKept(f: Fine, move: Move)
    requires TightOk(f) && CanMove(f, move)
    ensures TightOk(Next(f, move))
  {
    match move
    case Act(step) => ActKeeps(f, step);
    case _ => if f.s.parent == Stopped { CursorTight(f, move); }
  }

  lemma ActKeeps(f: Fine, step: Step)
    requires TightOk(f) && CanMove(f, Act(step))
    ensures TightOk(Next(f, Act(step)))
  {
    BoundKept(f.s, step);
    if f.s.parent == Stopped {
      match step
      case ReceiveStep(i, from) => if from == 0 { HaltTight(f, i); } else { TakeTight(f, i, from); }
      case CollectStep(i) => CollectTight(f, i);
    } else if step == StopStep {
      StopTight(f);
    } else {
      StaysServing(f.s, step);
    }
  }

  lemma {:induction false} RunKeepsTight(f: Fine, moves: seq<Move>)
    requires TightOk(f) && FineRuns(f, moves)
    ensures TightOk(FineAfter(f, moves))
    decreases |moves|
  {
    if moves != [] {
      TightKept(f, moves[0]);
      RunKeepsTight(Next(f, moves[0]), moves[1..]);
    }
  }

  /** The longest history with n children after k transfers. */
  function Longest(n: nat, k: int): int
    requires n > 0
  {
    6 * k + 3 * n + 4 + Triangle(n - 1)
  }

  /** In every state of every run at the grain of single reads and writes, whatever has been
      lost, no history is longer than this. */
  lemma {:induction false} HistoryBoundWithPolls(n: nat, start: seq<int>, moves: seq<Move>, i: int)
    requires |start| == n + 1 && FineRuns(FineInit(n, start), moves) && Child(n, i)
    ensures var s := FineAfter(FineInit(n, start), moves).s;
            |s.accounts[i].history| <= Longest(n, Begun(s))
  {
    var f := FineAfter(FineInit(n, start), moves);
    InitOk(n, start);
    RunKeepsTight(FineInit(n, start), moves);
    assert AccountOk(f.s.accounts[i], f.s.start[i]);
    if f.s.parent == Stopped {
      assert ChildTight(f, i);
      if f.s.accounts[i].stage == Running { RunningClock(f.s, i); }
    }
  }

  /** With the n transfers of `bank_robbery` and any number of children that the program
      accepts, `record_history` never writes past the array's 256 entries, and the length
      never wraps. */
  lemma {:induction false} HistoryAlwaysFits(n: nat, start: seq<int>, moves: seq<Move>, i: int)
    requires |start| == n + 1 && FineRuns(FineInit(n, start), moves) && Child(n, i) && n <= 15
    requires Begun(FineAfter(FineInit(n, start), moves).s) <= n
    ensures |FineAfter(FineInit(n, start), moves).s.accounts[i].history| <= 244 <= 255
  {
    HistoryBoundWithPolls(n, start, moves, i);
    LongestIsSmall(n, Begun(FineAfter(FineInit(n, start), moves).s));
  }

  lemma LongestIsSmall(n: nat, k: int)
    requires 0 < n <= 15 && k <= n
    ensures Longest(n, k) <= 244
  {
    TriangleGrows(n - 1, 14);
    TriangleClosed(14);
  }
}
