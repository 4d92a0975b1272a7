/** A run in which a history gets as long as it ever can: the children stop in the order of
    ids, each after taking the DONE of all before it, the latest first, while their
    multicasts are under way; then child 1 collects. */
module BankingLongest {
  import opened Network
  import opened Banking
  import opened BankingSafety
  import opened BankingTheorems
  import opened BankingLength
  import opened BankingBound
  import opened BankingPolls
  import opened BankingTight

  // ---- putting runs together ----

  /** The moves lead from f to g. */
  ghost predicate Leads(f: Fine, moves: seq<Move>, g: Fine) {
    FineWf(f) && FineRuns(f, moves) && FineAfter(f, moves) == g
  }

  lemma {:induction false} Join(f: Fine, one: seq<Move>, g: Fine, two: seq<Move>, h: Fine)
    requires Leads(f, one, g) && Leads(g, two, h)
    ensures Leads(f, one + two, h)
    decreases |one|
  {
    if one == [] {
      assert one + two == two;
    } else {
      assert (one + two)[1..] == one[1..] + two;
      Join(Next(f, one[0]), one[1..], g, two, h);
    }
  }

  lemma OneMove(f: Fine, move: Move)
    requires FineWf(f) && CanMove(f, move)
    ensures Leads(f, [move], Next(f, move))
  {
    assert [move][1..] == [];
    assert FineRuns(Next(f, move), []) && FineAfter(Next(f, move), []) == Next(f, move);
  }

  function WritesAt(f: Fine, a: int, to: int): Fine
    requires 0 <= a < |f.next|
  {
    var next := f.next[a := to];
    f.(next := next)
  }

  function ReadsAt(f: Fine, i: int, to: int): Fine
    requires 0 <= i < |f.poll|
  {
    var poll := f.poll[i := to];
    f.(poll := poll)
  }

  /** Process a writes on, up to process `to`. */
  lemma {:induction false} WriteOn(f: Fine, a: int, to: int) returns (moves: seq<Move>)
    requires FineWf(f) && 0 <= a <= f.s.n && f.next[a] <= to <= f.s.n + 1
    ensures Leads(f, moves, WritesAt(f, a, to))
    decreases f.s.n + 1 - f.next[a]
  {
    if f.next[a] == to {
      moves := [];
      assert WritesAt(f, a, to) == f;
    } else {
      var g := Next(f, Write(a));
      OneMove(f, Write(a));
      var rest := WriteOn(g, a, to);
      Join(f, [Write(a)], g, rest, WritesAt(f, a, to));
      moves := [Write(a)] + rest;
    }
  }

  /** The poll of child i passes over channels with nothing to read. */
  lemma {:induction false} LookOn(f: Fine, i: int, to: int) returns (moves: seq<Move>)
    requires FineWf(f) && Child(f.s.n, i) && f.poll[i] <= to <= f.s.n
    requires f.s.accounts[i].stage == Running && Idle(f, i)
    requires forall q :: f.poll[i] <= q < to ==> q == i || Written(f, q, i) == []
    ensures Leads(f, moves, ReadsAt(f, i, to))
    decreases f.s.n - f.poll[i]
  {
    if f.poll[i] == to {
      moves := [];
      assert ReadsAt(f, i, to) == f;
    } else {
      var g := Next(f, Look(i));
      OneMove(f, Look(i));
      forall q | g.poll[i] <= q < to
        ensures q == i || Written(g, q, i) == []
      {
        assert Written(g, q, i) == Written(f, q, i);
      }
      var rest := LookOn(g, i, to);
      Join(f, [Look(i)], g, rest, ReadsAt(f, i, to));
      moves := [Look(i)] + rest;
    }
  }

  // ---- transfers ----

  /** Nobody is writing, and only child 2 may be in a poll. */
  ghost predicate Serves(f: Fine, poll: int) {
    && FineWf(f) && Inv(f.s) && ParentClockOk(f.s) && f.s.parent != Stopped && f.s.n >= 2 && f.poll[2] == poll
    && (forall a :: 0 <= a <= f.s.n ==> Idle(f, a) && (a != 2 ==> f.poll[a] == 0))
  }

  /** A step of the transfer from child 1 to child 2 that can be made at once. */
  lemma ServingMove(f: Fine, poll: int, step: Step)
    requires Serves(f, poll) && Enabled(f.s, step) && step != StopStep && !step.CollectStep?
    requires step.ReceiveStep? ==> f.poll[step.i] == step.from && !Announces(f.s, step)
    ensures CanMove(f, Act(step))
    ensures Serves(Next(f, Act(step)), if step.ReceiveStep? && step.i == 2 then 0 else poll)
  {
    InvKept(f.s, step);
    ParentClockKept(f.s, step);
    StaysServing(f.s, step);
  }

  lemma OneTransfer(f: Fine) returns (moves: seq<Move>, g: Fine)
    requires Serves(f, 0) && f.s.parent == Ready
    ensures Leads(f, moves, g) && Serves(g, 0) && g.s.parent == Ready
    ensures g.s.done == f.s.done + 1 && g.s.n == f.s.n
  {
    var f1 := Next(f, Act(TransferStep(1, 2, 0)));
    ServingMove(f, 0, TransferStep(1, 2, 0));
    OneMove(f, Act(TransferStep(1, 2, 0)));
    var rest := ToTheSource(f1);
    g := rest.1;
    Join(f, [Act(TransferStep(1, 2, 0))], f1, rest.0, g);
    moves := [Act(TransferStep(1, 2, 0))] + rest.0;
  }

  /** The transfer under way. */
  ghost predicate Under(f: Fine) {
    Wf(f.s) && f.s.parent == Awaiting(2) &&
    match f.s.flight
    case ToSource(m) => m.Transfer? && m.src == 1 && m.dst == 2
    case ToTarget(m) => m.Transfer? && m.src == 1 && m.dst == 2
    case Returning(dst, _) => dst == 2
    case Quiet => false
  }

  lemma ToTheSource(f: Fine) returns (r: (seq<Move>, Fine))
    requires Serves(f, 0) && Under(f) && f.s.flight.ToSource?
    ensures Leads(f, r.0, r.1) && Serves(r.1, 0) && r.1.s.parent == Ready
    ensures r.1.s.done == f.s.done + 1 && r.1.s.n == f.s.n
  {
    var step := ReceiveStep(1, 0);
    assert Link(f.s.n, 0, 1);
    WhoReceives(f.s, 1, 0);
    ServingMove(f, 0, step);
    OneMove(f, Act(step));
    var g := Next(f, Act(step));
    var rest := ToTheTarget(g);
    Join(f, [Act(step)], g, rest.0, rest.1);
    r := ([Act(step)] + rest.0, rest.1);
  }

  lemma ToTheTarget(f: Fine) returns (r: (seq<Move>, Fine))
    requires Serves(f, 0) && Under(f) && f.s.flight.ToTarget?
    ensures Leads(f, r.0, r.1) && Serves(r.1, 0) && r.1.s.parent == Ready
    ensures r.1.s.done == f.s.done + 1 && r.1.s.n == f.s.n
  {
    assert Link(f.s.n, 0, 2) && Link(f.s.n, 1, 2);
    var g := Next(f, Look(2));
    OneMove(f, Look(2));
    var step := ReceiveStep(2, 1);
    WhoReceives(g.s, 2, 1);
    ServingMove(g, 1, step);
    OneMove(g, Act(step));
    var h := Next(g, Act(step));
    Join(f, [Look(2)], g, [Act(step)], h);
    var rest := ToTheParent(h);
    Join(f, [Look(2)] + [Act(step)], h, rest.0, rest.1);
    r := ([Look(2)] + [Act(step)] + rest.0, rest.1);
  }

  lemma ToTheParent(f: Fine) returns (r: (seq<Move>, Fine))
    requires Serves(f, 0) && Under(f) && f.s.flight.Returning?
    ensures Leads(f, r.0, r.1) && Serves(r.1, 0) && r.1.s.parent == Ready
    ensures r.1.s.done == f.s.done + 1 && r.1.s.n == f.s.n
  {
    assert Link(f.s.n, 2, 0);
    AckKeeps(f.s);
    ServingMove(f, 0, AckStep);
    OneMove(f, Act(AckStep));
    r := ([Act(AckStep)], Next(f, Act(AckStep)));
  }

  lemma {:induction false} Transfers(f: Fine, k: nat) returns (moves: seq<Move>, g: Fine)
    requires Serves(f, 0) && f.s.parent == Ready
    ensures Leads(f, moves, g) && Serves(g, 0) && g.s.parent == Ready
    ensures g.s.done == f.s.done + k && g.s.n == f.s.n
    decreases k
  {
    if k == 0 {
      moves, g := [], f;
    } else {
      var one, h := OneTransfer(f);
      var rest;
      rest, g := Transfers(h, k - 1);
      Join(f, one, h, rest, g);
      moves := one + rest;
    }
  }

  // ---- stopping, child by child ----

  /** What is in the channel from x to y: children below k have stopped, and child k has
      taken the DONE of those above j. */
  function InFlight(clock: int, k: int, j: int, x: nat, y: int): seq<Order> {
    if x < k && !(y == k && x > j) then [Finish(Latest(clock, x))] else []
  }

  /** Children below k have stopped and have written DONE to everyone below k, those above
      j to child k as well. */
  ghost predicate Rising(f: Fine, k: int, j: int) {
    && FineWf(f) && Inv(f.s) && f.s.parent == Stopped && f.s.n >= 2 && 0 <= j < k <= f.s.n + 1
    && f.next[0] == k
    && (forall x :: 1 <= x < k ==> f.next[x] == if x > j then k + 1 else k)
    && (forall x :: k <= x <= f.s.n ==>
          Idle(f, x) && f.poll[x] == 0 && f.s.accounts[x].stage == Running && f.s.ch(0, x) == [Stop(f.s.clock)])
    && (forall x :: k < x <= f.s.n ==> f.s.accounts[x].clock < f.s.clock)
    && (if k > f.s.n then j == f.s.n
        else if j == k - 1 then f.s.accounts[k].clock < f.s.clock
        else f.s.accounts[k].clock == Latest(f.s.clock, k - 1) + k - 1 - j)
    && (k > 1 ==> f.s.accounts[1].stage == Collecting(2) && f.s.accounts[1].clock == f.s.clock + 2)
    && (forall x, y :: Pair(f.s.n, x, y) && (y >= k || y == 1) ==> f.s.ch(x, y) == InFlight(f.s.clock, k, j, x, y))
  }

  lemma StopRises(f: Fine) returns (moves: seq<Move>, g: Fine)
    requires Serves(f, 0) && f.s.parent == Ready
    ensures Leads(f, moves, g) && Rising(g, 1, 0)
    ensures g.s.n == f.s.n && g.s.done == f.s.done && g.s.clock == f.s.clock + 1
  {
    OneMove(f, Act(StopStep));
    var h := Next(f, Act(StopStep));
    OneMove(h, Write(0));
    g := Next(h, Write(0));
    Join(f, [Act(StopStep)], h, [Write(0)], g);
    moves := [Act(StopStep)] + [Write(0)];
    Stopping(f, g);
  }

  lemma Stopping(f: Fine, g: Fine)
    requires Serves(f, 0) && f.s.parent == Ready && FineWf(g) && g.s == Apply(f.s, StopStep)
    requires g.next == f.next[0 := 1] && g.poll == f.poll
    ensures Rising(g, 1, 0)
  {
    InvKept(f.s, StopStep);
    StopChannels(f.s);
    forall x | 1 <= x <= f.s.n
      ensures Idle(g, x) && g.poll[x] == 0
    {
      assert Idle(f, x);
    }
  }

  lemma StopChannels(s: State)
    requires Inv(s) && s.parent == Ready
    ensures var s' := Apply(s, StopStep);
            && (forall x :: Child(s.n, x) ==>
                  s'.ch(0, x) == [Stop(s'.clock)] && s'.accounts[x].stage == Running && s'.accounts[x].clock < s'.clock)
            && (forall x, y :: Pair(s.n, x, y) ==> s'.ch(x, y) == [])
  {
    forall x, y | Link(s.n, x, y)
      ensures s.ch(x, y) == []
    {
      assert s.ch(x, y) == InTransit(s.flight, x, y);
    }
  }

  /** The account of child k when it takes the DONE of child j. */
  lemma TakesDone(f: Fine, k: int, j: int)
    requires Rising(f, k, j) && 1 <= j && k <= f.s.n
    ensures f.s.ch(j, k) == [Finish(Latest(f.s.clock, j))]
    ensures var r := Receive(f.s.accounts[k], f.s.n, f.s.ch(j, k)[0]);
            && r.out == Nothing(f.s.n) && r.account.stage == Running
            && r.account.clock == Latest(f.s.clock, k - 1) + k - j
  {
    assert Pair(f.s.n, j, k);
    assert f.s.ch(j, k) == InFlight(f.s.clock, k, j, j, k);
    LatestOrder(f.s.clock, j, k - 1);
  }

  /** Only child k and its channel from j have changed. */
  ghost predicate Took(s: State, s': State, k: int, j: int)
    requires Wf(s) && Wf(s') && Pair(s.n, k, j) && j < k
  {
    && s'.n == s.n && s'.clock == s.clock && s'.parent == s.parent && s'.done == s.done
    && (forall x :: 0 <= x <= s.n && x != k ==> s'.accounts[x] == s.accounts[x])
    && s'.accounts[k].stage == Running && s'.accounts[k].clock == Latest(s.clock, k - 1) + k - j
    && (forall x, y :: s'.ch(x, y) == if x == j && y == k then [] else s.ch(x, y))
  }

  lemma TakeRises(f: Fine, g: Fine, k: int, j: int)
    requires Rising(f, k, j) && 1 <= j && k <= f.s.n
    requires FineWf(g) && Inv(g.s) && Took(f.s, g.s, k, j)
    requires g.next == f.next[j := k + 1] && g.poll[k] == 0 && forall x :: k < x <= f.s.n ==> g.poll[x] == f.poll[x]
    ensures Rising(g, k, j - 1)
  {
    forall x, y | Pair(f.s.n, x, y) && (y >= k || y == 1)
      ensures g.s.ch(x, y) == InFlight(f.s.clock, k, j - 1, x, y)
    {
      assert f.s.ch(x, y) == InFlight(f.s.clock, k, j, x, y);
    }
  }

  /** Child j writes its DONE to child k, whose poll finds nothing before it. */
  lemma Approach(f: Fine, k: int, j: int) returns (moves: seq<Move>, g: Fine)
    requires Rising(f, k, j) && 1 <= j && k <= f.s.n
    ensures Leads(f, moves, g) && g == ReadsAt(WritesAt(f, j, k + 1), k, j)
  {
    var one := WriteOn(f, j, k + 1);
    var f1 := WritesAt(f, j, k + 1);
    NothingBefore(f, f1, k, j);
    var two := LookOn(f1, k, j);
    g := ReadsAt(f1, k, j);
    Join(f, one, f1, two, g);
    moves := one + two;
  }

  lemma TakeStep(f: Fine, g: Fine, k: int, j: int)
    requires Rising(f, k, j) && 1 <= j && k <= f.s.n && g == ReadsAt(WritesAt(f, j, k + 1), k, j)
    ensures FineWf(g) && CanMove(g, Act(ReceiveStep(k, j)))
    ensures Rising(Next(g, Act(ReceiveStep(k, j))), k, j - 1)
    ensures var h := Next(g, Act(ReceiveStep(k, j))); h.s.n == f.s.n && h.s.done == f.s.done && h.s.clock == f.s.clock
  {
    TakesDone(f, k, j);
    DoneTook(f, k, j);
    InvKept(f.s, ReceiveStep(k, j));
    TakeRises(f, Next(g, Act(ReceiveStep(k, j))), k, j);
  }

  lemma TakeOn(f: Fine, k: int, j: int) returns (moves: seq<Move>, g: Fine)
    requires Rising(f, k, j) && 1 <= j && k <= f.s.n
    ensures Leads(f, moves, g) && Rising(g, k, j - 1)
    ensures g.s.n == f.s.n && g.s.done == f.s.done && g.s.clock == f.s.clock
  {
    var one, f1 := Approach(f, k, j);
    TakeStep(f, f1, k, j);
    OneMove(f1, Act(ReceiveStep(k, j)));
    g := Next(f1, Act(ReceiveStep(k, j)));
    Join(f, one, f1, [Act(ReceiveStep(k, j))], g);
    moves := one + [Act(ReceiveStep(k, j))];
  }

  lemma NothingBefore(f: Fine, g: Fine, k: int, j: int)
    requires Rising(f, k, j) && 1 <= j && k <= f.s.n && g == WritesAt(f, j, k + 1)
    ensures FineWf(g) && forall q :: 0 <= q < j ==> Written(g, q, k) == []
  {
    forall q | 1 <= q < j
      ensures Written(g, q, k) == []
    {
      assert f.s.ch(q, k) == InFlight(f.s.clock, k, j, q, k);
    }
  }

  lemma DoneTook(f: Fine, k: int, j: int)
    requires Rising(f, k, j) && 1 <= j && k <= f.s.n
    ensures Enabled(f.s, ReceiveStep(k, j)) && Took(f.s, Apply(f.s, ReceiveStep(k, j)), k, j)
  {
    TakesDone(f, k, j);
  }

  /** The account of child k when it takes STOP. */
  lemma TakesStopAt(f: Fine, k: int)
    requires Rising(f, k, 0) && k <= f.s.n
    ensures var r := Receive(f.s.accounts[k], f.s.n, Stop(f.s.clock));
            && r.out == ToAll(f.s.n, k, Finish(Latest(f.s.clock, k)))
            && r.account.stage == Collecting(NextOther(k, 0)) && r.account.clock == Latest(f.s.clock, k)
  {
    LatestGrows(f.s.clock, k - 1);
    LatestOrder(f.s.clock, 0, k - 1);
  }

  /** Only child k and the channels it sends on, or takes STOP from, have changed. */
  ghost predicate Halted(s: State, s': State, k: int)
    requires Wf(s) && Wf(s') && Child(s.n, k)
  {
    && s'.n == s.n && s'.clock == s.clock && s'.parent == s.parent && s'.done == s.done
    && (forall x :: 0 <= x <= s.n && x != k ==> s'.accounts[x] == s.accounts[x])
    && s'.accounts[k].stage == Collecting(NextOther(k, 0)) && s'.accounts[k].clock == Latest(s.clock, k)
    && (forall y :: Child(s.n, y) && y != k ==> s'.ch(0, y) == s.ch(0, y))
    && (forall x, y :: Pair(s.n, x, y) ==>
          s'.ch(x, y) == s.ch(x, y) + if x == k then [Finish(Latest(s.clock, k))] else [])
  }

  lemma StopTook(f: Fine, k: int)
    requires Rising(f, k, 0) && k <= f.s.n
    ensures Enabled(f.s, ReceiveStep(k, 0)) && Announces(f.s, ReceiveStep(k, 0))
    ensures Halted(f.s, Apply(f.s, ReceiveStep(k, 0)), k)
  {
    TakesStopAt(f, k);
  }

  lemma HaltRises(f: Fine, g: Fine, k: int)
    requires Rising(f, k, 0) && k <= f.s.n && FineWf(g) && Inv(g.s) && Halted(f.s, g.s, k)
    requires g.next == f.next[0 := k + 1][k := k + 1]
    requires forall x :: k < x <= f.s.n ==> g.poll[x] == f.poll[x]
    ensures Rising(g, k + 1, k)
  {
    forall x, y | Pair(f.s.n, x, y) && (y >= k + 1 || y == 1)
      ensures g.s.ch(x, y) == InFlight(f.s.clock, k + 1, k, x, y)
    {
      HaltChannel(f, g.s, k, x, y);
    }
    HaltCursors(f, g, k);
    HaltAccounts(f, g.s, k);
  }

  lemma HaltChannel(f: Fine, s': State, k: int, x: int, y: int)
    requires Rising(f, k, 0) && k <= f.s.n && Wf(s') && Halted(f.s, s', k)
    requires Pair(f.s.n, x, y) && (y >= k + 1 || y == 1)
    ensures s'.ch(x, y) == InFlight(f.s.clock, k + 1, k, x, y)
  {
    assert f.s.ch(x, y) == InFlight(f.s.clock, k, 0, x, y);
  }

  lemma HaltCursors(f: Fine, g: Fine, k: int)
    requires Rising(f, k, 0) && k <= f.s.n && FineWf(g) && g.s.n == f.s.n
    requires g.next == f.next[0 := k + 1][k := k + 1]
    requires forall x :: k < x <= f.s.n ==> g.poll[x] == f.poll[x]
    ensures g.next[0] == k + 1
    ensures forall x :: 1 <= x < k + 1 ==> g.next[x] == k + 1
    ensures forall x :: k + 1 <= x <= f.s.n ==> Idle(g, x) && g.poll[x] == 0
  {
  }

  lemma HaltAccounts(f: Fine, s': State, k: int)
    requires Rising(f, k, 0) && k <= f.s.n && Wf(s') && Halted(f.s, s', k)
    ensures forall x :: k + 1 <= x <= f.s.n ==>
              s'.accounts[x].stage == Running && s'.ch(0, x) == [Stop(s'.clock)] && s'.accounts[x].clock < s'.clock
    ensures s'.accounts[1].stage == Collecting(2) && s'.accounts[1].clock == s'.clock + 2
  {
  }

  /** The parent writes STOP to child k, which takes it and writes DONE to everyone up to k. */
  lemma HaltOn(f: Fine, k: int) returns (moves: seq<Move>, g: Fine)
    requires Rising(f, k, 0) && k <= f.s.n
    ensures Leads(f, moves, g) && Rising(g, k + 1, k)
    ensures g.s.n == f.s.n && g.s.done == f.s.done && g.s.clock == f.s.clock
  {
    var one, f2 := HaltFirst(f, k);
    var three := WriteOn(f2, k, k + 1);
    g := WritesAt(f2, k, k + 1);
    Join(f, one, f2, three, g);
    moves := one + three;
    HaltedRises(f, f2, k);
  }

  lemma HaltedRises(f: Fine, g: Fine, k: int)
    requires Rising(f, k, 0) && k <= f.s.n && HasHalted(f, g, k)
    ensures var h := WritesAt(g, k, k + 1);
            Rising(h, k + 1, k) && h.s.n == f.s.n && h.s.done == f.s.done && h.s.clock == f.s.clock
  {
    HaltRises(f, WritesAt(g, k, k + 1), k);
  }

  /** STOP has been written to child k and taken. */
  ghost predicate HasHalted(f: Fine, g: Fine, k: int) {
    && FineWf(f) && FineWf(g) && Child(f.s.n, k) && Inv(g.s) && Halted(f.s, g.s, k)
    && g.next == f.next[0 := k + 1][k := 0] && forall x :: k < x <= f.s.n ==> g.poll[x] == f.poll[x]
  }

  lemma HaltFirst(f: Fine, k: int) returns (moves: seq<Move>, g: Fine)
    requires Rising(f, k, 0) && k <= f.s.n
    ensures Leads(f, moves, g) && HasHalted(f, g, k)
  {
    var one := WriteOn(f, 0, k + 1);
    var f1 := WritesAt(f, 0, k + 1);
    var step := ReceiveStep(k, 0);
    HaltStep(f, f1, k);
    OneMove(f1, Act(step));
    g := Next(f1, Act(step));
    Join(f, one, f1, [Act(step)], g);
    moves := one + [Act(step)];
  }

  lemma HaltStep(f: Fine, f1: Fine, k: int)
    requires Rising(f, k, 0) && k <= f.s.n && f1 == WritesAt(f, 0, k + 1)
    ensures FineWf(f1) && CanMove(f1, Act(ReceiveStep(k, 0)))
    ensures HasHalted(f, Next(f1, Act(ReceiveStep(k, 0))), k)
  {
    StopTook(f, k);
    InvKept(f.s, ReceiveStep(k, 0));
    StopReadable(f, f1, k);
  }

  lemma StopReadable(f: Fine, f1: Fine, k: int)
    requires Rising(f, k, 0) && k <= f.s.n && f1 == WritesAt(f, 0, k + 1)
    ensures FineWf(f1) && Idle(f1, k) && f1.poll[k] == 0 && Written(f1, 0, k) == [Stop(f.s.clock)]
  {
  }

  lemma {:induction false} Rise(f: Fine, k: int, j: int) returns (moves: seq<Move>, g: Fine)
    requires Rising(f, k, j)
    ensures Leads(f, moves, g) && Rising(g, f.s.n + 1, f.s.n)
    ensures g.s.n == f.s.n && g.s.done == f.s.done && g.s.clock == f.s.clock
    decreases f.s.n + 1 - k, j
  {
    if k > f.s.n {
      moves, g := [], f;
    } else {
      var one, h;
      if j > 0 {
        one, h := TakeOn(f, k, j);
      } else {
        one, h := HaltOn(f, k);
      }
      var rest;
      rest, g := Rise(h, if j > 0 then k else k + 1, if j > 0 then j - 1 else k);
      Join(f, one, h, rest, g);
      moves := one + rest;
    }
  }

  /** A DONE can be lost: with two children or more, child 1 takes its STOP and writes DONE to
      child 2 before the parent writes STOP there. */
  lemma DoneCanBeDropped(n: nat, start: seq<int>) returns (moves: seq<Move>)
    requires n >= 2 && |start| == n + 1
    ensures FineRuns(FineInit(n, start), moves)
    ensures Dropped(FineAfter(FineInit(n, start), moves).s, 2, 1)
  {
    var f := FineInit(n, start);
    InitOk(n, start);
    var one, f1 := StopRises(f);
    var two, f2 := HaltOn(f1, 1);
    var three, f3 := TakeOn(f2, 2, 1);
    Join(f1, two, f2, three, f3);
    Join(f, one, f1, two + three, f3);
    moves := one + (two + three);
    TakenIsDropped(f3);
  }

  lemma TakenIsDropped(f: Fine)
    requires Rising(f, 2, 0)
    ensures f.s.n >= 2 && Dropped(f.s, 2, 1)
  {
    assert f.s.ch(1, 2) == InFlight(f.s.clock, 2, 0, 1, 2);
  }

  // ---- child 1 collects ----

  ghost predicate Gathering(f: Fine, x: int) {
    && FineWf(f) && Inv(f.s) && f.s.parent == Stopped && 2 <= x <= f.s.n
    && (forall y :: 0 <= y <= f.s.n ==> Idle(f, y))
    && f.s.accounts[1].stage == Collecting(x)
    && f.s.accounts[1].clock == (if x == 2 then f.s.clock + 2 else Latest(f.s.clock, x - 1) + 1)
    && (forall y :: x <= y <= f.s.n ==> f.s.ch(y, 1) == [Finish(Latest(f.s.clock, y))])
  }

  lemma RisenGathers(f: Fine)
    requires Rising(f, f.s.n + 1, f.s.n)
    ensures Gathering(f, 2)
  {
    forall y | 2 <= y <= f.s.n
      ensures f.s.ch(y, 1) == [Finish(Latest(f.s.clock, y))]
    {
      assert Pair(f.s.n, y, 1);
      assert f.s.ch(y, 1) == InFlight(f.s.clock, f.s.n + 1, f.s.n, y, 1);
    }
  }

  lemma GatheredAt(f: Fine, x: int)
    requires Gathering(f, x)
    ensures var r := Collect(f.s.accounts[1], f.s.n, x, f.s.ch(x, 1)[0]);
            && r.out == Nothing(f.s.n)
            && (if x < f.s.n then
                  r.account.stage == Collecting(x + 1) && r.account.clock == Latest(f.s.clock, x) + 1
                else |r.account.history| == Latest(f.s.clock, f.s.n) + 2)
  {
    LatestGrows(f.s.clock, x - 1);
    LatestOrder(f.s.clock, 1, x);
    assert f.s.accounts[1].id == 1 && AccountOk(f.s.accounts[1], f.s.start[1]);
  }

  lemma GatherMove(f: Fine, x: int)
    requires Gathering(f, x)
    ensures CanMove(f, Act(CollectStep(1)))
  {
    assert f.s.ch(x, 1) == [Finish(Latest(f.s.clock, x))] && Idle(f, x);
  }

  lemma GatherStep(f: Fine, x: int)
    requires Gathering(f, x)
    ensures CanMove(f, Act(CollectStep(1)))
    ensures var g := Next(f, Act(CollectStep(1)));
            && g.s.done == f.s.done && g.s.parent == Stopped && g.s.n == f.s.n && g.s.clock == f.s.clock
            && if x < f.s.n then Gathering(g, x + 1)
               else |g.s.accounts[1].history| == Latest(f.s.clock, f.s.n) + 2
  {
    GatherMove(f, x);
    GatheredAt(f, x);
    InvKept(f.s, CollectStep(1));
    var g := Next(f, Act(CollectStep(1)));
    forall y | x < y <= f.s.n
      ensures g.s.ch(y, 1) == [Finish(Latest(f.s.clock, y))]
    {
      assert g.s.ch(y, 1) == f.s.ch(y, 1);
    }
    forall y | 0 <= y <= f.s.n
      ensures Idle(g, y)
    {
      assert Idle(f, y);
    }
  }

  lemma {:induction false} Gather(f: Fine, x: int) returns (moves: seq<Move>, g: Fine)
    requires Gathering(f, x)
    ensures Leads(f, moves, g) && g.s.done == f.s.done && g.s.parent == Stopped
    ensures |g.s.accounts[1].history| == Latest(f.s.clock, f.s.n) + 2
    decreases f.s.n - x
  {
    GatherStep(f, x);
    OneMove(f, Act(CollectStep(1)));
    g := Next(f, Act(CollectStep(1)));
    moves := [Act(CollectStep(1))];
    if x < f.s.n {
      var rest, h := Gather(g, x + 1);
      Join(f, moves, g, rest, h);
      moves, g := moves + rest, h;
    }
  }

  // ---- the bound is reached ----

  lemma StopAndGather(f: Fine) returns (moves: seq<Move>, g: Fine)
    requires Serves(f, 0) && f.s.parent == Ready
    ensures Leads(f, moves, g) && g.s.done == f.s.done && g.s.parent == Stopped
    ensures |g.s.accounts[1].history| == Longest(f.s.n, f.s.done)
  {
    var one, f1 := StopRises(f);
    var rest;
    rest, g := RiseAndGather(f1);
    Join(f, one, f1, rest, g);
    moves := one + rest;
  }

  lemma RiseAndGather(f: Fine) returns (moves: seq<Move>, g: Fine)
    requires Rising(f, 1, 0)
    ensures Leads(f, moves, g) && g.s.done == f.s.done && g.s.parent == Stopped
    ensures |g.s.accounts[1].history| == Latest(f.s.clock, f.s.n) + 2
  {
    var one, h := Rise(f, 1, 0);
    RisenGathers(h);
    var two;
    two, g := Gather(h, 2);
    Join(f, one, h, two, g);
    moves := one + two;
  }

  /** The bound of HistoryBoundWithPolls is the best possible: with two children or more, and
      after any number of transfers, the history of child 1 can get that long. */
  lemma BoundIsReached(n: nat, start: seq<int>, k: nat) returns (moves: seq<Move>)
    requires n >= 2 && |start| == n + 1
    ensures FineRuns(FineInit(n, start), moves)
    ensures var s := FineAfter(FineInit(n, start), moves).s;
            Begun(s) == k && |s.accounts[1].history| == Longest(n, k)
  {
    var f := FineInit(n, start);
    InitOk(n, start);
    var one, f1 := Transfers(f, k);
    var two, f2 := StopAndGather(f1);
    Join(f, one, f1, two, f2);
    moves := one + two;
  }
}
