/** How far the Lamport clocks of the replicated queue protocol can advance, and how long
    its runs can be. */
module QueueClock {
  import opened Sums
  import opened Network
  import opened Stamps
  import opened QueueProtocol
  import opened QueueSafety
  import opened QueueSystem
  import opened QueueInvariant
  import opened QueueOrder

  // ---- clock ticks ----

  /** Ticks of a step of i on account of its edge to b: receiving a message, and
      answering it if it is a request. */
  ghost function EdgeTicks(s: State, step: Step, b: int): int
    requires Wf(s) && Enabled(s, step)
  {
    if Pair(s.n, step.i, b) && Receives(step, b) then 1 + Bit(s.ch(b, step.i)[0].Request?) else 0
  }

  /** Ticks of a step of i for calling `request_cs`, for its release, and for its
      announcement of DONE. */
  ghost function OwnTicks(s: State, step: Step): int
    requires Wf(s) && Enabled(s, step)
  {
    Bit(step.CallStep?) + Bit(step.ReleaseStep?) + Bit(step.ReleaseStep? && s.procs[step.i].iter + 1 >= Quota(step.i))
  }

  ghost function Ticks(s: State, step: Step): int
    requires Wf(s) && Enabled(s, step)
  {
    OwnTicks(s, step) + Sum(s.n, b => EdgeTicks(s, step, b))
  }

  /** A step advances the clock by its ticks, counted from the larger of the clock and
      the received timestamp; what it sends is stamped no later. */
  lemma ClockAfter(s: State, step: Step)
    requires Inv(s) && Enabled(s, step)
    ensures var p := s.procs[step.i];
            Local(s, step).proc.clock == Ticks(s, step) +
              (if step.ReceiveStep? && s.ch(step.from, step.i)[0].time > p.clock
               then s.ch(step.from, step.i)[0].time else p.clock)
  {
    Uncrashed(s, step);
    match step
    case CallStep(_) =>
      SumConstant(s.n, b => EdgeTicks(s, step, b), 0);
    case ReleaseStep(i) =>
      assert NodeOk(s, i);
      SumConstant(s.n, b => EdgeTicks(s, step, b), 0);
    case ReceiveStep(i, from) =>
      LocalReceive(s, i, from, from);
      ReceiveTicks(s, i, from);
  }

  lemma ReceiveTicks(s: State, i: int, from: int)
    requires Wf(s) && Enabled(s, ReceiveStep(i, from))
    ensures Ticks(s, ReceiveStep(i, from)) == 1 + Bit(s.ch(from, i)[0].Request?)
  {
    SumConstant(s.n, b => 0, 0);
    SumChange(s.n, b => 0, b => EdgeTicks(s, ReceiveStep(i, from), b), from);
  }

  lemma StampsAfter(s: State, step: Step, b: int, m: Message)
    requires Inv(s) && Enabled(s, step) && Pair(s.n, step.i, b)
    requires |Local(s, step).out| == s.n + 1 && m in Local(s, step).out[b]
    ensures m.time <= Local(s, step).proc.clock
  {
    Uncrashed(s, step);
    match step
    case CallStep(i) => CallStamps(s, i, b, m);
    case ReleaseStep(i) => ReleaseStamps(s, i, b, m);
    case ReceiveStep(i, from) => LocalReceive(s, i, from, b);
  }

  lemma CallStamps(s: State, i: int, b: int, m: Message)
    requires Wf(s) && Enabled(s, CallStep(i)) && Pair(s.n, i, b)
    requires |Local(s, CallStep(i)).out| == s.n + 1 && m in Local(s, CallStep(i)).out[b]
    ensures m.time <= Local(s, CallStep(i)).proc.clock
  {
  }

  lemma ReleaseStamps(s: State, i: int, b: int, m: Message)
    requires Wf(s) && Enabled(s, ReleaseStep(i)) && Pair(s.n, i, b)
    requires |Local(s, ReleaseStep(i)).out| == s.n + 1 && m in Local(s, ReleaseStep(i)).out[b]
    ensures m.time <= Local(s, ReleaseStep(i)).proc.clock
  {
  }

  /** No clock and no timestamp in transit exceeds bound. */
  ghost predicate Within(s: State, bound: int)
    requires Wf(s)
  {
    && (forall i :: Child(s.n, i) ==> s.procs[i].clock <= bound)
    && (forall i, j, m :: Pair(s.n, i, j) && m in s.ch(i, j) ==> m.time <= bound)
  }

  lemma WithinKept(s: State, step: Step, bound: int)
    requires Inv(s) && Enabled(s, step) && Within(s, bound)
    ensures Within(Apply(s, step), bound + Ticks(s, step))
  {
    ClockWithin(s, step, bound);
    forall i, j, m | Pair(s.n, i, j) && m in Apply(s, step).ch(i, j)
      ensures m.time <= bound + Ticks(s, step)
    {
      TransitWithin(s, step, bound, i, j, m);
    }
  }

  lemma TransitWithin(s: State, step: Step, bound: int, i: int, j: int, m: Message)
    requires Inv(s) && Enabled(s, step) && Within(s, bound)
    requires Pair(s.n, i, j) && m in Apply(s, step).ch(i, j)
    ensures m.time <= bound + Ticks(s, step)
  {
    OutLength(s, step);
    ClockWithin(s, step, bound);
    if i == step.i && m in Local(s, step).out[j] {
      StampsAfter(s, step, j, m);
    } else {
      assert m in s.ch(i, j);
    }
  }

  lemma ClockWithin(s: State, step: Step, bound: int)
    requires Inv(s) && Enabled(s, step) && Within(s, bound)
    ensures Local(s, step).proc.clock <= bound + Ticks(s, step)
    ensures Ticks(s, step) >= 0
  {
    ClockAfter(s, step);
    SumZero(s.n, b => EdgeTicks(s, step, b));
    if step.ReceiveStep? {
      assert s.ch(step.from, step.i)[0] in s.ch(step.from, step.i);
    }
  }

  // ---- ticks still to come ----

  /** Ticks a request has caused at both ends since it was sent, by its stage. */
  function Elapsed(g: Stage): int {
    match g
    case Idle => 0
    case Sent => 0
    case Answered => 2
    case Counted => 3
  }

  /** Ticks still to come on account of a's requests, releases and DONE to b; a DONE may
      cause two, its receipt and the repeated call of `request_cs`. */
  ghost function Coming(s: State): (int, int) -> int
    requires Wf(s)
  {
    (a: int, b: int) =>
      if Pair(s.n, a, b) then
        4 * (Quota(a) - s.procs[a].iter) - Elapsed(StageOf(EdgeOf(s, a, b)))
        + Count(s.ch(a, b), ARelease) + 2 * Bit(Awaited(s, b, a))
      else 0
  }

  /** Ticks still to come for child i's own calls, releases and announcement. */
  ghost function OwnComing(s: State): int -> int
    requires Wf(s)
  {
    i => if Child(s.n, i) then Own(i, s.procs[i]) else 0
  }

  ghost function Own(i: int, p: Proc): int
    requires 0 <= i < |p.queue|
  {
    2 * (Quota(i) - p.iter) - Bit(p.queue[i] != 0) + Bit(p.phase != Serving)
    + Bit(p.phase == Calling && p.queue[i] != 0)
  }

  ghost function TicksLeft(s: State): int
    requires Wf(s)
  {
    Sum(s.n, OwnComing(s)) + Grid(s.n, Coming(s))
  }

  ghost predicate HearsDone(s: State, step: Step)
    requires Wf(s) && Enabled(s, step)
  {
    step.ReceiveStep? && s.ch(step.from, step.i)[0].Done?
  }

  lemma ReleasesReceived(e: Edge)
    requires e.ba != []
    ensures Count(ReceiveEdge(e).ab, ARelease) == Count(e.ab, ARelease)
    ensures Count(ReceiveEdge(e).ba, ARelease) == Count(e.ba, ARelease) - Bit(e.ba[0].Release?)
  {
    CountSnoc(e.ab, Reply(Sync(e.a.clock, e.ba[0].time) + 1));
  }

  lemma ReleasesOnEdge(s: State, step: Step, b: int)
    requires Inv(s) && Enabled(s, step) && Pair(s.n, step.i, b)
    ensures var e, f := EdgeOf(s, step.i, b), StepEdge(s, step, b);
            && Count(f.ab, ARelease) == Count(e.ab, ARelease) + Bit(step.ReleaseStep?)
            && Count(f.ba, ARelease) == Count(e.ba, ARelease) - Bit(Receives(step, b) && e.ba[0].Release?)
  {
    var e := EdgeOf(s, step.i, b);
    match step
    case CallStep(i) => CountSnoc(e.ab, Request(e.a.clock + 1));
    case ReleaseStep(i) =>
      EdgeFact(s, i, b);
      ReleaseCounts(e, s.procs[i].iter + 1 >= Quota(i));
    case ReceiveStep(i, from) =>
      if b == from { ReleasesReceived(e); }
  }

  lemma ReleasesInTransit(s: State, step: Step, b: int)
    requires Inv(s) && Enabled(s, step) && Pair(s.n, step.i, b)
    ensures var s' := Apply(s, step);
            && Count(s'.ch(step.i, b), ARelease) == Count(s.ch(step.i, b), ARelease) + Bit(step.ReleaseStep?)
            && Count(s'.ch(b, step.i), ARelease) ==
               Count(s.ch(b, step.i), ARelease) - Bit(Receives(step, b) && s.ch(b, step.i)[0].Release?)
  {
    Uncrashed(s, step);
    EdgeAfterStep(s, step, b);
    ReleasesOnEdge(s, step, b);
    assert EdgeOf(Apply(s, step), step.i, b).ab == StepEdge(s, step, b).ab;
    assert EdgeOf(Apply(s, step), step.i, b).ba == StepEdge(s, step, b).ba;
  }

  lemma CrossIsTicks(s: State, step: Step, b: int)
    requires Inv(s) && Enabled(s, step) && Pair(s.n, step.i, b)
    ensures Cross(Coming(s), Coming(Apply(s, step)), step.i, b) ==
            -(EdgeTicks(s, step, b) + Bit(Hears(s, step, step.i, b)))
  {
    var i := step.i;
    Uncrashed(s, step);
    assert NodeOk(s, i);
    LocalCounters(s, step);
    StageAfter(s, step, b);
    AwaitedAfter(s, step, b, i);
    AwaitedAfter(s, step, i, b);
    ReleasesInTransit(s, step, b);
    StageTicks(s, step, b);
  }

  lemma StageTicks(s: State, step: Step, b: int)
    requires Inv(s) && Enabled(s, step) && Pair(s.n, step.i, b)
    ensures Elapsed(NextOwn(s, step, b)) + Elapsed(NextPeer(s, step, b)) ==
            Elapsed(StageOf(EdgeOf(s, step.i, b))) + Elapsed(StageOf(EdgeOf(s, b, step.i)))
            + EdgeTicks(s, step, b) - 3 * Bit(step.ReleaseStep?)
            - Bit(Receives(step, b) && (s.ch(b, step.i)[0].Done? || s.ch(b, step.i)[0].Release?))
  {
    var e := EdgeOf(s, step.i, b);
    assert EdgeOf(s, b, step.i) == Flip(e);
    EdgeFact(s, step.i, b);
    if Receives(step, b) {
      HeadTicks(e);
    } else {
      QuietStageTicks(s, step, b);
    }
  }

  /** A message received is paid for by the stages of the two requests, a release or a
      DONE by itself. */
  lemma HeadTicks(e: Edge)
    requires EdgeOk(e) && e.ba != []
    ensures var m := e.ba[0];
            var own := if m.Reply? then Counted else StageOf(e);
            var peer := if m.Request? then Answered else StageOf(Flip(e));
            Elapsed(own) + Elapsed(peer) ==
            Elapsed(StageOf(e)) + Elapsed(StageOf(Flip(e))) + 1 + Bit(m.Request?) - Bit(m.Done? || m.Release?)
  {
    HeadFacts(e);
  }

  lemma QuietStageTicks(s: State, step: Step, b: int)
    requires Inv(s) && Enabled(s, step) && Pair(s.n, step.i, b) && !Receives(step, b)
    ensures EdgeTicks(s, step, b) == 0
    ensures NextPeer(s, step, b) == StageOf(EdgeOf(s, b, step.i))
    ensures Elapsed(NextOwn(s, step, b)) == Elapsed(StageOf(EdgeOf(s, step.i, b))) - 3 * Bit(step.ReleaseStep?)
  {
    assert EdgeOf(s, b, step.i) == Flip(EdgeOf(s, step.i, b));
    EdgeFact(s, step.i, b);
  }

  /** What a step does to the child's own counters. */
  ghost predicate OwnChanges(s: State, step: Step)
    requires Wf(s) && Enabled(s, step)
  {
    var p, q, i := s.procs[step.i], Local(s, step).proc, step.i;
    && |q.queue| == |p.queue|
    && q.iter == p.iter + Bit(step.ReleaseStep?)
    && (q.phase == Serving <==> q.iter == Quota(i)) && (p.phase == Serving <==> p.iter == Quota(i))
    && p.iter <= Quota(i)
    && (step.CallStep? ==> q.phase == Polling && q.queue[i] != 0)
    && (step.ReleaseStep? ==> q.queue[i] == 0 && p.queue[i] != 0)
    && (step.ReceiveStep? ==> (q.queue[i] != 0 <==> p.queue[i] != 0))
    && (step.ReceiveStep? && !HearsDone(s, step) ==> q.phase != Calling)
  }

  lemma OwnFacts(s: State, step: Step)
    requires Inv(s) && Enabled(s, step)
    ensures OwnChanges(s, step)
  {
    var i := step.i;
    Uncrashed(s, step);
    assert NodeOk(s, i);
    LocalCounters(s, step);
    match step
    case ReceiveStep(_, from) =>
      LocalReceive(s, i, from, from);
      ReceivePhase(s, i, from);
    case _ =>
  }

  lemma OwnChange(s: State, step: Step)
    requires Wf(s) && Enabled(s, step) && OwnChanges(s, step)
    ensures Own(step.i, Local(s, step).proc) <=
            Own(step.i, s.procs[step.i]) - OwnTicks(s, step) + Bit(HearsDone(s, step))
  {
  }

  lemma OwnTicksCharged(s: State, step: Step)
    requires Inv(s) && Enabled(s, step)
    ensures Sum(s.n, OwnComing(Apply(s, step))) <=
            Sum(s.n, OwnComing(s)) - OwnTicks(s, step) + Bit(HearsDone(s, step))
  {
    OwnFacts(s, step);
    OwnChange(s, step);
    SumChange(s.n, OwnComing(s), OwnComing(Apply(s, step)), step.i);
  }

  lemma OtherComing(s: State, step: Step, a: int, b: int)
    requires Inv(s) && Enabled(s, step) && Pair(s.n, a, b) && a != step.i && b != step.i
    ensures Coming(Apply(s, step))(a, b) == Coming(s)(a, b)
  {
    OtherEdges(s, step, a, b);
    assert EdgeOf(Apply(s, step), a, b).ab == EdgeOf(s, a, b).ab;
    AwaitedAfter(s, step, b, a);
  }

  lemma HeardOnce(s: State, step: Step)
    requires Wf(s) && Enabled(s, step)
    ensures Sum(s.n, b => Bit(Hears(s, step, step.i, b))) == Bit(HearsDone(s, step))
  {
    SumConstant(s.n, b => 0, 0);
    if step.ReceiveStep? {
      SumChange(s.n, b => 0, b => Bit(Hears(s, step, step.i, b)), step.from);
    } else {
      SumEqual(s.n, b => 0, b => Bit(Hears(s, step, step.i, b)));
    }
  }

  lemma EdgeTicksCharged(s: State, step: Step)
    requires Inv(s) && Enabled(s, step)
    ensures Grid(s.n, Coming(Apply(s, step))) ==
            Grid(s.n, Coming(s)) - Sum(s.n, b => EdgeTicks(s, step, b)) - Bit(HearsDone(s, step))
  {
    CrossesCharged(s, step);
    ComingChange(s, step);
  }

  lemma ComingChange(s: State, step: Step)
    requires Inv(s) && Enabled(s, step)
    ensures Grid(s.n, Coming(Apply(s, step))) ==
            Grid(s.n, Coming(s)) + Sum(s.n, b => Cross(Coming(s), Coming(Apply(s, step)), step.i, b))
  {
    var f, g := Coming(s), Coming(Apply(s, step));
    forall a, b | Pair(s.n, a, b) && a != step.i && b != step.i
      ensures f(a, b) == g(a, b)
    {
      OtherComing(s, step, a, b);
    }
    GridChange(s.n, f, g, step.i);
  }

  lemma CrossTicks(s: State, step: Step, b: int)
    requires Inv(s) && Enabled(s, step) && Child(s.n, b)
    ensures Cross(Coming(s), Coming(Apply(s, step)), step.i, b) ==
            -(EdgeTicks(s, step, b) + Bit(Hears(s, step, step.i, b)))
  {
    if b != step.i { CrossIsTicks(s, step, b); }
  }

  lemma CrossesCharged(s: State, step: Step)
    requires Inv(s) && Enabled(s, step)
    ensures Sum(s.n, b => Cross(Coming(s), Coming(Apply(s, step)), step.i, b)) ==
            -Sum(s.n, b => EdgeTicks(s, step, b)) - Bit(HearsDone(s, step))
  {
    var f, g := Coming(s), Coming(Apply(s, step));
    forall b | Child(s.n, b)
      ensures Cross(f, g, step.i, b) == -(EdgeTicks(s, step, b) + Bit(Hears(s, step, step.i, b)))
    {
      CrossTicks(s, step, b);
    }
    SumMinus(s.n, b => Cross(f, g, step.i, b), b => EdgeTicks(s, step, b), b => Bit(Hears(s, step, step.i, b)));
    HeardOnce(s, step);
  }

  /** The ticks of a step are taken from the ticks left. */
  lemma TicksAreCharged(s: State, step: Step)
    requires Inv(s) && Enabled(s, step)
    ensures TicksLeft(Apply(s, step)) <= TicksLeft(s) - Ticks(s, step)
  {
    OwnTicksCharged(s, step);
    EdgeTicksCharged(s, step);
  }

  lemma {:induction false} RunWithin(s: State, steps: seq<Step>, bound: int)
    requires Inv(s) && Runs(s, steps) && Within(s, bound)
    ensures Within(After(s, steps), bound + TicksLeft(s) - TicksLeft(After(s, steps)))
    decreases |steps|
  {
    if steps != [] {
      var s1 := Apply(s, steps[0]);
      InvKept(s, steps[0]);
      WithinKept(s, steps[0], bound);
      TicksAreCharged(s, steps[0]);
      RunWithin(s1, steps[1..], bound + Ticks(s, steps[0]));
      WithinMore(After(s, steps), bound + Ticks(s, steps[0]) + TicksLeft(s1) - TicksLeft(After(s, steps)),
                 bound + TicksLeft(s) - TicksLeft(After(s, steps)));
    }
  }

  lemma WithinMore(s: State, bound: int, more: int)
    requires Wf(s) && Within(s, bound) && bound <= more
    ensures Within(s, more)
  {
  }

  // ---- the bounds ----

  lemma TicksLeftNonNegative(s: State)
    requires Inv(s)
    ensures TicksLeft(s) >= 0
  {
    forall i | Child(s.n, i)
      ensures OwnComing(s)(i) >= 0
    {
      OwnNonNegative(s, i);
    }
    SumZero(s.n, OwnComing(s));
    forall a, b | Child(s.n, a) && Child(s.n, b)
      ensures Coming(s)(a, b) >= 0
    {
      ComingNonNegative(s, a, b);
    }
    GridNonNegative(s.n, Coming(s));
  }

  lemma OwnNonNegative(s: State, i: int)
    requires Inv(s) && Child(s.n, i)
    ensures OwnComing(s)(i) >= 0
  {
    assert NodeOk(s, i);
  }

  lemma ComingNonNegative(s: State, a: int, b: int)
    requires Inv(s) && Child(s.n, a) && Child(s.n, b)
    ensures Coming(s)(a, b) >= 0
  {
    if a != b {
      EdgeFact(s, a, b);
      assert NodeOk(s, a);
    }
  }

  /** At least all ticks of a complete run after the start barrier. */
  function AllTicks(n: nat): int {
    10 * Triangle(n) + n + (n - 1) * (20 * Triangle(n) + 2 * n)
  }

  lemma InitialOwn(n: nat)
    ensures Sum(n, OwnComing(Init(n))) == 10 * Triangle(n) + n
  {
    SumLinear(n, OwnComing(Init(n)), 10, 1);
  }

  lemma InitialComing(n: nat, a: int, b: int)
    requires Pair(n, a, b)
    ensures Coming(Init(n))(a, b) == 20 * a + 2
  {
    var s := Init(n);
    assert s.ch(a, b) == [] == s.ch(b, a);
    assert StageOf(EdgeOf(s, a, b)) == Idle;
  }

  lemma InitialGrid(n: nat)
    ensures Grid(n, Coming(Init(n))) == (n - 1) * (20 * Triangle(n) + 2 * n)
  {
    var r := (a: int) => 20 * a + 2;
    forall a, b | Pair(n, a, b)
      ensures Coming(Init(n))(a, b) == r(a)
    {
      InitialComing(n, a, b);
    }
    GridOfRows(n, Coming(Init(n)), r);
    SumScale(n, r, a => (n - 1) * r(a), n - 1);
    SumLinear(n, r, 20, 2);
  }

  lemma InitialTicks(n: nat)
    ensures TicksLeft(Init(n)) == AllTicks(n)
  {
    InitialOwn(n);
    InitialGrid(n);
  }

  /** Over any run the clocks and timestamps never exceed the initial value n plus the
      ticks already charged. */
  lemma {:induction false} ClockBound(n: nat, steps: seq<Step>)
    requires Runs(Init(n), steps)
    ensures Within(After(Init(n), steps), n + AllTicks(n) - TicksLeft(After(Init(n), steps)))
    ensures Within(After(Init(n), steps), n + AllTicks(n))
  {
    InitOk(n);
    InitialTicks(n);
    RunWithin(Init(n), steps, n);
    RunKeepsInv(Init(n), steps);
    TicksLeftNonNegative(After(Init(n), steps));
  }

  lemma AllTicksSmall(n: nat)
    requires n <= 14
    ensures AllTicks(n) <= 28728
  {
    TriangleGrows(n, 14);
    TriangleClosed(14);
    var t := 20 * Triangle(n) + 2 * n;
    assert t <= 2128;
    if n > 0 {
      assert (n - 1) * t <= 13 * t;
    }
  }

  /** With at most 14 children an int16_t timestamp never wraps. */
  lemma {:induction false} NoTimestampOverflow(n: nat, steps: seq<Step>)
    requires n <= 14 && Runs(Init(n), steps)
    ensures Within(After(Init(n), steps), 28742) && 28742 < 0x8000
  {
    ClockBound(n, steps);
    AllTicksSmall(n);
    WithinMore(After(Init(n), steps), n + AllTicks(n), 28742);
  }

  // ---- termination ----

  /** Every step ticks the clock of the child that takes it. */
  lemma StepTicks(s: State, step: Step)
    requires Wf(s) && Enabled(s, step)
    ensures Ticks(s, step) >= 1
  {
    SumZero(s.n, b => EdgeTicks(s, step, b));
    if step.ReceiveStep? { ReceiveTicks(s, step.i, step.from); }
  }

  /** A run from s has at most TicksLeft(s) steps. */
  lemma {:induction false} RunIsBounded(s: State, steps: seq<Step>)
    requires Inv(s) && Runs(s, steps)
    ensures |steps| <= TicksLeft(s)
    decreases |steps|
  {
    if steps == [] {
      TicksLeftNonNegative(s);
    } else {
      InvKept(s, steps[0]);
      StepTicks(s, steps[0]);
      TicksAreCharged(s, steps[0]);
      RunIsBounded(Apply(s, steps[0]), steps[1..]);
    }
  }

  /** Every run is finite, with an explicit bound on its length, and a run of two or
      more children that cannot be continued has completed all critical sections. */
  lemma {:induction false} EveryMaximalRunCompletes(n: nat, steps: seq<Step>)
    requires Runs(Init(n), steps)
    ensures |steps| <= AllTicks(n)
    ensures Stuck(After(Init(n), steps)) ==> (Finished(After(Init(n), steps)) <==> n != 1)
    ensures Finished(After(Init(n), steps)) ==> Stuck(After(Init(n), steps))
  {
    var s := Init(n);
    InitOk(n);
    RunIsBounded(s, steps);
    InitialTicks(n);
    if Stuck(After(s, steps)) {
      StuckFinishedUnlessAlone(After(s, steps));
    }
    if Finished(After(s, steps)) {
      FinishedIsStuck(After(s, steps));
    }
  }
}
