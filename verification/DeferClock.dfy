/** How far the Lamport clocks of the deferred-reply protocol can advance, and how long
    its runs can be. */
module DeferClock {
  import opened Sums
  import opened Network
  import opened Stamps
  import opened DeferProtocol
  import opened DeferSafety
  import opened DeferSystem
  import opened DeferInvariant
  import opened DeferOrder

  // ---- clock ticks ----

  /** Did the child answer the message it has just received? */
  ghost predicate Answers(s: State, step: Step)
    requires Wf(s) && Enabled(s, step)
  {
    step.ReceiveStep? &&
    var p := s.procs[step.i];
    var m := s.ch(step.from, step.i)[0];
    m.Request? && !(p.phase == Polling && Less(p.queue[step.i], step.i, m.time, step.from))
  }

  /** Ticks of a step of i on account of its edge to b. */
  ghost function EdgeTicks(s: State, step: Step, b: int): int
    requires Wf(s) && Enabled(s, step)
  {
    if !Pair(s.n, step.i, b) then 0
    else if step.ReleaseStep? then Bit(s.procs[step.i].queue[b] != 0)
    else if Receives(step, b) then 1 + Bit(Answers(s, step))
    else 0
  }

  /** Ticks of a step of i for its own request or its announcement of DONE. */
  ghost function OwnTicks(s: State, step: Step): int
    requires Wf(s) && Enabled(s, step)
  {
    var p := s.procs[step.i];
    Bit(step.CallStep? && p.queue[step.i] == 0) + Bit(step.ReleaseStep? && p.iter + 1 >= Quota(step.i))
  }

  ghost function Ticks(s: State, step: Step): int
    requires Wf(s) && Enabled(s, step)
  {
    OwnTicks(s, step) + Sum(s.n, b => EdgeTicks(s, step, b))
  }

  lemma {:induction false} DeferredIsSum(queue: seq<int>, i: int, c: nat, f: int -> int)
    requires c < |queue|
    requires forall b :: 1 <= b <= c ==> f(b) == Bit(b != i && queue[b] != 0)
    ensures Deferred(queue, i, c) == Sum(c, f)
  {
    if c > 0 {
      DeferredIsSum(queue, i, c - 1, f);
    }
  }

  /** A step advances the clock by its ticks, counted from the larger of the clock and
      the received timestamp; what it sends is stamped no later. */
  lemma ClockAfter(s: State, step: Step)
    requires Inv(s) && Enabled(s, step)
    ensures var p := s.procs[step.i];
            Local(s, step).proc.clock == Ticks(s, step) +
              (if step.ReceiveStep? && s.ch(step.from, step.i)[0].time > p.clock
               then s.ch(step.from, step.i)[0].time else p.clock)
  {
    Uncrashed(s, step);
    match step
    case CallStep(_) =>
      SumConstant(s.n, b => EdgeTicks(s, step, b), 0);
    case ReleaseStep(i) => ReleaseClock(s, i);
    case ReceiveStep(i, from) =>
      LocalReceive(s, i, from, from);
      ReceiveTicks(s, i, from);
  }

  lemma ReleaseClock(s: State, i: int)
    requires Wf(s) && Enabled(s, ReleaseStep(i)) && Local(s, ReleaseStep(i)).proc.phase != Crashed
    ensures Local(s, ReleaseStep(i)).proc.clock == s.procs[i].clock + Ticks(s, ReleaseStep(i))
  {
    DeferredIsSum(s.procs[i].queue, i, s.n, b => EdgeTicks(s, ReleaseStep(i), b));
  }

  lemma ReceiveTicks(s: State, i: int, from: int)
    requires Wf(s) && Enabled(s, ReceiveStep(i, from))
    ensures Ticks(s, ReceiveStep(i, from)) == 1 + Bit(Answers(s, ReceiveStep(i, from)))
  {
    SumConstant(s.n, b => 0, 0);
    SumChange(s.n, b => 0, b => EdgeTicks(s, ReceiveStep(i, from), b), from);
  }

  lemma {:induction false} DeferredGrows(queue: seq<int>, i: int, c: nat, d: nat)
    requires c <= d < |queue|
    ensures Deferred(queue, i, c) <= Deferred(queue, i, d)
  {
    if c < d {
      DeferredGrows(queue, i, c, d - 1);
    }
  }

  lemma StampsAfter(s: State, step: Step, b: int, m: Message)
    requires Inv(s) && Enabled(s, step) && Pair(s.n, step.i, b)
    requires |Local(s, step).out| == s.n + 1 && m in Local(s, step).out[b]
    ensures m.time <= Local(s, step).proc.clock
  {
    Uncrashed(s, step);
    match step
    case CallStep(i) => CallStamps(s, i, b, m);
    case ReleaseStep(i) => ReleaseStamps(s, i, b, m);
    case ReceiveStep(i, from) => LocalReceive(s, i, from, b);
  }

  lemma CallStamps(s: State, i: int, b: int, m: Message)
    requires Wf(s) && Enabled(s, CallStep(i)) && Pair(s.n, i, b)
    requires |Local(s, CallStep(i)).out| == s.n + 1 && m in Local(s, CallStep(i)).out[b]
    ensures m.time <= Local(s, CallStep(i)).proc.clock
  {
  }

  lemma ReleaseStamps(s: State, i: int, b: int, m: Message)
    requires Wf(s) && Enabled(s, ReleaseStep(i)) && Pair(s.n, i, b)
    requires |Local(s, ReleaseStep(i)).out| == s.n + 1 && m in Local(s, ReleaseStep(i)).out[b]
    ensures m.time <= Local(s, ReleaseStep(i)).proc.clock
  {
    DeferredGrows(s.procs[i].queue, i, b, s.n);
  }

  /** No clock and no timestamp in transit exceeds bound. */
  ghost predicate Within(s: State, bound: int)
    requires Wf(s)
  {
    && (forall i :: Child(s.n, i) ==> s.procs[i].clock <= bound)
    && (forall i, j, m :: Pair(s.n, i, j) && m in s.ch(i, j) ==> m.time <= bound)
  }

  lemma WithinKept(s: State, step: Step, bound: int)
    requires Inv(s) && Enabled(s, step) && Within(s, bound)
    ensures Within(Apply(s, step), bound + Ticks(s, step))
  {
    ClockWithin(s, step, bound);
    forall i, j, m | Pair(s.n, i, j) && m in Apply(s, step).ch(i, j)
      ensures m.time <= bound + Ticks(s, step)
    {
      TransitWithin(s, step, bound, i, j, m);
    }
  }

  lemma TransitWithin(s: State, step: Step, bound: int, i: int, j: int, m: Message)
    requires Inv(s) && Enabled(s, step) && Within(s, bound)
    requires Pair(s.n, i, j) && m in Apply(s, step).ch(i, j)
    ensures m.time <= bound + Ticks(s, step)
  {
    OutLength(s, step);
    ClockWithin(s, step, bound);
    if i == step.i && m in Local(s, step).out[j] {
      StampsAfter(s, step, j, m);
    } else {
      assert m in s.ch(i, j);
    }
  }

  lemma ClockWithin(s: State, step: Step, bound: int)
    requires Inv(s) && Enabled(s, step) && Within(s, bound)
    ensures Local(s, step).proc.clock <= bound + Ticks(s, step)
    ensures Ticks(s, step) >= 0
  {
    ClockAfter(s, step);
    SumZero(s.n, b => EdgeTicks(s, step, b));
    if step.ReceiveStep? {
      assert s.ch(step.from, step.i)[0] in s.ch(step.from, step.i);
    }
  }

  // ---- ticks still to come ----

  /** Ticks a request has caused at both ends since it was sent, by its stage. */
  function Elapsed(g: Stage): int {
    match g
    case Idle => 0
    case Sent => 0
    case Held => 1
    case Answered => 2
    case Counted => 3
  }

  /** Ticks still to come on account of a's requests and DONE to b. */
  ghost function Coming(s: State): (int, int) -> int
    requires Wf(s)
  {
    (a: int, b: int) =>
      if Pair(s.n, a, b) then
        3 * (Quota(a) - s.procs[a].iter) - Elapsed(StageOf(EdgeOf(s, a, b))) + Bit(Awaited(s, b, a))
      else 0
  }

  /** Ticks still to come for child i's own requests and its announcement. */
  ghost function OwnComing(s: State): int -> int
    requires Wf(s)
  {
    i => if Child(s.n, i) then
           Quota(i) - s.procs[i].iter - Bit(s.procs[i].queue[i] != 0) + Bit(s.procs[i].phase != Serving)
         else 0
  }

  ghost function TicksLeft(s: State): int
    requires Wf(s)
  {
    Sum(s.n, OwnComing(s)) + Grid(s.n, Coming(s))
  }

  lemma CrossIsTicks(s: State, step: Step, b: int)
    requires Inv(s) && Enabled(s, step) && Pair(s.n, step.i, b)
    ensures Cross(Coming(s), Coming(Apply(s, step)), step.i, b) == -EdgeTicks(s, step, b)
  {
    var i := step.i;
    var s' := Apply(s, step);
    Uncrashed(s, step);
    assert NodeOk(s, i);
    LocalCounters(s, step);
    StageAfter(s, step, b);
    AwaitedAfter(s, step, b, i);
    AwaitedAfter(s, step, i, b);
    StageTicks(s, step, b);
  }

  lemma StageTicks(s: State, step: Step, b: int)
    requires Inv(s) && Enabled(s, step) && Pair(s.n, step.i, b)
    ensures Elapsed(NextOwn(s, step, b)) + Elapsed(NextPeer(s, step, b)) ==
            Elapsed(StageOf(EdgeOf(s, step.i, b))) + Elapsed(StageOf(EdgeOf(s, b, step.i)))
            + EdgeTicks(s, step, b) - 3 * Bit(step.ReleaseStep?) - Bit(Hears(s, step, step.i, b))
  {
    var e := EdgeOf(s, step.i, b);
    assert EdgeOf(s, b, step.i) == Flip(e);
    EdgeFact(s, step.i, b);
    if Receives(step, b) {
      HeadTicks(e);
    } else {
      QuietStageTicks(s, step, b);
    }
  }

  /** A message received is paid for by the stages of the two requests, a DONE by itself. */
  lemma HeadTicks(e: Edge)
    requires EdgeOk(e) && e.ba != []
    ensures var m := e.ba[0];
            var deferred := m.Request? && e.a.phase == Polling && Less(e.a.own, e.a.id, m.time, e.b.id);
            var own := if m.Reply? then Counted else StageOf(e);
            var peer := if !m.Request? then StageOf(Flip(e)) else if deferred then Held else Answered;
            Elapsed(own) + Elapsed(peer) ==
            Elapsed(StageOf(e)) + Elapsed(StageOf(Flip(e))) + 1 + Bit(m.Request? && !deferred) - Bit(m.Done?)
  {
    HeadFacts(e);
  }

  lemma QuietStageTicks(s: State, step: Step, b: int)
    requires Inv(s) && Enabled(s, step) && Pair(s.n, step.i, b) && !Receives(step, b)
    ensures Elapsed(NextOwn(s, step, b)) + Elapsed(NextPeer(s, step, b)) ==
            Elapsed(StageOf(EdgeOf(s, step.i, b))) + Elapsed(StageOf(EdgeOf(s, b, step.i)))
            + EdgeTicks(s, step, b) - 3 * Bit(step.ReleaseStep?)
  {
    assert EdgeOf(s, b, step.i) == Flip(EdgeOf(s, step.i, b));
    EdgeFact(s, step.i, b);
  }

  lemma OwnCounters(s: State, step: Step)
    requires Inv(s) && Enabled(s, step)
    ensures var p, q := s.procs[step.i], Local(s, step).proc;
            q.iter + Bit(q.queue[step.i] != 0) - Bit(q.phase != Serving) ==
            p.iter + Bit(p.queue[step.i] != 0) - Bit(p.phase != Serving) + OwnTicks(s, step)
  {
    Uncrashed(s, step);
    assert NodeOk(s, step.i);
    LocalCounters(s, step);
  }

  lemma OwnTicksCharged(s: State, step: Step)
    requires Inv(s) && Enabled(s, step)
    ensures Sum(s.n, OwnComing(Apply(s, step))) == Sum(s.n, OwnComing(s)) - OwnTicks(s, step)
  {
    OwnCounters(s, step);
    OwnComingAfter(s, step);
    SumChange(s.n, OwnComing(s), OwnComing(Apply(s, step)), step.i);
  }

  lemma OwnComingAfter(s: State, step: Step)
    requires Wf(s) && Enabled(s, step)
    ensures forall i :: Child(s.n, i) && i != step.i ==> OwnComing(Apply(s, step))(i) == OwnComing(s)(i)
  {
  }

  lemma OtherComing(s: State, step: Step, a: int, b: int)
    requires Inv(s) && Enabled(s, step) && Pair(s.n, a, b) && a != step.i && b != step.i
    ensures Coming(Apply(s, step))(a, b) == Coming(s)(a, b)
  {
    OtherEdges(s, step, a, b);
    AwaitedAfter(s, step, b, a);
  }

  lemma EdgeTicksCharged(s: State, step: Step)
    requires Inv(s) && Enabled(s, step)
    ensures Grid(s.n, Coming(Apply(s, step))) ==
            Grid(s.n, Coming(s)) - Sum(s.n, b => EdgeTicks(s, step, b))
  {
    CrossesCharged(s, step);
    ComingChange(s, step);
  }

  lemma ComingChange(s: State, step: Step)
    requires Inv(s) && Enabled(s, step)
    ensures Grid(s.n, Coming(Apply(s, step))) ==
            Grid(s.n, Coming(s)) + Sum(s.n, b => Cross(Coming(s), Coming(Apply(s, step)), step.i, b))
  {
    var f, g := Coming(s), Coming(Apply(s, step));
    forall a, b | Pair(s.n, a, b) && a != step.i && b != step.i
      ensures f(a, b) == g(a, b)
    {
      OtherComing(s, step, a, b);
    }
    GridChange(s.n, f, g, step.i);
  }

  lemma CrossesCharged(s: State, step: Step)
    requires Inv(s) && Enabled(s, step)
    ensures Sum(s.n, b => Cross(Coming(s), Coming(Apply(s, step)), step.i, b)) == -Sum(s.n, b => EdgeTicks(s, step, b))
  {
    var f, g := Coming(s), Coming(Apply(s, step));
    forall b | Child(s.n, b)
      ensures Cross(f, g, step.i, b) == -EdgeTicks(s, step, b)
    {
      CrossTicks(s, step, b);
    }
    SumMinus(s.n, b => Cross(f, g, step.i, b), b => EdgeTicks(s, step, b), b => 0);
    SumConstant(s.n, b => 0, 0);
  }

  lemma CrossTicks(s: State, step: Step, b: int)
    requires Inv(s) && Enabled(s, step) && Child(s.n, b)
    ensures Cross(Coming(s), Coming(Apply(s, step)), step.i, b) == -EdgeTicks(s, step, b)
  {
    if b != step.i { CrossIsTicks(s, step, b); }
  }

  /** Conservation: the ticks of a step are taken from the ticks left. */
  lemma TicksAreCharged(s: State, step: Step)
    requires Inv(s) && Enabled(s, step)
    ensures TicksLeft(Apply(s, step)) == TicksLeft(s) - Ticks(s, step)
  {
    OwnTicksCharged(s, step);
    EdgeTicksCharged(s, step);
  }

  lemma {:induction false} RunWithin(s: State, steps: seq<Step>, bound: int)
    requires Inv(s) && Runs(s, steps) && Within(s, bound)
    ensures Within(After(s, steps), bound + TicksLeft(s) - TicksLeft(After(s, steps)))
    decreases |steps|
  {
    if steps != [] {
      var s1 := Apply(s, steps[0]);
      InvKept(s, steps[0]);
      WithinKept(s, steps[0], bound);
      TicksAreCharged(s, steps[0]);
      RunWithin(s1, steps[1..], bound + Ticks(s, steps[0]));
    }
  }

  // ---- the bounds ----

  lemma TicksLeftNonNegative(s: State)
    requires Inv(s)
    ensures TicksLeft(s) >= 0
  {
    forall i | Child(s.n, i)
      ensures OwnComing(s)(i) >= 0
    {
      OwnNonNegative(s, i);
    }
    SumZero(s.n, OwnComing(s));
    forall a, b | Child(s.n, a) && Child(s.n, b)
      ensures Coming(s)(a, b) >= 0
    {
      ComingNonNegative(s, a, b);
    }
    GridNonNegative(s.n, Coming(s));
  }

  lemma OwnNonNegative(s: State, i: int)
    requires Inv(s) && Child(s.n, i)
    ensures OwnComing(s)(i) >= 0
  {
    assert NodeOk(s, i);
  }

  lemma ComingNonNegative(s: State, a: int, b: int)
    requires Inv(s) && Child(s.n, a) && Child(s.n, b)
    ensures Coming(s)(a, b) >= 0
  {
    if a != b {
      EdgeFact(s, a, b);
      assert NodeOk(s, a);
    }
  }

  /** All ticks of a complete run after the start barrier. */
  function AllTicks(n: nat): int {
    5 * Triangle(n) + n + (n - 1) * (15 * Triangle(n) + n)
  }

  lemma InitialOwn(n: nat)
    ensures Sum(n, OwnComing(Init(n))) == 5 * Triangle(n) + n
  {
    SumLinear(n, OwnComing(Init(n)), 5, 1);
  }

  lemma InitialComing(n: nat, a: int, b: int)
    requires Pair(n, a, b)
    ensures Coming(Init(n))(a, b) == 15 * a + 1
  {
    var s := Init(n);
    assert s.ch(a, b) == [] == s.ch(b, a);
    assert StageOf(EdgeOf(s, a, b)) == Idle;
  }

  lemma InitialGrid(n: nat)
    ensures Grid(n, Coming(Init(n))) == (n - 1) * (15 * Triangle(n) + n)
  {
    var r := (a: int) => 15 * a + 1;
    forall a, b | Pair(n, a, b)
      ensures Coming(Init(n))(a, b) == r(a)
    {
      InitialComing(n, a, b);
    }
    GridOfRows(n, Coming(Init(n)), r);
    SumScale(n, r, a => (n - 1) * r(a), n - 1);
    SumLinear(n, r, 15, 1);
  }

  lemma InitialTicks(n: nat)
    ensures TicksLeft(Init(n)) == AllTicks(n)
  {
    InitialOwn(n);
    InitialGrid(n);
  }

  /** Over any run the clocks and timestamps never exceed the initial value n plus the
      ticks already charged. */
  lemma {:induction false} ClockBound(n: nat, steps: seq<Step>)
    requires Runs(Init(n), steps)
    ensures Within(After(Init(n), steps), n + AllTicks(n) - TicksLeft(After(Init(n), steps)))
    ensures Within(After(Init(n), steps), n + AllTicks(n))
  {
    InitOk(n);
    InitialTicks(n);
    RunWithin(Init(n), steps, n);
    RunKeepsInv(Init(n), steps);
    TicksLeftNonNegative(After(Init(n), steps));
  }

  lemma AllTicksSmall(n: nat)
    requires n <= 15
    ensures AllTicks(n) <= 26025
  {
    TriangleGrows(n, 15);
    TriangleClosed(15);
    var t := 15 * Triangle(n) + n;
    assert t <= 1815;
    if n > 0 {
      assert (n - 1) * t <= 14 * t;
    }
  }

  /** With at most MAX_CHILDREN = 15 children an int16_t timestamp never wraps. */
  lemma {:induction false} NoTimestampOverflow(n: nat, steps: seq<Step>)
    requires n <= 15 && Runs(Init(n), steps)
    ensures Within(After(Init(n), steps), 26040) && 26040 < 0x8000
  {
    ClockBound(n, steps);
    AllTicksSmall(n);
    WithinMore(After(Init(n), steps), n + AllTicks(n), 26040);
  }

  lemma WithinMore(s: State, bound: int, more: int)
    requires Wf(s) && Within(s, bound) && bound <= more
    ensures Within(s, more)
  {
  }

  // ---- termination ----

  function PhaseWeight(ph: Phase): int {
    if ph == Critical then 2 else if ph == Calling then 1 else 0
  }

  ghost function Measure(s: State): int
    requires Wf(s)
  {
    4 * TicksLeft(s) + Sum(s.n, i => if Child(s.n, i) then PhaseWeight(s.procs[i].phase) else 0)
  }

  lemma MeasureDecreases(s: State, step: Step)
    requires Inv(s) && Enabled(s, step)
    ensures Measure(Apply(s, step)) < Measure(s)
  {
    var s' := Apply(s, step);
    TicksAreCharged(s, step);
    PhaseChange(s, step);
    SumChange(s.n, i => if Child(s.n, i) then PhaseWeight(s.procs[i].phase) else 0,
              i => if Child(s.n, i) then PhaseWeight(s'.procs[i].phase) else 0, step.i);
  }

  lemma PhaseChange(s: State, step: Step)
    requires Inv(s) && Enabled(s, step)
    ensures PhaseWeight(Local(s, step).proc.phase) - PhaseWeight(s.procs[step.i].phase) < 4 * Ticks(s, step)
  {
    Uncrashed(s, step);
    if step.ReceiveStep? {
      ReceiveTicks(s, step.i, step.from);
      ReceivePhase(s, step.i, step.from);
    } else {
      SumZero(s.n, b => EdgeTicks(s, step, b));
    }
  }

  /** A run from s has at most Measure(s) steps. */
  lemma {:induction false} RunIsBounded(s: State, steps: seq<Step>)
    requires Inv(s) && Runs(s, steps)
    ensures |steps| <= Measure(s)
    decreases |steps|
  {
    if steps == [] {
      TicksLeftNonNegative(s);
      SumZero(s.n, i => if Child(s.n, i) then PhaseWeight(s.procs[i].phase) else 0);
    } else {
      InvKept(s, steps[0]);
      MeasureDecreases(s, steps[0]);
      RunIsBounded(Apply(s, steps[0]), steps[1..]);
    }
  }

  lemma InitialMeasure(n: nat)
    ensures Measure(Init(n)) == 4 * AllTicks(n) + n
  {
    var s := Init(n);
    InitialTicks(n);
    SumConstant(n, i => if Child(n, i) then PhaseWeight(s.procs[i].phase) else 0, 1);
  }

  /** Every run is finite, with an explicit bound on its length, and a run of two or
      more children that cannot be continued has completed all critical sections. */
  lemma {:induction false} EveryMaximalRunCompletes(n: nat, steps: seq<Step>)
    requires Runs(Init(n), steps)
    ensures |steps| <= 4 * AllTicks(n) + n
    ensures Stuck(After(Init(n), steps)) ==> (Finished(After(Init(n), steps)) <==> n != 1)
    ensures Finished(After(Init(n), steps)) ==> Stuck(After(Init(n), steps))
  {
    var s := Init(n);
    InitOk(n);
    RunIsBounded(s, steps);
    InitialMeasure(n);
    if Stuck(After(s, steps)) {
      StuckFinishedUnlessAlone(After(s, steps));
    }
    if Finished(After(s, steps)) {
      FinishedIsStuck(After(s, steps));
    }
  }
}
