/** The fork protocol sends at most one request and one reply per peer and critical
    section. */
module ForkCost {
  import opened Sums
  import opened Network
  import opened ForkProtocol
  import opened ForkSafety
  import opened ForkOrder
  import opened ForkTermination

  /** Requests and replies among some messages. */
  function Traffic(msgs: seq<Msg>): nat {
    if msgs == [] then 0 else (if msgs[0] == Request || msgs[0] == Reply then 1 else 0) + Traffic(msgs[1..])
  }

  ghost function StepTraffic(s: State, step: Step): int
    requires Wf(s) && Enabled(s, step)
  {
    Sum(s.n, b => if 0 <= b < |Local(s, step).out| then Traffic(Local(s, step).out[b]) else 0)
  }

  /** Requests and replies sent between children over a whole run. */
  ghost function RunTraffic(s: State, steps: seq<Step>): int
    requires Wf(s) && Runs(s, steps)
    decreases |steps|
  {
    if steps == [] then 0
    else StepTraffic(s, steps[0]) + RunTraffic(Apply(s, steps[0]), steps[1..])
  }

  /** How much of the two messages that a's current critical section may cost on this
      edge has been used: the fork is here clean or under way (both), the request is
      in transit or held at b next to the fork (one). */
  ghost function Spent(e: Edge): int {
    if (e.a.fork && !e.a.dirty) || Reply in e.ba then 2
    else if Request in e.ab || (e.b.fork && e.b.token) then 1
    else 0
  }

  ghost function Spending(e: Edge): int {
    Spent(e) + Spent(Flip(e))
  }

  lemma AskSpends(e: Edge)
    requires EdgeOk(e) && e.a.phase == Calling
    ensures Spending(AskEdge(e)) == Spending(e) + Bit(!e.a.fork && e.a.token)
  {
  }

  lemma ReceiveSpends(e: Edge, ph: Phase)
    requires EdgeOk(e) && e.a.phase == Polling && e.ba != []
    ensures Spending(ReceiveEdge(e, ph)) == Spending(e) + Bit(e.ba[0] == Request && e.a.fork && e.a.dirty)
  {
    ShapeRest(e.ba);
  }

  lemma ServeSpends(e: Edge)
    requires EdgeOk(e) && e.a.phase == Serving && e.ba != []
    ensures Spending(ServeEdge(e)) == Spending(e) + Bit(e.ba[0] == Request)
  {
    ServeKeeps(e);
    ShapeRest(e.ba);
  }

  lemma ReleaseSpends(e: Edge, last: bool)
    requires EdgeOk(e) && e.a.phase == Critical
    ensures Spending(ReleaseEdge(e, last)) + 2 >= Spending(e) + Bit(e.a.token)
  {
    CriticalQuiet(e);
  }

  lemma SmallTraffic()
    ensures Traffic([]) == Traffic([Done]) == 0
    ensures Traffic([Request]) == Traffic([Reply]) == Traffic([Reply, Done]) == 1
  {
    assert [Reply, Done][1..] == [Done];
  }

  /** What a step sends to b is covered by what it spends on the edge. */
  ghost predicate Covered(s: State, step: Step, b: int)
    requires Wf(s) && Enabled(s, step) && Pair(s.n, step.i, b)
  {
    |Local(s, step).out| == s.n + 1 &&
    Spending(StepEdge(s, step, b)) + 2 * Bit(step.ReleaseStep?) >=
    Spending(EdgeOf(s, step.i, b)) + Traffic(Local(s, step).out[b])
  }

  lemma StepSpends(s: State, step: Step, b: int)
    requires Inv(s) && Enabled(s, step) && Pair(s.n, step.i, b)
    ensures Covered(s, step, b)
  {
    EdgeFact(s, step.i, b);
    Uncrashed(s, step);
    match step
    case AskStep(i) => AskCovered(s, i, b);
    case EnterStep(i) => EnterCovered(s, i, b);
    case ReleaseStep(i) => ReleaseCovered(s, i, b);
    case ReceiveStep(i, from) => ReceiveTraffic(s, i, from, b);
  }

  lemma AskCovered(s: State, i: int, b: int)
    requires Wf(s) && Enabled(s, AskStep(i)) && Pair(s.n, i, b) && EdgeOk(EdgeOf(s, i, b))
    ensures Covered(s, AskStep(i), b)
  {
    AskSpends(EdgeOf(s, i, b));
    AskTraffic(s, i, b);
  }

  lemma EnterCovered(s: State, i: int, b: int)
    requires Wf(s) && Enabled(s, EnterStep(i)) && Pair(s.n, i, b)
    ensures Covered(s, EnterStep(i), b)
  {
  }

  lemma ReleaseCovered(s: State, i: int, b: int)
    requires Wf(s) && Enabled(s, ReleaseStep(i)) && Pair(s.n, i, b) && EdgeOk(EdgeOf(s, i, b))
    requires Local(s, ReleaseStep(i)).proc.phase != Crashed
    ensures Covered(s, ReleaseStep(i), b)
  {
    ReleaseSpends(EdgeOf(s, i, b), s.procs[i].iter + 1 >= Quota(i));
    ReleaseTraffic(s, i, b);
  }

  lemma AskTraffic(s: State, i: int, b: int)
    requires Wf(s) && Enabled(s, AskStep(i)) && Pair(s.n, i, b)
    ensures |Local(s, AskStep(i)).out| == s.n + 1
    ensures Traffic(Local(s, AskStep(i)).out[b]) == Bit(Asks(s.procs[i], b))
  {
    SmallTraffic();
  }

  lemma ReleaseTraffic(s: State, i: int, b: int)
    requires Wf(s) && Enabled(s, ReleaseStep(i)) && Pair(s.n, i, b)
    requires Local(s, ReleaseStep(i)).proc.phase != Crashed
    ensures |Local(s, ReleaseStep(i)).out| == s.n + 1
    ensures Traffic(Local(s, ReleaseStep(i)).out[b]) == Bit(s.procs[i].token[b])
  {
    SmallTraffic();
    var out, last := Local(s, ReleaseStep(i)).out[b], s.procs[i].iter + 1 >= Quota(i);
    assert out == (if s.procs[i].token[b] then [Reply] else []) + (if last then [Done] else []);
    assert [Reply] + [Done] == [Reply, Done];
  }

  lemma ReceiveTraffic(s: State, i: int, from: int, b: int)
    requires Inv(s) && Enabled(s, ReceiveStep(i, from)) && Pair(s.n, i, b)
    requires Local(s, ReceiveStep(i, from)).proc.phase != Crashed
    ensures Covered(s, ReceiveStep(i, from), b)
  {
    EdgeFact(s, i, b);
    if s.procs[i].phase == Polling { PolledTraffic(s, i, from, b); } else { ServedTraffic(s, i, from, b); }
  }

  lemma PolledTraffic(s: State, i: int, from: int, b: int)
    requires Wf(s) && Enabled(s, ReceiveStep(i, from)) && Pair(s.n, i, b) && s.procs[i].phase == Polling
    requires Local(s, ReceiveStep(i, from)).proc.phase != Crashed && EdgeOk(EdgeOf(s, i, b))
    ensures Covered(s, ReceiveStep(i, from), b)
  {
    SmallTraffic();
    ReceiveRow(s.procs[i], s.n, from, s.ch(from, i)[0], b);
    if b == from { ReceiveSpends(EdgeOf(s, i, b), Local(s, ReceiveStep(i, from)).proc.phase); }
  }

  lemma ServedTraffic(s: State, i: int, from: int, b: int)
    requires Wf(s) && Enabled(s, ReceiveStep(i, from)) && Pair(s.n, i, b) && s.procs[i].phase == Serving
    requires Local(s, ReceiveStep(i, from)).proc.phase != Crashed && EdgeOk(EdgeOf(s, i, b))
    ensures Covered(s, ReceiveStep(i, from), b)
  {
    SmallTraffic();
    if b == from {
      ServeKeeps(EdgeOf(s, i, b));
      ServeSpends(EdgeOf(s, i, b));
    }
  }

  /** What a may have cost on the edge to b so far. */
  ghost function Costs(s: State): (int, int) -> int
    requires Wf(s)
  {
    (a: int, b: int) => if Pair(s.n, a, b) then 2 * s.procs[a].iter + Spent(EdgeOf(s, a, b)) else 0
  }

  lemma StepCost(s: State, step: Step)
    requires Inv(s) && Enabled(s, step)
    ensures Grid(s.n, Costs(Apply(s, step))) >= Grid(s.n, Costs(s)) + StepTraffic(s, step)
  {
    CrossesCover(s, step);
    CostsChange(s, step);
  }

  lemma CostsChange(s: State, step: Step)
    requires Inv(s) && Enabled(s, step)
    ensures Grid(s.n, Costs(Apply(s, step))) ==
            Grid(s.n, Costs(s)) + Sum(s.n, b => Cross(Costs(s), Costs(Apply(s, step)), step.i, b))
  {
    var f, g := Costs(s), Costs(Apply(s, step));
    forall a, b | Pair(s.n, a, b) && a != step.i && b != step.i
      ensures f(a, b) == g(a, b)
    {
      OtherCosts(s, step, a, b);
    }
    GridChange(s.n, f, g, step.i);
  }

  lemma OtherCosts(s: State, step: Step, a: int, b: int)
    requires Wf(s) && Enabled(s, step) && Pair(s.n, a, b) && a != step.i && b != step.i
    ensures Costs(Apply(s, step))(a, b) == Costs(s)(a, b)
  {
    OtherEdges(s, step, a, b);
  }

  lemma CrossesCover(s: State, step: Step)
    requires Inv(s) && Enabled(s, step)
    ensures Sum(s.n, b => Cross(Costs(s), Costs(Apply(s, step)), step.i, b)) >= StepTraffic(s, step)
  {
    var f, g := Costs(s), Costs(Apply(s, step));
    var t := b => if 0 <= b < |Local(s, step).out| then Traffic(Local(s, step).out[b]) else 0;
    Uncrashed(s, step);
    LocalProgress(s, step);
    forall b | Child(s.n, b)
      ensures Cross(f, g, step.i, b) >= t(b)
    {
      EdgeCost(s, step, b);
    }
    SumBounded(s.n, t, b => Cross(f, g, step.i, b));
  }

  lemma EdgeCost(s: State, step: Step, b: int)
    requires Inv(s) && Enabled(s, step) && Child(s.n, b)
    requires Local(s, step).proc.phase != Crashed
    requires Local(s, step).proc.iter == s.procs[step.i].iter + Bit(step.ReleaseStep?)
    ensures |Local(s, step).out| == s.n + 1
    ensures Cross(Costs(s), Costs(Apply(s, step)), step.i, b) >= Traffic(Local(s, step).out[b])
  {
    NoSelfTraffic(s, step);
    if b != step.i {
      CrossIsSpending(s, step, b);
      StepSpends(s, step, b);
    }
  }

  lemma CrossIsSpending(s: State, step: Step, b: int)
    requires Wf(s) && Enabled(s, step) && Pair(s.n, step.i, b)
    requires Local(s, step).proc.phase != Crashed
    requires Local(s, step).proc.iter == s.procs[step.i].iter + Bit(step.ReleaseStep?)
    ensures Cross(Costs(s), Costs(Apply(s, step)), step.i, b) ==
            Spending(StepEdge(s, step, b)) - Spending(EdgeOf(s, step.i, b)) + 2 * Bit(step.ReleaseStep?)
  {
    var s' := Apply(s, step);
    var i := step.i;
    EdgeAfterStep(s, step, b);
    var e, e' := EdgeOf(s, i, b), EdgeOf(s', i, b);
    assert EdgeOf(s', b, i) == Flip(e');
    assert EdgeOf(s, b, i) == Flip(e);
    assert Costs(s)(i, b) == 2 * s.procs[i].iter + Spent(e);
    assert Costs(s)(b, i) == 2 * s.procs[b].iter + Spent(Flip(e));
    assert Costs(s')(i, b) == 2 * s'.procs[i].iter + Spent(e');
    assert Costs(s')(b, i) == 2 * s.procs[b].iter + Spent(Flip(e'));
  }

  lemma NoSelfTraffic(s: State, step: Step)
    requires Wf(s) && Enabled(s, step)
    ensures |Local(s, step).out| == s.n + 1
    ensures Local(s, step).out[step.i] == []
  {
  }

  lemma {:induction false} RunCost(s: State, steps: seq<Step>)
    requires Inv(s) && Runs(s, steps)
    ensures Grid(s.n, Costs(s)) + RunTraffic(s, steps) <= Grid(s.n, Costs(After(s, steps)))
    decreases |steps|
  {
    if steps != [] {
      InvKept(s, steps[0]);
      StepCost(s, steps[0]);
      RunCost(Apply(s, steps[0]), steps[1..]);
    }
  }

  // ---- the bound ----

  /** Critical sections child i has begun to ask for. */
  ghost function Begun(s: State): int -> int
    requires Wf(s)
  {
    i => if Child(s.n, i) then s.procs[i].iter + Bit(s.procs[i].phase != Serving) else 0
  }

  lemma SpentByUnfinished(e: Edge)
    requires EdgeOk(e)
    ensures 0 <= Spent(e) <= 2 * Bit(e.a.phase != Serving)
  {
  }

  lemma CostEntry(s: State, a: int, b: int)
    requires Inv(s) && Pair(s.n, a, b)
    ensures 0 <= Costs(s)(a, b) <= 2 * Begun(s)(a)
  {
    EdgeFact(s, a, b);
    SpentByUnfinished(EdgeOf(s, a, b));
  }

  lemma OneLess(n: int, x: int)
    ensures n * (2 * x) - 2 * x == 2 * (n - 1) * x
  {
  }

  lemma CostBound(s: State, a: int, b: int)
    requires Inv(s) && Child(s.n, a) && Child(s.n, b)
    ensures Costs(s)(a, b) <= if b == a then 0 else 2 * Begun(s)(a)
  {
    if b != a { CostEntry(s, a, b); }
  }

  lemma RowCost(s: State, a: int)
    requires Inv(s) && Child(s.n, a)
    ensures Row(s.n, Costs(s), a) <= 2 * (s.n - 1) * Begun(s)(a)
  {
    var c := 2 * Begun(s)(a);
    var row := (b: int) => Costs(s)(a, b);
    var all := (b: int) => c;
    var most := (b: int) => if b == a then 0 else c;
    forall b | Child(s.n, b)
      ensures row(b) <= most(b)
    {
      CostBound(s, a, b);
    }
    SumBounded(s.n, row, most);
    SumConstant(s.n, all, c);
    SumChange(s.n, all, most, a);
    OneLess(s.n, Begun(s)(a));
  }

  lemma GridCost(s: State)
    requires Inv(s)
    ensures Grid(s.n, Costs(s)) <= 2 * (s.n - 1) * Sum(s.n, Begun(s))
  {
    var rows := (a: int) => Row(s.n, Costs(s), a);
    var most := (a: int) => 2 * (s.n - 1) * Begun(s)(a);
    forall a | Child(s.n, a)
      ensures rows(a) <= most(a)
    {
      RowCost(s, a);
    }
    SumBounded(s.n, rows, most);
    SumScale(s.n, Begun(s), most, 2 * (s.n - 1));
  }

  /** Over any run, at most 2(n - 1) requests and replies per critical section begun. */
  lemma {:induction false} MessageCost(n: nat, steps: seq<Step>)
    requires Runs(Init(n), steps)
    ensures RunTraffic(Init(n), steps) <= 2 * (n - 1) * Sum(n, Begun(After(Init(n), steps)))
  {
    InitOk(n);
    forall a, b | Pair(n, a, b)
      ensures Costs(Init(n))(a, b) >= 0
    {
    }
    GridNonNegative(n, Costs(Init(n)));
    RunCost(Init(n), steps);
    RunKeepsInv(Init(n), steps);
    GridCost(After(Init(n), steps));
  }
}
