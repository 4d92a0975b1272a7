/** Exact accounting for the deferred-reply protocol: every message and every clock tick
    of a run is charged to a critical section or to an announcement of DONE. This gives
    the message cost, the length of runs and the range of the clocks. */
module DeferCost {
  import opened Sums
  import opened Network
  import opened Stamps
  import opened DeferProtocol
  import opened DeferSafety
  import opened DeferSystem
  import opened DeferInvariant
  import opened DeferOrder

  // ---- messages ----

  /** Requests and replies among some messages. */
  function Traffic(msgs: seq<Message>): int {
    Count(msgs, ARequest) + Count(msgs, AReply)
  }

  ghost function OutTraffic(s: State, step: Step): int -> int
    requires Wf(s) && Enabled(s, step)
  {
    b => if 0 <= b < |Local(s, step).out| then Traffic(Local(s, step).out[b]) else 0
  }

  /** Requests and replies sent between children over a whole run. */
  ghost function RunTraffic(s: State, steps: seq<Step>): int
    requires Wf(s) && Runs(s, steps)
    decreases |steps|
  {
    if steps == [] then 0
    else Sum(s.n, OutTraffic(s, steps[0])) + RunTraffic(Apply(s, steps[0]), steps[1..])
  }

  /** Messages a request has cost so far, by its stage. */
  function Used(g: Stage): int {
    match g
    case Idle => 0
    case Sent => 1
    case Held => 1
    case Answered => 2
    case Counted => 2
  }

  ghost function Costs(s: State): (int, int) -> int
    requires Wf(s)
  {
    (a: int, b: int) => if Pair(s.n, a, b) then 2 * s.procs[a].iter + Used(StageOf(EdgeOf(s, a, b))) else 0
  }

  lemma SmallTraffic(m: Message)
    ensures Traffic([]) == 0
    ensures Traffic([m]) == Bit(m.Request? || m.Reply?)
  {
    assert [m][1..] == [];
  }

  /** What the requests between i and b are charged for a step of i. */
  ghost function Charge(s: State, step: Step, b: int): int
    requires Wf(s) && Enabled(s, step) && Pair(s.n, step.i, b)
  {
    2 * Bit(step.ReleaseStep?)
    + Used(NextOwn(s, step, b)) - Used(StageOf(EdgeOf(s, step.i, b)))
    + Used(NextPeer(s, step, b)) - Used(StageOf(EdgeOf(s, b, step.i)))
  }

  lemma ReleaseTraffic(s: State, i: int, b: int)
    requires Inv(s) && Enabled(s, ReleaseStep(i)) && Pair(s.n, i, b)
    ensures OutTraffic(s, ReleaseStep(i))(b) == Charge(s, ReleaseStep(i), b)
  {
    var step := ReleaseStep(i);
    var e := EdgeOf(s, i, b);
    assert EdgeOf(s, b, i) == Flip(e);
    EdgeFact(s, i, b);
    assert NodeOk(s, i);
    ReleaseOut(s, i, b);
    ReleaseKeeps(e, Local(s, step).proc.clock, Local(s, step).out[b], s.procs[i].iter + 1 >= Quota(i));
  }

  lemma ReceiveTraffic(s: State, i: int, from: int, b: int)
    requires Inv(s) && Enabled(s, ReceiveStep(i, from)) && Pair(s.n, i, b)
    ensures OutTraffic(s, ReceiveStep(i, from))(b) == Charge(s, ReceiveStep(i, from), b)
  {
    if b == from {
      HeadTraffic(s, i, b);
    } else {
      Uncrashed(s, ReceiveStep(i, from));
      ElsewhereTraffic(s, i, from, b);
    }
  }

  lemma ElsewhereTraffic(s: State, i: int, from: int, b: int)
    requires Wf(s) && Enabled(s, ReceiveStep(i, from)) && Pair(s.n, i, b) && b != from
    requires Local(s, ReceiveStep(i, from)).proc.phase != Crashed
    ensures OutTraffic(s, ReceiveStep(i, from))(b) == 0 == Charge(s, ReceiveStep(i, from), b)
  {
    LocalReceive(s, i, from, b);
    assert EdgeOf(s, b, i) == Flip(EdgeOf(s, i, b));
    SmallTraffic(Reply(0));
  }

  lemma HeadTraffic(s: State, i: int, b: int)
    requires Inv(s) && Enabled(s, ReceiveStep(i, b))
    ensures var e := EdgeOf(s, i, b);
            Charge(s, ReceiveStep(i, b), b) ==
            Bit(e.ba[0].Request? && !(e.a.phase == Polling && Less(e.a.own, e.a.id, e.ba[0].time, e.b.id)))
    ensures OutTraffic(s, ReceiveStep(i, b))(b) == Charge(s, ReceiveStep(i, b), b)
  {
    assert EdgeOf(s, b, i) == Flip(EdgeOf(s, i, b));
    EdgeFact(s, i, b);
    HeadCharge(EdgeOf(s, i, b));
    HeadOut(s, i, b);
  }

  /** A request answered at once uses up its second message, and nothing else does. */
  lemma HeadCharge(e: Edge)
    requires EdgeOk(e) && e.ba != []
    ensures var m := e.ba[0];
            var deferred := m.Request? && e.a.phase == Polling && Less(e.a.own, e.a.id, m.time, e.b.id);
            var own := if m.Reply? then Counted else StageOf(e);
            var peer := if !m.Request? then StageOf(Flip(e)) else if deferred then Held else Answered;
            Used(own) + Used(peer) == Used(StageOf(e)) + Used(StageOf(Flip(e))) + Bit(m.Request? && !deferred)
  {
    HeadFacts(e);
  }

  lemma HeadOut(s: State, i: int, b: int)
    requires Inv(s) && Enabled(s, ReceiveStep(i, b))
    ensures var e := EdgeOf(s, i, b);
            OutTraffic(s, ReceiveStep(i, b))(b) ==
            Bit(e.ba[0].Request? && !(e.a.phase == Polling && Less(e.a.own, e.a.id, e.ba[0].time, e.b.id)))
  {
    Uncrashed(s, ReceiveStep(i, b));
    LocalReceive(s, i, b, b);
    SmallTraffic(Reply(Sync(s.procs[i].clock, s.ch(b, i)[0].time) + 1));
  }

  /** What a step sends to b is what the requests between i and b are charged for it. */
  lemma StepTraffic(s: State, step: Step, b: int)
    requires Inv(s) && Enabled(s, step) && Pair(s.n, step.i, b)
    ensures OutTraffic(s, step)(b) == Charge(s, step, b)
  {
    match step
    case CallStep(i) =>
      var e := EdgeOf(s, i, b);
      assert EdgeOf(s, b, i) == Flip(e);
      SmallTraffic(Request(e.a.clock + 1));
    case ReleaseStep(i) => ReleaseTraffic(s, i, b);
    case ReceiveStep(i, from) => ReceiveTraffic(s, i, from, b);
  }

  lemma IterAfter(s: State, step: Step)
    requires Inv(s) && Enabled(s, step)
    ensures Apply(s, step).procs[step.i].iter == s.procs[step.i].iter + Bit(step.ReleaseStep?)
  {
    Uncrashed(s, step);
    assert NodeOk(s, step.i);
    LocalCounters(s, step);
  }

  lemma CrossIsTraffic(s: State, step: Step, b: int)
    requires Inv(s) && Enabled(s, step) && Pair(s.n, step.i, b)
    ensures Cross(Costs(s), Costs(Apply(s, step)), step.i, b) == OutTraffic(s, step)(b)
  {
    StepTraffic(s, step, b);
    StageAfter(s, step, b);
    IterAfter(s, step);
  }

  lemma OtherCosts(s: State, step: Step, a: int, b: int)
    requires Inv(s) && Enabled(s, step) && Pair(s.n, a, b) && a != step.i && b != step.i
    ensures Costs(Apply(s, step))(a, b) == Costs(s)(a, b)
  {
    OtherEdges(s, step, a, b);
  }

  lemma CrossCost(s: State, step: Step, b: int)
    requires Inv(s) && Enabled(s, step) && Child(s.n, b)
    ensures Cross(Costs(s), Costs(Apply(s, step)), step.i, b) == OutTraffic(s, step)(b)
  {
    if b != step.i { CrossIsTraffic(s, step, b); } else { OutLength(s, step); }
  }

  lemma StepCost(s: State, step: Step)
    requires Inv(s) && Enabled(s, step)
    ensures Grid(s.n, Costs(Apply(s, step))) == Grid(s.n, Costs(s)) + Sum(s.n, OutTraffic(s, step))
  {
    var f, g := Costs(s), Costs(Apply(s, step));
    forall a, b | Pair(s.n, a, b) && a != step.i && b != step.i
      ensures f(a, b) == g(a, b)
    {
      OtherCosts(s, step, a, b);
    }
    GridChange(s.n, f, g, step.i);
    forall b | Child(s.n, b)
      ensures Cross(f, g, step.i, b) == OutTraffic(s, step)(b)
    {
      CrossCost(s, step, b);
    }
    SumEqual(s.n, b => Cross(f, g, step.i, b), OutTraffic(s, step));
  }

  lemma {:induction false} RunCost(s: State, steps: seq<Step>)
    requires Inv(s) && Runs(s, steps)
    ensures Grid(s.n, Costs(s)) + RunTraffic(s, steps) == Grid(s.n, Costs(After(s, steps)))
    decreases |steps|
  {
    if steps != [] {
      InvKept(s, steps[0]);
      StepCost(s, steps[0]);
      RunCost(Apply(s, steps[0]), steps[1..]);
    }
  }

  lemma InitialCost(n: nat)
    ensures Grid(n, Costs(Init(n))) == 0
  {
    GridLinear(n, Costs(Init(n)), 0);
  }

  lemma FinalCost(s: State)
    requires Inv(s) && Finished(s)
    ensures Grid(s.n, Costs(s)) == (s.n - 1) * (10 * Triangle(s.n))
  {
    forall a, b | Child(s.n, a) && Child(s.n, b)
      ensures Costs(s)(a, b) == if a == b then 0 else 10 * a
    {
      if a != b { assert NodeOk(s, a); }
    }
    GridLinear(s.n, Costs(s), 10);
  }

  /** A finished run has sent exactly 2(n - 1) requests and replies for each of its
      5 * (1 + ... + n) critical sections. */
  lemma {:induction false} ExactMessageCost(n: nat, steps: seq<Step>)
    requires Runs(Init(n), steps) && Finished(After(Init(n), steps))
    ensures RunTraffic(Init(n), steps) == (n - 1) * (10 * Triangle(n))
  {
    InitOk(n);
    RunCost(Init(n), steps);
    RunKeepsInv(Init(n), steps);
    InitialCost(n);
    FinalCost(After(Init(n), steps));
  }
}
