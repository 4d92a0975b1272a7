/** Exact accounting for the replicated queue protocol: every message and every clock tick
    of a run is charged to a critical section or to an announcement of DONE. This gives
    the message cost, the length of runs and the range of the clocks. */
module QueueCost {
  import opened Sums
  import opened Network
  import opened Stamps
  import opened QueueProtocol
  import opened QueueSafety
  import opened QueueSystem
  import opened QueueInvariant
  import opened QueueOrder

  // ---- messages ----

  /** Requests, replies and releases among some messages. */
  function Traffic(msgs: seq<Message>): int {
    Count(msgs, ARequest) + Count(msgs, AReply) + Count(msgs, ARelease)
  }

  ghost function OutTraffic(s: State, step: Step): int -> int
    requires Wf(s) && Enabled(s, step)
  {
    b => if 0 <= b < |Local(s, step).out| then Traffic(Local(s, step).out[b]) else 0
  }

  /** Requests, replies and releases sent between children over a whole run. */
  ghost function RunTraffic(s: State, steps: seq<Step>): int
    requires Wf(s) && Runs(s, steps)
    decreases |steps|
  {
    if steps == [] then 0
    else Sum(s.n, OutTraffic(s, steps[0])) + RunTraffic(Apply(s, steps[0]), steps[1..])
  }

  /** Messages a request has cost so far, by its stage. */
  function Used(g: Stage): int {
    match g
    case Idle => 0
    case Sent => 1
    case Answered => 2
    case Counted => 2
  }

  ghost function Costs(s: State): (int, int) -> int
    requires Wf(s)
  {
    (a: int, b: int) => if Pair(s.n, a, b) then 3 * s.procs[a].iter + Used(StageOf(EdgeOf(s, a, b))) else 0
  }

  lemma SmallTraffic(m: Message)
    ensures Traffic([]) == 0
    ensures Traffic([m]) == Bit(!m.Done?)
  {
    assert [m][1..] == [];
  }

  /** What the requests between i and b are charged for a step of i. */
  ghost function Charge(s: State, step: Step, b: int): int
    requires Wf(s) && Enabled(s, step) && Pair(s.n, step.i, b)
  {
    3 * Bit(step.ReleaseStep?)
    + Used(NextOwn(s, step, b)) - Used(StageOf(EdgeOf(s, step.i, b)))
    + Used(NextPeer(s, step, b)) - Used(StageOf(EdgeOf(s, b, step.i)))
  }

  lemma ReleaseSends(s: State, i: int, b: int)
    requires Wf(s) && Enabled(s, ReleaseStep(i)) && Pair(s.n, i, b) && s.procs[i].queue[i] != 0
    ensures OutTraffic(s, ReleaseStep(i))(b) == 1
  {
    var t := s.procs[i].clock + 1;
    SmallTraffic(Message.Release(t));
    if s.procs[i].iter + 1 >= Quota(i) {
      CountSnoc([Message.Release(t)], Done(t + 1));
      assert Local(s, ReleaseStep(i)).out[b] == [Message.Release(t)] + [Done(t + 1)];
    } else {
      assert Local(s, ReleaseStep(i)).out[b] == [Message.Release(t)];
    }
  }

  lemma ReleaseTraffic(s: State, i: int, b: int)
    requires Inv(s) && Enabled(s, ReleaseStep(i)) && Pair(s.n, i, b)
    ensures OutTraffic(s, ReleaseStep(i))(b) == Charge(s, ReleaseStep(i), b)
  {
    EdgeFact(s, i, b);
    ReleaseKeeps(EdgeOf(s, i, b), s.procs[i].iter + 1 >= Quota(i));
    assert NodeOk(s, i);
    ReleaseSends(s, i, b);
    assert EdgeOf(s, b, i) == Flip(EdgeOf(s, i, b));
  }

  lemma ElsewhereTraffic(s: State, i: int, from: int, b: int)
    requires Wf(s) && Enabled(s, ReceiveStep(i, from)) && Pair(s.n, i, b) && b != from
    requires Local(s, ReceiveStep(i, from)).proc.phase != Crashed
    ensures OutTraffic(s, ReceiveStep(i, from))(b) == 0 == Charge(s, ReceiveStep(i, from), b)
  {
    LocalReceive(s, i, from, b);
    assert EdgeOf(s, b, i) == Flip(EdgeOf(s, i, b));
    SmallTraffic(Reply(0));
  }

  lemma ReceiveTraffic(s: State, i: int, from: int, b: int)
    requires Inv(s) && Enabled(s, ReceiveStep(i, from)) && Pair(s.n, i, b)
    ensures OutTraffic(s, ReceiveStep(i, from))(b) == Charge(s, ReceiveStep(i, from), b)
  {
    if b == from {
      HeadTraffic(s, i, b);
    } else {
      Uncrashed(s, ReceiveStep(i, from));
      ElsewhereTraffic(s, i, from, b);
    }
  }

  lemma HeadTraffic(s: State, i: int, b: int)
    requires Inv(s) && Enabled(s, ReceiveStep(i, b))
    ensures var e := EdgeOf(s, i, b);
            Charge(s, ReceiveStep(i, b), b) ==
            Bit(e.ba[0].Request?)
    ensures OutTraffic(s, ReceiveStep(i, b))(b) == Charge(s, ReceiveStep(i, b), b)
  {
    assert EdgeOf(s, b, i) == Flip(EdgeOf(s, i, b));
    EdgeFact(s, i, b);
    HeadCharge(EdgeOf(s, i, b));
    HeadOut(s, i, b);
  }

  /** A request uses up its second message when it is answered, and nothing else does. */
  lemma HeadCharge(e: Edge)
    requires EdgeOk(e) && e.ba != []
    ensures var m := e.ba[0];
            var own := if m.Reply? then Counted else StageOf(e);
            var peer := if m.Request? then Answered else StageOf(Flip(e));
            Used(own) + Used(peer) == Used(StageOf(e)) + Used(StageOf(Flip(e))) + Bit(m.Request?)
  {
    HeadFacts(e);
  }

  lemma HeadOut(s: State, i: int, b: int)
    requires Inv(s) && Enabled(s, ReceiveStep(i, b))
    ensures var e := EdgeOf(s, i, b);
            OutTraffic(s, ReceiveStep(i, b))(b) ==
            Bit(e.ba[0].Request?)
  {
    Uncrashed(s, ReceiveStep(i, b));
    LocalReceive(s, i, b, b);
    SmallTraffic(Reply(Sync(s.procs[i].clock, s.ch(b, i)[0].time) + 1));
  }

  /** What a step sends to b is what the requests between i and b are charged for it. */
  lemma StepTraffic(s: State, step: Step, b: int)
    requires Inv(s) && Enabled(s, step) && Pair(s.n, step.i, b)
    ensures OutTraffic(s, step)(b) == Charge(s, step, b)
  {
    match step
    case CallStep(i) =>
      CallTraffic(s, i, b);
    case ReleaseStep(i) => ReleaseTraffic(s, i, b);
    case ReceiveStep(i, from) => ReceiveTraffic(s, i, from, b);
  }

  lemma CallTraffic(s: State, i: int, b: int)
    requires Wf(s) && Enabled(s, CallStep(i)) && Pair(s.n, i, b)
    ensures OutTraffic(s, CallStep(i))(b) == Charge(s, CallStep(i), b)
  {
    var e := EdgeOf(s, i, b);
    assert EdgeOf(s, b, i) == Flip(e);
    SmallTraffic(Request(e.a.clock + 1));
  }

  lemma IterAfter(s: State, step: Step)
    requires Inv(s) && Enabled(s, step)
    ensures Apply(s, step).procs[step.i].iter == s.procs[step.i].iter + Bit(step.ReleaseStep?)
  {
    Uncrashed(s, step);
    assert NodeOk(s, step.i);
    LocalCounters(s, step);
  }

  lemma CrossIsTraffic(s: State, step: Step, b: int)
    requires Inv(s) && Enabled(s, step) && Pair(s.n, step.i, b)
    ensures Cross(Costs(s), Costs(Apply(s, step)), step.i, b) == OutTraffic(s, step)(b)
  {
    StepTraffic(s, step, b);
    StageAfter(s, step, b);
    IterAfter(s, step);
  }

  lemma OtherCosts(s: State, step: Step, a: int, b: int)
    requires Inv(s) && Enabled(s, step) && Pair(s.n, a, b) && a != step.i && b != step.i
    ensures Costs(Apply(s, step))(a, b) == Costs(s)(a, b)
  {
    OtherEdges(s, step, a, b);
  }

  lemma CrossCost(s: State, step: Step, b: int)
    requires Inv(s) && Enabled(s, step) && Child(s.n, b)
    ensures Cross(Costs(s), Costs(Apply(s, step)), step.i, b) == OutTraffic(s, step)(b)
  {
    if b != step.i { CrossIsTraffic(s, step, b); } else { OutLength(s, step); }
  }

  lemma StepCost(s: State, step: Step)
    requires Inv(s) && Enabled(s, step)
    ensures Grid(s.n, Costs(Apply(s, step))) == Grid(s.n, Costs(s)) + Sum(s.n, OutTraffic(s, step))
  {
    var f, g := Costs(s), Costs(Apply(s, step));
    forall a, b | Pair(s.n, a, b) && a != step.i && b != step.i
      ensures f(a, b) == g(a, b)
    {
      OtherCosts(s, step, a, b);
    }
    GridChange(s.n, f, g, step.i);
    forall b | Child(s.n, b)
      ensures Cross(f, g, step.i, b) == OutTraffic(s, step)(b)
    {
      CrossCost(s, step, b);
    }
    SumEqual(s.n, b => Cross(f, g, step.i, b), OutTraffic(s, step));
  }

  lemma {:induction false} RunCost(s: State, steps: seq<Step>)
    requires Inv(s) && Runs(s, steps)
    ensures Grid(s.n, Costs(s)) + RunTraffic(s, steps) == Grid(s.n, Costs(After(s, steps)))
    decreases |steps|
  {
    if steps != [] {
      InvKept(s, steps[0]);
      StepCost(s, steps[0]);
      RunCost(Apply(s, steps[0]), steps[1..]);
    }
  }

  lemma InitialCost(n: nat)
    ensures Grid(n, Costs(Init(n))) == 0
  {
    GridLinear(n, Costs(Init(n)), 0);
  }

  lemma FinalCost(s: State)
    requires Inv(s) && Finished(s)
    ensures Grid(s.n, Costs(s)) == (s.n - 1) * (15 * Triangle(s.n))
  {
    forall a, b | Child(s.n, a) && Child(s.n, b)
      ensures Costs(s)(a, b) == if a == b then 0 else 15 * a
    {
      if a != b { assert NodeOk(s, a); }
    }
    GridLinear(s.n, Costs(s), 15);
  }

  /** A finished run has sent exactly 3(n - 1) requests, replies and releases for each of its
      5 * (1 + ... + n) critical sections. */
  lemma {:induction false} ExactMessageCost(n: nat, steps: seq<Step>)
    requires Runs(Init(n), steps) && Finished(After(Init(n), steps))
    ensures RunTraffic(Init(n), steps) == (n - 1) * (15 * Triangle(n))
  {
    InitOk(n);
    RunCost(Init(n), steps);
    RunKeepsInv(Init(n), steps);
    InitialCost(n);
    FinalCost(After(Init(n), steps));
  }
}
