/** The life of the request tokens: when one is lost, and how often one is spent. */
module ForkTokens {
  import opened Sums
  import opened Network
  import opened ForkProtocol
  import opened ForkSafety
  import opened ForkOrder
  import opened ForkTermination
  import opened ForkCost

  /** a's request for its current section has been sent: it is in transit, at b next to the
      fork, or has brought the fork already. */
  ghost function Asked(e: Edge): int {
    Bit(Spent(e) > 0)
  }

  // ---- one edge ----

  lemma AskTokens(e: Edge)
    requires EdgeOk(e) && e.a.phase == Calling
    ensures Tokens(AskEdge(e)) == Tokens(e)
    ensures Asked(AskEdge(e)) == Asked(e) + Bit(!e.a.fork && e.a.token)
    ensures Asked(Flip(AskEdge(e))) == Asked(Flip(e))
  {
  }

  lemma ReceiveTokens(e: Edge, ph: Phase)
    requires EdgeOk(e) && e.a.phase == Polling && e.ba != []
    ensures Tokens(ReceiveEdge(e, ph)) == Tokens(e)
    ensures Asked(ReceiveEdge(e, ph)) == Asked(e)
    ensures Asked(Flip(ReceiveEdge(e, ph))) == Asked(Flip(e))
  {
    ReceiveAsked(e, ph);
    ReceiveAnswers(e, ph);
    ShapeRest(e.ba);
  }

  lemma ReceiveAsked(e: Edge, ph: Phase)
    requires EdgeOk(e) && e.a.phase == Polling && e.ba != []
    ensures Asked(ReceiveEdge(e, ph)) == Asked(e)
  {
    ShapeRest(e.ba);
  }

  lemma ReceiveAnswers(e: Edge, ph: Phase)
    requires EdgeOk(e) && e.a.phase == Polling && e.ba != []
    ensures Asked(Flip(ReceiveEdge(e, ph))) == Asked(Flip(e))
  {
    ShapeRest(e.ba);
  }

  /** A finished child keeps the fork request it answers. */
  lemma ServeTokens(e: Edge)
    requires EdgeOk(e) && e.a.phase == Serving && e.ba != []
    ensures Tokens(ServeEdge(e)) == Tokens(e) - Bit(e.ba[0] == Request)
    ensures Asked(ServeEdge(e)) >= Asked(e)
    ensures Asked(Flip(ServeEdge(e))) >= Asked(Flip(e))
  {
    ServeKeeps(e);
    ShapeRest(e.ba);
  }

  lemma ReleaseTokens(e: Edge, last: bool)
    requires EdgeOk(e) && e.a.phase == Critical
    ensures Tokens(ReleaseEdge(e, last)) == Tokens(e)
    ensures Asked(ReleaseEdge(e, last)) + 1 >= Asked(e)
    ensures Asked(Flip(ReleaseEdge(e, last))) >= Asked(Flip(e))
  {
    CriticalQuiet(e);
  }

  // ---- one step ----

  /** A finished child a answers a request of b. */
  ghost predicate Answers(s: State, step: Step, a: int, b: int)
    requires Wf(s) && Enabled(s, step)
  {
    step == ReceiveStep(a, b) && s.procs[a].phase == Serving && s.ch(b, a)[0] == Request
  }

  /** Requests a sends to b. */
  ghost function Requests(s: State, step: Step, a: int, b: int): int
    requires Wf(s) && Enabled(s, step)
  {
    if step.i == a && 0 <= b < |Local(s, step).out| then multiset(Local(s, step).out[b])[Request] else 0
  }

  lemma RequestsSent(s: State, step: Step, b: int)
    requires Wf(s) && Enabled(s, step) && Pair(s.n, step.i, b)
    ensures Requests(s, step, step.i, b) == Bit(step.AskStep? && Asks(s.procs[step.i], b))
  {
  }

  lemma StepTokens(s: State, step: Step, b: int)
    requires Inv(s) && Enabled(s, step) && Pair(s.n, step.i, b)
    ensures var e, f := EdgeOf(s, step.i, b), StepEdge(s, step, b);
            && Tokens(f) == Tokens(e) - Bit(Answers(s, step, step.i, b))
            && Asked(f) + Bit(step.ReleaseStep?) >= Asked(e) + Requests(s, step, step.i, b)
            && Asked(Flip(f)) >= Asked(Flip(e))
  {
    var e := EdgeOf(s, step.i, b);
    EdgeFact(s, step.i, b);
    RequestsSent(s, step, b);
    match step
    case AskStep(i) => AskTokens(e);
    case EnterStep(i) =>
    case ReleaseStep(i) => ReleaseTokens(e, s.procs[i].iter + 1 >= Quota(i));
    case ReceiveStep(i, from) =>
      if from == b {
        if e.a.phase == Polling { ReceiveTokens(e, Local(s, step).proc.phase); } else { ServeTokens(e); }
      }
  }

  lemma FlipTokens(e: Edge)
    ensures Tokens(Flip(e)) == Tokens(e)
  {
  }

  /** The token of a pair is lost only when a finished child answers the other's request. */
  lemma TokensUnderStep(s: State, step: Step, a: int, b: int)
    requires Inv(s) && Enabled(s, step) && Pair(s.n, a, b)
    ensures Tokens(EdgeOf(Apply(s, step), a, b)) ==
            Tokens(EdgeOf(s, a, b)) - Bit(Answers(s, step, a, b) || Answers(s, step, b, a))
  {
    if a != step.i && b != step.i {
      OtherEdges(s, step, a, b);
    } else {
      var c := if a == step.i then b else a;
      Uncrashed(s, step);
      EdgeAfterStep(s, step, c);
      StepTokens(s, step, c);
      FlipTokens(EdgeOf(s, step.i, c));
      FlipTokens(StepEdge(s, step, c));
      assert EdgeOf(Apply(s, step), c, step.i) == Flip(EdgeOf(Apply(s, step), step.i, c));
    }
  }

  /** What a's sections and requests to b add up to. */
  ghost function Account(s: State, a: int, b: int): int
    requires Wf(s) && Pair(s.n, a, b)
  {
    s.procs[a].iter + Asked(EdgeOf(s, a, b))
  }

  lemma RequestsUnderStep(s: State, step: Step, a: int, b: int)
    requires Inv(s) && Enabled(s, step) && Pair(s.n, a, b)
    ensures Account(Apply(s, step), a, b) >= Account(s, a, b) + Requests(s, step, a, b)
  {
    if a != step.i && b != step.i {
      OtherEdges(s, step, a, b);
    } else {
      var c := if a == step.i then b else a;
      Uncrashed(s, step);
      EdgeAfterStep(s, step, c);
      StepTokens(s, step, c);
      LocalProgress(s, step);
      assert EdgeOf(Apply(s, step), c, step.i) == Flip(EdgeOf(Apply(s, step), step.i, c));
    }
  }

  // ---- whole runs ----

  ghost function RunAnswers(s: State, steps: seq<Step>, a: int, b: int): int
    requires Wf(s) && Runs(s, steps)
    decreases |steps|
  {
    if steps == [] then 0
    else
      Bit(Answers(s, steps[0], a, b) || Answers(s, steps[0], b, a))
      + RunAnswers(Apply(s, steps[0]), steps[1..], a, b)
  }

  ghost function RunRequests(s: State, steps: seq<Step>, a: int, b: int): int
    requires Wf(s) && Runs(s, steps)
    decreases |steps|
  {
    if steps == [] then 0 else Requests(s, steps[0], a, b) + RunRequests(Apply(s, steps[0]), steps[1..], a, b)
  }

  lemma {:induction false} RunTokens(s: State, steps: seq<Step>, a: int, b: int)
    requires Inv(s) && Runs(s, steps) && Pair(s.n, a, b)
    ensures Tokens(EdgeOf(After(s, steps), a, b)) == Tokens(EdgeOf(s, a, b)) - RunAnswers(s, steps, a, b)
    ensures Account(After(s, steps), a, b) >= Account(s, a, b) + RunRequests(s, steps, a, b)
    decreases |steps|
  {
    if steps != [] {
      InvKept(s, steps[0]);
      TokensUnderStep(s, steps[0], a, b);
      RequestsUnderStep(s, steps[0], a, b);
      RunTokens(Apply(s, steps[0]), steps[1..], a, b);
    }
  }

  /** There is exactly one token for every pair until a finished child of the pair answers
      a request, and none from then on: such an answer happens once at most. */
  lemma {:induction false} TokenUntilAnswered(n: nat, steps: seq<Step>, a: int, b: int)
    requires Runs(Init(n), steps) && Pair(n, a, b)
    ensures Tokens(EdgeOf(After(Init(n), steps), a, b)) == 1 - RunAnswers(Init(n), steps, a, b)
    ensures Tokens(EdgeOf(After(Init(n), steps), a, b)) >= 0
  {
    InitOk(n);
    RunTokens(Init(n), steps, a, b);
    EdgeFact(Init(n), a, b);
  }

  /** A child sends each peer at most one request per critical section begun. */
  lemma {:induction false} OneRequestPerSection(n: nat, steps: seq<Step>, a: int, b: int)
    requires Runs(Init(n), steps) && Pair(n, a, b)
    ensures RunRequests(Init(n), steps, a, b) <= Begun(After(Init(n), steps))(a)
  {
    InitOk(n);
    RunTokens(Init(n), steps, a, b);
    RunKeepsInv(Init(n), steps);
    EdgeFact(After(Init(n), steps), a, b);
    SpentByUnfinished(EdgeOf(After(Init(n), steps), a, b));
  }
}
