/** The inductive invariant of the fork protocol, stated one edge (pair of children)
    at a time, and its preservation by every step. */
module ForkSafety {
  import opened Sums
  import opened Network
  import opened ForkProtocol

  /** One end of an edge: what a child knows about one peer. */
  datatype End = End(fork: bool, dirty: bool, token: bool, phase: Phase)

  /** Two children and the two channels between them; ab runs from a to b. */
  datatype Edge = Edge(a: End, b: End, ab: seq<Msg>, ba: seq<Msg>)

  ghost predicate Busy(p: Phase) {
    p == Calling || p == Polling
  }

  /** Everything that can be in transit from one child to another. */
  ghost predicate Shape(ch: seq<Msg>) {
    ch == [] || ch == [Reply] || ch == [Request] || ch == [Reply, Request]
    || ch == [Done] || ch == [Reply, Done] || ch == [Done, Reply]
  }

  /** Facts about end a, its outgoing channel, and the peer they concern. */
  ghost predicate HalfOk(e: Edge) {
    && Shape(e.ab)
    && e.a.phase != Crashed
    && (Request in e.ab ==> Busy(e.a.phase) && (e.b.fork || Reply in e.ab))
    && (Done in e.ab ==> e.a.phase == Serving)
    && (Reply in e.ab ==> Busy(e.b.phase))
    && (Reply in e.ab ==> e.a.token || Request in e.ab || (e.a.phase == Serving && !e.b.token && Request !in e.ba))
    && (e.a.phase == Critical ==> e.a.fork)
    && (e.a.phase == Polling && !e.a.fork ==> !e.a.token)
    && (e.a.fork && e.a.dirty ==> !e.a.token)
    && (e.a.phase == Serving && e.a.fork ==> e.a.dirty)
    && (e.a.fork && e.a.token ==> Busy(e.b.phase))
    && (e.a.fork && !e.a.token && e.b.phase != Serving ==> e.b.token || Request in e.ba)
  }

  ghost function Forks(e: Edge): int {
    Bit(e.a.fork) + Bit(e.b.fork) + Bit(Reply in e.ab) + Bit(Reply in e.ba)
  }

  ghost function Tokens(e: Edge): int {
    Bit(e.a.token) + Bit(e.b.token) + Bit(Request in e.ab) + Bit(Request in e.ba)
  }

  function Flip(e: Edge): Edge {
    Edge(e.b, e.a, e.ba, e.ab)
  }

  ghost predicate EdgeOk(e: Edge) {
    && HalfOk(e) && HalfOk(Flip(e))
    && Forks(e) == 1
    && Tokens(e) <= 1
    && (e.a.phase != Serving && e.b.phase != Serving ==> Tokens(e) == 1)
  }

  // ---- one edge under the steps of its end a ----

  ghost function AskEdge(e: Edge): Edge {
    var asks := !e.a.fork && e.a.token;
    e.(a := e.a.(phase := Polling, token := e.a.token && !asks), ab := e.ab + if asks then [Request] else [])
  }

  lemma AskKeeps(e: Edge)
    requires EdgeOk(e) && e.a.phase == Calling
    ensures EdgeOk(AskEdge(e))
  {
  }

  /** A step of a that concerns another peer: only its phase can change. */
  lemma PhaseKeeps(e: Edge, ph: Phase)
    requires EdgeOk(e) && e.a.phase == Polling
    requires ph == Calling || (ph == Critical && e.a.fork)
    ensures EdgeOk(e.(a := e.a.(phase := ph)))
  {
  }

  ghost function ReleaseEdge(e: Edge, last: bool): Edge {
    e.(a := End(e.a.fork && !e.a.token, true, e.a.token, if last then Serving else Calling),
       ab := e.ab + ((if e.a.token then [Reply] else []) + if last then [Done] else []))
  }

  lemma CriticalQuiet(e: Edge)
    requires EdgeOk(e) && e.a.phase == Critical
    ensures e.ab == [] && e.a.fork
    ensures e.a.token ==> !e.a.dirty
  {
  }

  lemma ReleaseKeeps(e: Edge, last: bool)
    requires EdgeOk(e) && e.a.phase == Critical
    ensures EdgeOk(ReleaseEdge(e, last))
  {
    CriticalQuiet(e);
    var r := ReleaseEdge(e, last);
    if e.a.token {
      assert r.ab == if last then [Reply, Done] else [Reply];
    } else {
      assert r.ab == if last then [Done] else [];
    }
  }

  /** Receiving the oldest message of ba inside `request_cs`; ph is the outcome of
      the entry test. */
  ghost function ReceiveEdge(e: Edge, ph: Phase): Edge
    requires e.ba != []
  {
    var f := e.(ba := e.ba[1..]);
    match e.ba[0]
    case Reply => f.(a := End(true, false, e.a.token, ph))
    case Request =>
      if e.a.fork && e.a.dirty then f.(a := End(false, true, true, ph), ab := e.ab + [Reply])
      else f.(a := e.a.(token := true, phase := ph))
    case _ => f.(a := e.a.(phase := ph))
  }

  lemma ShapeRest(ch: seq<Msg>)
    requires Shape(ch) && ch != []
    ensures ch[1..] == [] || ch[1..] == [Request] || ch[1..] == [Done] || ch[1..] == [Reply]
  {
    if |ch| == 2 {
      assert ch[1..] == [ch[1]];
    }
  }

  lemma ReceiveKeeps(e: Edge, ph: Phase)
    requires EdgeOk(e) && e.a.phase == Polling && e.ba != []
    requires ph == Calling || (ph == Critical && ReceiveEdge(e, ph).a.fork)
    ensures e.ba[0] != Other
    ensures EdgeOk(ReceiveEdge(e, ph))
  {
    HeadKnown(e.ba);
    if e.ba[0] == Reply {
      ReceiveReply(e, ph);
    } else if e.ba[0] == Request {
      ReceiveRequest(e, ph);
    } else {
      ReceiveDone(e, ph);
    }
  }

  lemma HeadKnown(ch: seq<Msg>)
    requires Shape(ch) && ch != []
    ensures ch[0] != Other
  {
  }

  lemma ReceiveReply(e: Edge, ph: Phase)
    requires EdgeOk(e) && e.a.phase == Polling && e.ba != [] && e.ba[0] == Reply && (ph == Calling || ph == Critical)
    ensures EdgeOk(ReceiveEdge(e, ph))
  {
    ShapeRest(e.ba);
  }

  lemma ReceiveRequest(e: Edge, ph: Phase)
    requires EdgeOk(e) && e.a.phase == Polling && e.ba != [] && e.ba[0] == Request
    requires ph == Calling || (ph == Critical && ReceiveEdge(e, ph).a.fork)
    ensures EdgeOk(ReceiveEdge(e, ph))
  {
    ShapeRest(e.ba);
    if e.a.fork && e.a.dirty {
      assert e.ab == [];
      assert ReceiveEdge(e, ph).ab == [Reply];
    }
  }

  lemma ReceiveDone(e: Edge, ph: Phase)
    requires EdgeOk(e) && e.a.phase == Polling && e.ba != [] && e.ba[0] == Done
    requires ph == Calling || (ph == Critical && e.a.fork)
    ensures EdgeOk(ReceiveEdge(e, ph))
  {
    ShapeRest(e.ba);
  }

  ghost function ServeEdge(e: Edge): Edge
    requires e.ba != []
  {
    var f := e.(ba := e.ba[1..]);
    if e.ba[0] == Request then f.(a := e.a.(fork := false), ab := e.ab + [Reply]) else f
  }

  lemma ServeKeeps(e: Edge)
    requires EdgeOk(e) && e.a.phase == Serving && e.ba != []
    ensures e.ba[0] == Request || e.ba[0] == Done
    ensures e.ba[0] == Request ==> e.a.fork
    ensures EdgeOk(ServeEdge(e))
  {
    assert e.ba[0] in e.ba;
    ShapeRest(e.ba);
    if e.ba[0] == Request {
      assert e.ab == [] || e.ab == [Done];
      assert ServeEdge(e).ab == [Reply] || ServeEdge(e).ab == [Done, Reply];
    }
  }

  // ---- the whole system ----

  ghost function EndOf(s: State, a: int, b: int): End
    requires Wf(s) && Pair(s.n, a, b)
  {
    var p := s.procs[a];
    End(p.fork[b], p.dirty[b], p.token[b], p.phase)
  }

  ghost function EdgeOf(s: State, a: int, b: int): Edge
    requires Wf(s) && Pair(s.n, a, b)
  {
    Edge(EndOf(s, a, b), EndOf(s, b, a), s.ch(a, b), s.ch(b, a))
  }

  ghost predicate EdgesOk(s: State)
    requires Wf(s)
  {
    forall a, b :: Pair(s.n, a, b) ==> EdgeOk(EdgeOf(s, a, b))
  }

  /** Does child i still have to receive the DONE of child j? */
  ghost predicate Awaited(s: State, i: int, j: int)
    requires Wf(s)
  {
    Pair(s.n, i, j) && (s.procs[j].phase != Serving || Done in s.ch(j, i))
  }

  ghost function AwaitedCount(s: State, i: int): int
    requires Wf(s)
  {
    Sum(s.n, j => Bit(Awaited(s, i, j)))
  }

  /** The driver's variables: the loop counter and `awaiting_children`. */
  ghost predicate NodeOk(s: State, i: int)
    requires Wf(s) && Child(s.n, i)
  {
    && s.procs[i].phase != Crashed
    && s.procs[i].iter <= Quota(i)
    && (s.procs[i].phase == Serving <==> s.procs[i].iter == Quota(i))
    && s.procs[i].awaiting == AwaitedCount(s, i)
  }

  ghost predicate NodesOk(s: State)
    requires Wf(s)
  {
    forall i :: Child(s.n, i) ==> NodeOk(s, i)
  }

  ghost predicate Inv(s: State) {
    Wf(s) && EdgesOk(s) && NodesOk(s)
  }

  lemma EdgeFact(s: State, a: int, b: int)
    requires Inv(s) && Pair(s.n, a, b)
    ensures EdgeOk(EdgeOf(s, a, b))
  {
  }

  lemma CriticalApart(e: Edge)
    requires EdgeOk(e)
    ensures !(e.a.phase == Critical && e.b.phase == Critical)
  {
  }

  /** What a step of i does to the edge between i and b. */
  ghost function StepEdge(s: State, step: Step, b: int): Edge
    requires Wf(s) && Enabled(s, step) && Pair(s.n, step.i, b)
  {
    var e := EdgeOf(s, step.i, b);
    var ph := Local(s, step).proc.phase;
    match step
    case AskStep(i) => AskEdge(e)
    case ReleaseStep(i) => ReleaseEdge(e, s.procs[i].iter + 1 >= Quota(i))
    case EnterStep(i) => e.(a := e.a.(phase := Critical))
    case ReceiveStep(i, from) =>
      if b != from then e.(a := e.a.(phase := ph))
      else if e.a.phase == Polling then ReceiveEdge(e, ph) else ServeEdge(e)
  }

  lemma ReceiveRow(p: Proc, n: nat, from: int, m: Msg, b: int)
    requires WfProc(p, n) && Child(n, from) && Child(n, b)
    requires Receive(p, n, from, m).proc.phase != Crashed
    ensures var r := Receive(p, n, from, m);
            && r.proc.fork[b] == (if b != from then p.fork[b]
                                  else m == Reply || (p.fork[b] && !(m == Request && p.dirty[b])))
            && r.proc.dirty[b] == (p.dirty[b] && !(b == from && m == Reply))
            && r.proc.token[b] == (p.token[b] || (b == from && m == Request))
            && r.out[b] == if b == from && m == Request && p.fork[b] && p.dirty[b] then [Reply] else []
  {
  }

  lemma EdgeAfterReceive(s: State, i: int, from: int, b: int)
    requires Wf(s) && Enabled(s, ReceiveStep(i, from)) && Pair(s.n, i, b)
    requires Local(s, ReceiveStep(i, from)).proc.phase != Crashed
    ensures EdgeOf(Apply(s, ReceiveStep(i, from)), i, b) == StepEdge(s, ReceiveStep(i, from), b)
  {
    var step := ReceiveStep(i, from);
    var s' := Apply(s, step);
    var m := s.ch(from, i)[0];
    if s.procs[i].phase == Polling {
      ReceiveRow(s.procs[i], s.n, from, m, b);
    }
    assert EndOf(s', b, i) == EndOf(s, b, i);
    assert s'.ch(b, i) == if b == from then s.ch(b, i)[1..] else s.ch(b, i);
    assert s'.ch(i, b) == s.ch(i, b) + Local(s, step).out[b];
  }

  lemma EdgeAfterStep(s: State, step: Step, b: int)
    requires Wf(s) && Enabled(s, step) && Pair(s.n, step.i, b)
    requires Local(s, step).proc.phase != Crashed
    ensures EdgeOf(Apply(s, step), step.i, b) == StepEdge(s, step, b)
  {
    if step.ReceiveStep? {
      EdgeAfterReceive(s, step.i, step.from, b);
    } else {
      assert Apply(s, step).ch(step.i, b) == s.ch(step.i, b) + Local(s, step).out[b];
    }
  }

  lemma OtherEdges(s: State, step: Step, a: int, b: int)
    requires Wf(s) && Enabled(s, step) && Pair(s.n, a, b) && a != step.i && b != step.i
    ensures EdgeOf(Apply(s, step), a, b) == EdgeOf(s, a, b)
  {
  }

  /** No message a child can receive makes an assertion or a type check fail. */
  lemma ReceiveUncrashed(s: State, i: int, from: int)
    requires Inv(s) && Enabled(s, ReceiveStep(i, from))
    ensures Local(s, ReceiveStep(i, from)).proc.phase != Crashed
  {
    HeadUncrashed(s, i, from);
  }

  lemma HeadUncrashed(s: State, i: int, from: int)
    requires Wf(s) && Enabled(s, ReceiveStep(i, from)) && EdgeOk(EdgeOf(s, i, from))
    ensures Local(s, ReceiveStep(i, from)).proc.phase != Crashed
  {
    var e := EdgeOf(s, i, from);
    if e.a.phase == Polling {
      ReceiveKeeps(e, Calling);
    } else {
      ServeKeeps(e);
    }
  }

  lemma ReceiveEdgeOk(s: State, i: int, from: int, b: int)
    requires Inv(s) && Enabled(s, ReceiveStep(i, from)) && Pair(s.n, i, b)
    requires s.procs[i].phase == Polling
    requires Local(s, ReceiveStep(i, from)).proc.phase != Crashed
    ensures EdgeOk(StepEdge(s, ReceiveStep(i, from), b))
  {
    if b == from { ReceiveHeadOk(s, i, b); } else { ReceiveElsewhereOk(s, i, from, b); }
  }

  lemma ReceiveElsewhereOk(s: State, i: int, from: int, b: int)
    requires Inv(s) && Enabled(s, ReceiveStep(i, from)) && Pair(s.n, i, b) && b != from
    requires s.procs[i].phase == Polling
    requires Local(s, ReceiveStep(i, from)).proc.phase != Crashed
    ensures EdgeOk(StepEdge(s, ReceiveStep(i, from), b))
  {
    assert EdgeOk(EdgeOf(s, i, b));
    PhaseKeeps(EdgeOf(s, i, b), Local(s, ReceiveStep(i, from)).proc.phase);
  }

  lemma ReceiveHeadOk(s: State, i: int, b: int)
    requires Inv(s) && Enabled(s, ReceiveStep(i, b)) && s.procs[i].phase == Polling
    requires Local(s, ReceiveStep(i, b)).proc.phase != Crashed
    ensures EdgeOk(StepEdge(s, ReceiveStep(i, b), b))
  {
    assert EdgeOk(EdgeOf(s, i, b));
    ReceiveKeeps(EdgeOf(s, i, b), Local(s, ReceiveStep(i, b)).proc.phase);
  }

  /** The unguarded `give_up_fork` of `release_cs` always finds its fork. */
  lemma ReleaseUncrashed(s: State, i: int)
    requires Inv(s) && Enabled(s, ReleaseStep(i))
    ensures Local(s, ReleaseStep(i)).proc.phase != Crashed
  {
    forall c | 1 <= c <= s.n && c != i
      ensures s.procs[i].fork[c]
    {
      assert EdgeOk(EdgeOf(s, i, c));
      CriticalQuiet(EdgeOf(s, i, c));
    }
  }

  lemma Uncrashed(s: State, step: Step)
    requires Inv(s) && Enabled(s, step)
    ensures Local(s, step).proc.phase != Crashed
  {
    match step
    case AskStep(i) =>
    case EnterStep(i) =>
    case ReceiveStep(i, from) => ReceiveUncrashed(s, i, from);
    case ReleaseStep(i) => ReleaseUncrashed(s, i);
  }

  lemma StepEdgeOk(s: State, step: Step, b: int)
    requires Inv(s) && Enabled(s, step) && Pair(s.n, step.i, b)
    ensures EdgeOk(StepEdge(s, step, b))
  {
    var e := EdgeOf(s, step.i, b);
    EdgeFact(s, step.i, b);
    match step
    case AskStep(i) => AskKeeps(e);
    case EnterStep(i) => PhaseKeeps(e, Critical);
    case ReleaseStep(i) => ReleaseKeeps(e, s.procs[i].iter + 1 >= Quota(i));
    case ReceiveStep(i, from) =>
      Uncrashed(s, step);
      if s.procs[i].phase == Polling { ReceiveEdgeOk(s, i, from, b); } else { ServeEdgeOk(s, i, from, b); }
  }

  lemma ServeEdgeOk(s: State, i: int, from: int, b: int)
    requires Wf(s) && Enabled(s, ReceiveStep(i, from)) && Pair(s.n, i, b) && s.procs[i].phase == Serving
    requires Local(s, ReceiveStep(i, from)).proc.phase != Crashed && EdgeOk(EdgeOf(s, i, b))
    ensures EdgeOk(StepEdge(s, ReceiveStep(i, from), b))
  {
    ServePhase(s.procs[i], s.n, from, s.ch(from, i)[0]);
    if b == from { ServeKeeps(EdgeOf(s, i, b)); }
  }

  lemma EdgesKept(s: State, step: Step)
    requires Inv(s) && Enabled(s, step)
    ensures EdgesOk(Apply(s, step))
  {
    var s' := Apply(s, step);
    forall a, b | Pair(s.n, a, b)
      ensures EdgeOk(EdgeOf(s', a, b))
    {
      EdgeKept(s, step, a, b);
    }
  }

  lemma EdgeKept(s: State, step: Step, a: int, b: int)
    requires Inv(s) && Enabled(s, step) && Pair(s.n, a, b)
    ensures EdgeOk(EdgeOf(Apply(s, step), a, b))
  {
    if a != step.i && b != step.i {
      OtherEdges(s, step, a, b);
      assert EdgeOk(EdgeOf(s, a, b));
    } else {
      var c := if a == step.i then b else a;
      Uncrashed(s, step);
      EdgeAfterStep(s, step, c);
      StepEdgeOk(s, step, c);
      FlipOk(EdgeOf(Apply(s, step), step.i, c));
      assert EdgeOf(Apply(s, step), c, step.i) == Flip(EdgeOf(Apply(s, step), step.i, c));
    }
  }

  lemma FlipOk(e: Edge)
    ensures EdgeOk(Flip(e)) == EdgeOk(e)
  {
    assert Flip(Flip(e)) == e;
  }

  // ---- the driver's variables ----

  ghost predicate Hears(s: State, step: Step, k: int, j: int)
    requires Wf(s) && Enabled(s, step)
  {
    step == ReceiveStep(k, j) && s.ch(j, k)[0] == Done
  }

  /** DONE is consumed by a receive step only. */
  lemma DoneInTransit(s: State, step: Step, k: int, j: int)
    requires Inv(s) && Enabled(s, step) && Pair(s.n, k, j)
    requires j != step.i
    ensures Done in Apply(s, step).ch(j, k) <==> Done in s.ch(j, k) && !Hears(s, step, k, j)
  {
    assert EdgeOk(EdgeOf(s, j, k));
    if step == ReceiveStep(k, j) {
      var ch := s.ch(j, k);
      ShapeRest(ch);
      assert ch == [ch[0]] + ch[1..];
    }
  }

  ghost predicate Announces(e: Edge) {
    e.a.phase == Serving && Done !in e.ab
  }

  lemma SilentRelease(e: Edge, last: bool)
    requires EdgeOk(e) && e.a.phase == Critical
    ensures !Announces(ReleaseEdge(e, last))
  {
    CriticalQuiet(e);
    if last {
      var ab := ReleaseEdge(e, last).ab;
      assert ab[|ab| - 1] == Done;
    }
  }

  lemma SilentServe(e: Edge)
    requires e.ba != [] && e.a.phase == Serving
    ensures Announces(ServeEdge(e)) == Announces(e)
  {
  }

  lemma ReceivePhase(p: Proc, n: nat, from: int, m: Msg)
    requires WfProc(p, n) && Child(n, from)
    ensures Receive(p, n, from, m).proc.phase in {Calling, Critical, Crashed}
  {
  }

  lemma ServePhase(p: Proc, n: nat, from: int, m: Msg)
    requires WfProc(p, n) && Child(n, from) && p.phase == Serving
    ensures Serve(p, n, from, m).proc.phase in {Serving, Crashed}
  {
  }

  /** A child's own steps never take its DONE out of transit: it appears together
      with the change of phase. */
  lemma OwnAnnouncement(s: State, step: Step, k: int)
    requires Inv(s) && Enabled(s, step) && Pair(s.n, step.i, k)
    ensures Announces(StepEdge(s, step, k)) == Announces(EdgeOf(s, step.i, k))
  {
    var e := EdgeOf(s, step.i, k);
    match step
    case AskStep(i) =>
    case EnterStep(i) =>
    case ReleaseStep(i) =>
      assert EdgeOk(e);
      SilentRelease(e, s.procs[step.i].iter + 1 >= Quota(step.i));
    case ReceiveStep(i, from) =>
      var m := s.ch(from, i)[0];
      if e.a.phase == Polling {
        ReceivePhase(s.procs[i], s.n, from, m);
        assert !Announces(e) && StepEdge(s, step, k).a.phase != Serving;
      } else {
        Uncrashed(s, step);
        ServePhase(s.procs[i], s.n, from, m);
        if from == k { SilentServe(e); }
      }
  }

  lemma AwaitedAfter(s: State, step: Step, k: int, j: int)
    requires Inv(s) && Enabled(s, step) && Pair(s.n, k, j)
    ensures Awaited(Apply(s, step), k, j) <==> Awaited(s, k, j) && !Hears(s, step, k, j)
    ensures Hears(s, step, k, j) ==> Awaited(s, k, j)
  {
    if j == step.i {
      Uncrashed(s, step);
      EdgeAfterStep(s, step, k);
      OwnAnnouncement(s, step, k);
      assert EdgeOf(Apply(s, step), j, k).a.phase == Apply(s, step).procs[j].phase;
    } else {
      DoneInTransit(s, step, k, j);
      assert EdgeOk(EdgeOf(s, j, k));
    }
  }

  lemma AwaitedKept(s: State, step: Step, k: int)
    requires Inv(s) && Enabled(s, step) && Child(s.n, k)
    ensures AwaitedCount(Apply(s, step), k) == AwaitedCount(s, k) -
      Bit(step.i == k && step.ReceiveStep? && s.ch(step.from, k)[0] == Done)
  {
    forall j | Child(s.n, j)
      ensures Bit(Awaited(Apply(s, step), k, j)) == Bit(Awaited(s, k, j)) - Bit(j != k && Hears(s, step, k, j))
    {
      AwaitedBit(s, step, k, j);
    }
    AwaitedSum(s, step, k);
  }

  lemma AwaitedBit(s: State, step: Step, k: int, j: int)
    requires Inv(s) && Enabled(s, step) && Child(s.n, k) && Child(s.n, j)
    ensures Bit(Awaited(Apply(s, step), k, j)) == Bit(Awaited(s, k, j)) - Bit(j != k && Hears(s, step, k, j))
  {
    if j != k { AwaitedAfter(s, step, k, j); }
  }

  lemma AwaitedSum(s: State, step: Step, k: int)
    requires Wf(s) && Enabled(s, step) && Child(s.n, k)
    requires forall j :: Child(s.n, j) ==>
               Bit(Awaited(Apply(s, step), k, j)) == Bit(Awaited(s, k, j)) - Bit(j != k && Hears(s, step, k, j))
    ensures AwaitedCount(Apply(s, step), k) == AwaitedCount(s, k) -
      Bit(step.i == k && step.ReceiveStep? && s.ch(step.from, k)[0] == Done)
  {
    var f := j => Bit(Awaited(s, k, j));
    var g := j => Bit(Awaited(Apply(s, step), k, j));
    if step.i == k && step.ReceiveStep? {
      SumChange(s.n, f, g, step.from);
    } else {
      SumEqual(s.n, f, g);
    }
  }

  lemma NodesKept(s: State, step: Step)
    requires Inv(s) && Enabled(s, step)
    ensures NodesOk(Apply(s, step))
  {
    forall k | Child(s.n, k)
      ensures NodeOk(Apply(s, step), k)
    {
      NodeKept(s, step, k);
    }
  }

  lemma NodeKept(s: State, step: Step, k: int)
    requires Inv(s) && Enabled(s, step) && Child(s.n, k)
    ensures NodeOk(Apply(s, step), k)
  {
    assert NodeOk(s, k);
    AwaitedKept(s, step, k);
    Uncrashed(s, step);
  }

  lemma InitAwaited(n: nat, i: int)
    requires Child(n, i)
    ensures AwaitedCount(Init(n), i) == n - 1
  {
    var f := j => Bit(Awaited(Init(n), i, j));
    SumFull(n, f, i);
  }

  lemma InitOk(n: nat)
    ensures Inv(Init(n))
  {
    var s := Init(n);
    forall a, b | Pair(n, a, b)
      ensures EdgeOk(EdgeOf(s, a, b))
    {
    }
    forall i | Child(n, i)
      ensures NodeOk(s, i)
    {
      InitAwaited(n, i);
    }
  }

  lemma InvKept(s: State, step: Step)
    requires Inv(s) && Enabled(s, step)
    ensures Inv(Apply(s, step))
  {
    EdgesKept(s, step);
    NodesKept(s, step);
  }
}
