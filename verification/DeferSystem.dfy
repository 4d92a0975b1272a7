/** The deferred-reply protocol as a whole: every step keeps the invariant. */
module DeferSystem {
  import opened Sums
  import opened Network
  import opened Stamps
  import opened DeferProtocol
  import opened DeferSafety

  ghost function EndOf(s: State, a: int, b: int): End
    requires Wf(s) && Pair(s.n, a, b)
  {
    var p := s.procs[a];
    End(a, p.clock, p.queue[a], p.queue[b], p.phase)
  }

  ghost function EdgeOf(s: State, a: int, b: int): Edge
    requires Wf(s) && Pair(s.n, a, b)
  {
    Edge(EndOf(s, a, b), EndOf(s, b, a), s.ch(a, b), s.ch(b, a))
  }

  ghost predicate EdgesOk(s: State)
    requires Wf(s)
  {
    forall a, b :: Pair(s.n, a, b) ==> EdgeOk(EdgeOf(s, a, b))
  }

  /** Has child j answered the pending request of i, and has i counted the answer? */
  ghost predicate Replied(s: State, i: int, j: int)
    requires Wf(s)
  {
    Pair(s.n, i, j) && StageOf(EdgeOf(s, i, j)) == Counted
  }

  ghost function RepliedCount(s: State, i: int): int
    requires Wf(s)
  {
    Sum(s.n, j => Bit(Replied(s, i, j)))
  }

  /** Does child i still have to receive the DONE of child j? */
  ghost predicate Awaited(s: State, i: int, j: int)
    requires Wf(s)
  {
    Pair(s.n, i, j) && (s.procs[j].phase != Serving || Count(s.ch(j, i), ADone) > 0)
  }

  ghost function AwaitedCount(s: State, i: int): int
    requires Wf(s)
  {
    Sum(s.n, j => Bit(Awaited(s, i, j)))
  }

  /** The counters of child i. */
  ghost predicate NodeOk(s: State, i: int)
    requires Wf(s) && Child(s.n, i)
  {
    var p := s.procs[i];
    && EndOk(End(i, p.clock, p.queue[i], 0, p.phase))
    && p.iter <= Quota(i)
    && (p.phase == Serving <==> p.iter == Quota(i))
    && p.awaiting == AwaitedCount(s, i)
    && p.replies == (if p.phase == Critical then 0 else RepliedCount(s, i))
    && (Busy(p.phase) && s.n > 1 ==> p.replies != s.n - 1)
  }

  ghost predicate NodesOk(s: State)
    requires Wf(s)
  {
    forall i :: Child(s.n, i) ==> NodeOk(s, i)
  }

  /** No pending or future request can precede the last one granted. */
  ghost predicate LogOk(s: State)
    requires Wf(s)
  {
    && Increasing(s.log)
    && (forall i :: Child(s.n, i) ==> BehindLog(s, i))
  }

  ghost predicate BehindLog(s: State, i: int)
    requires Wf(s) && Child(s.n, i)
  {
    var p := s.procs[i];
    var own := p.queue[i];
    if s.log == [] then p.phase != Critical
    else
      var (t, k) := s.log[|s.log| - 1];
      p.clock >= t && (own != 0 ==> if p.phase == Critical then (own, i) == (t, k) else Less(t, k, own, i))
  }

  ghost predicate Inv(s: State) {
    Wf(s) && EdgesOk(s) && NodesOk(s) && LogOk(s)
  }

  lemma EdgeFact(s: State, a: int, b: int)
    requires Wf(s) && EdgesOk(s) && Pair(s.n, a, b)
    ensures EdgeOk(EdgeOf(s, a, b))
  {
  }

  // ---- how a step changes one edge ----

  ghost function StepEdge(s: State, step: Step, b: int): Edge
    requires Wf(s) && Enabled(s, step) && Pair(s.n, step.i, b)
    requires |Local(s, step).out| == s.n + 1
  {
    var e := EdgeOf(s, step.i, b);
    var r := Local(s, step);
    match step
    case CallStep(i) => CallEdge(e)
    case ReleaseStep(i) => ReleaseEdge(e, r.proc.clock, r.out[b], s.procs[i].iter + 1 >= Quota(i))
    case ReceiveStep(i, from) =>
      if b != from then ElsewhereEdge(e, r.proc.clock, r.proc.phase)
      else if e.a.phase == Polling then ReceiveEdge(e, r.proc.phase)
      else ServeEdge(e)
  }

  lemma OutLength(s: State, step: Step)
    requires Wf(s) && Enabled(s, step)
    ensures |Local(s, step).out| == s.n + 1
    ensures Local(s, step).out[step.i] == []
  {
  }

  lemma EdgeAfterStep(s: State, step: Step, b: int)
    requires Wf(s) && Enabled(s, step) && Pair(s.n, step.i, b)
    requires Local(s, step).proc.phase != Crashed
    ensures |Local(s, step).out| == s.n + 1
    ensures EdgeOf(Apply(s, step), step.i, b) == StepEdge(s, step, b)
  {
    OutLength(s, step);
    AppliedEdge(s, step, b);
    if step.ReceiveStep? {
      LocalReceive(s, step.i, step.from, b);
    }
  }

  /** What a step does to one edge, in terms of what its child computes. */
  lemma AppliedEdge(s: State, step: Step, b: int)
    requires Wf(s) && Enabled(s, step) && Pair(s.n, step.i, b) && |Local(s, step).out| == s.n + 1
    ensures var e, f, r := EdgeOf(s, step.i, b), EdgeOf(Apply(s, step), step.i, b), Local(s, step);
            && |r.proc.queue| == s.n + 1 && r.proc.id == step.i && f.b == e.b
            && f.a == End(step.i, r.proc.clock, r.proc.queue[step.i], r.proc.queue[b], r.proc.phase)
            && f.ab == e.ab + r.out[b]
            && f.ba == if Receives(step, b) then e.ba[1..] else e.ba
  {
  }

  lemma LocalReceive(s: State, i: int, from: int, b: int)
    requires Wf(s) && Enabled(s, ReceiveStep(i, from)) && Pair(s.n, i, b)
    requires Local(s, ReceiveStep(i, from)).proc.phase != Crashed
    ensures var r := Local(s, ReceiveStep(i, from));
            var p := s.procs[i];
            var m := s.ch(from, i)[0];
            var deferred := p.phase == Polling && m.Request? && Less(p.queue[i], i, m.time, from);
            var c := Sync(p.clock, m.time);
            var answered := m.Request? && !deferred;
            && r.proc.queue == (if deferred then p.queue[from := m.time] else p.queue)
            && r.proc.clock == (if answered then c + 1 else c)
            && r.proc.iter == p.iter && r.proc.id == i
            && r.out == if answered then Single(s.n, from, Reply(c + 1)) else Nothing(s.n)
  {
  }

  lemma OtherEdges(s: State, step: Step, a: int, b: int)
    requires Wf(s) && Enabled(s, step) && Pair(s.n, a, b) && a != step.i && b != step.i
    ensures EdgeOf(Apply(s, step), a, b) == EdgeOf(s, a, b)
  {
  }

  /** No assertion of the source and no message type check fails. */
  lemma Uncrashed(s: State, step: Step)
    requires Inv(s) && Enabled(s, step)
    ensures Local(s, step).proc.phase != Crashed
  {
    var i := step.i;
    if step.ReceiveStep? {
      EdgeFact(s, i, step.from);
      HeadFacts(EdgeOf(s, i, step.from));
      if s.procs[i].phase == Serving {
        ServeKeeps(EdgeOf(s, i, step.from));
      }
    } else {
      assert NodeOk(s, i);
    }
  }

  // ---- the stages of requests under a step ----

  ghost predicate Receives(step: Step, b: int) {
    step.ReceiveStep? && step.from == b
  }

  /** Where i's own request to b stands after a step of i. */
  ghost function NextOwn(s: State, step: Step, b: int): Stage
    requires Wf(s) && Enabled(s, step) && Pair(s.n, step.i, b)
  {
    var e := EdgeOf(s, step.i, b);
    if step.CallStep? && e.a.own == 0 then Sent
    else if step.ReleaseStep? then Idle
    else if Receives(step, b) && e.ba[0].Reply? then Counted
    else StageOf(e)
  }

  /** Where b's request to i stands after a step of i. */
  ghost function NextPeer(s: State, step: Step, b: int): Stage
    requires Wf(s) && Enabled(s, step) && Pair(s.n, step.i, b)
  {
    var e := EdgeOf(s, step.i, b);
    if step.ReleaseStep? && e.a.held != 0 then Answered
    else if Receives(step, b) && e.ba[0].Request? then
      if e.a.phase == Polling && Less(e.a.own, e.a.id, e.ba[0].time, e.b.id) then Held else Answered
    else StageOf(Flip(e))
  }

  lemma ReceivePhase(s: State, i: int, from: int)
    requires Wf(s) && Enabled(s, ReceiveStep(i, from))
    requires Local(s, ReceiveStep(i, from)).proc.phase != Crashed
    ensures var ph := Local(s, ReceiveStep(i, from)).proc.phase;
            var m := s.ch(from, i)[0];
            if s.procs[i].phase == Serving then ph == Serving
            else if m.Request? || m.Reply? then
              ph == (if s.procs[i].replies + Bit(m.Reply?) == s.n - 1 then Critical else Polling)
            else m.Done? && ph == Calling
  {
  }

  /** The number of answers counted after a received message. */
  lemma RepliesAfterReceive(s: State, i: int, from: int)
    requires Inv(s) && Enabled(s, ReceiveStep(i, from)) && s.procs[i].phase == Polling
    ensures Sum(s.n, j => Bit(Pair(s.n, i, j) && NextOwn(s, ReceiveStep(i, from), j) == Counted)) ==
            s.procs[i].replies + Bit(s.ch(from, i)[0].Reply?)
  {
    var f := j => Bit(Replied(s, i, j));
    var g := j => Bit(Pair(s.n, i, j) && NextOwn(s, ReceiveStep(i, from), j) == Counted);
    assert NodeOk(s, i);
    EdgeFact(s, i, from);
    HeadFacts(EdgeOf(s, i, from));
    SumChange(s.n, f, g, from);
  }

  /** A child enters only when every peer's answer has been counted. */
  lemma EntryNeedsAll(s: State, i: int, from: int, b: int)
    requires Inv(s) && Enabled(s, ReceiveStep(i, from)) && Pair(s.n, i, b)
    requires Local(s, ReceiveStep(i, from)).proc.phase == Critical
    ensures NextOwn(s, ReceiveStep(i, from), b) == Counted
    ensures s.procs[i].phase == Polling && !s.ch(from, i)[0].Done?
  {
    ReceivePhase(s, i, from);
    RepliesAfterReceive(s, i, from);
    var g := j => Bit(Pair(s.n, i, j) && NextOwn(s, ReceiveStep(i, from), j) == Counted);
    SumFull(s.n, g, i);
    assert g(b) == 1;
  }

  /** The edge before a possible entry: the message is processed, the phase is not yet
      changed. */
  ghost function MidEdge(s: State, i: int, from: int, b: int): Edge
    requires Wf(s) && Enabled(s, ReceiveStep(i, from)) && Pair(s.n, i, b)
  {
    var e := EdgeOf(s, i, b);
    var c := Local(s, ReceiveStep(i, from)).proc.clock;
    if b != from then ElsewhereEdge(e, c, e.a.phase)
    else if e.a.phase != Polling then ServeEdge(e)
    else ReceiveEdge(e, Polling)
  }

  lemma ServedEdgeOk(s: State, i: int, b: int)
    requires Inv(s) && Enabled(s, ReceiveStep(i, b)) && s.procs[i].phase == Serving
    ensures var e := ServeEdge(EdgeOf(s, i, b));
            EdgeOk(e) && StageOf(e) == NextOwn(s, ReceiveStep(i, b), b)
                      && StageOf(Flip(e)) == NextPeer(s, ReceiveStep(i, b), b)
  {
    EdgeFact(s, i, b);
    HeadFacts(EdgeOf(s, i, b));
    ServeKeeps(EdgeOf(s, i, b));
  }

  lemma MidEdgeOk(s: State, i: int, from: int, b: int)
    requires Inv(s) && Enabled(s, ReceiveStep(i, from)) && Pair(s.n, i, b)
    requires Local(s, ReceiveStep(i, from)).proc.phase != Crashed
    ensures var e := MidEdge(s, i, from, b);
            EdgeOk(e) && StageOf(e) == NextOwn(s, ReceiveStep(i, from), b)
                      && StageOf(Flip(e)) == NextPeer(s, ReceiveStep(i, from), b)
  {
    if b != from {
      MidElsewhere(s, i, from, b);
    } else if s.procs[i].phase != Polling {
      ServedEdgeOk(s, i, b);
    } else {
      MidHead(s, i, b);
    }
  }

  lemma MidElsewhere(s: State, i: int, from: int, b: int)
    requires Inv(s) && Enabled(s, ReceiveStep(i, from)) && Pair(s.n, i, b) && b != from
    requires Local(s, ReceiveStep(i, from)).proc.phase != Crashed
    ensures var e := MidEdge(s, i, from, b);
            EdgeOk(e) && StageOf(e) == NextOwn(s, ReceiveStep(i, from), b)
                      && StageOf(Flip(e)) == NextPeer(s, ReceiveStep(i, from), b)
  {
    EdgeFact(s, i, b);
    ReceiveForward(s, i, from, b);
    ElsewhereKeeps(EdgeOf(s, i, b), Local(s, ReceiveStep(i, from)).proc.clock, s.procs[i].phase);
  }

  lemma ReceiveForward(s: State, i: int, from: int, b: int)
    requires Wf(s) && Enabled(s, ReceiveStep(i, from)) && Pair(s.n, i, b) && b != from
    requires Local(s, ReceiveStep(i, from)).proc.phase != Crashed
    ensures Local(s, ReceiveStep(i, from)).proc.clock >= s.procs[i].clock
    ensures NextOwn(s, ReceiveStep(i, from), b) == StageOf(EdgeOf(s, i, b))
    ensures NextPeer(s, ReceiveStep(i, from), b) == StageOf(Flip(EdgeOf(s, i, b)))
  {
    LocalReceive(s, i, from, b);
  }

  lemma MidHead(s: State, i: int, b: int)
    requires Inv(s) && Enabled(s, ReceiveStep(i, b)) && s.procs[i].phase == Polling
    ensures var e := ReceiveEdge(EdgeOf(s, i, b), Polling);
            EdgeOk(e) && StageOf(e) == NextOwn(s, ReceiveStep(i, b), b)
                      && StageOf(Flip(e)) == NextPeer(s, ReceiveStep(i, b), b)
  {
    EdgeFact(s, i, b);
    HeadKept(EdgeOf(s, i, b));
  }

  lemma HeadKept(e: Edge)
    requires EdgeOk(e) && e.a.phase == Polling && e.ba != []
    ensures var f := ReceiveEdge(e, Polling);
            && EdgeOk(f)
            && StageOf(f) == (if e.ba[0].Reply? then Counted else StageOf(e))
            && StageOf(Flip(f)) ==
               if !e.ba[0].Request? then StageOf(Flip(e))
               else if Less(e.a.own, e.a.id, e.ba[0].time, e.b.id) then Held else Answered
  {
    if e.ba[0].Done? {
      ReceiveDone(e);
      ElsewhereKeeps(e.(ba := e.ba[1..]), ReceiveEdge(e, Polling).a.clock, Polling);
    } else {
      HeadFacts(e);
      ReceiveStaysPolling(e);
    }
  }

  lemma ReceiveEdgeOk(s: State, i: int, from: int, b: int)
    requires Inv(s) && Enabled(s, ReceiveStep(i, from)) && Pair(s.n, i, b)
    requires Local(s, ReceiveStep(i, from)).proc.phase != Crashed
    ensures |Local(s, ReceiveStep(i, from)).out| == s.n + 1
    ensures var e := StepEdge(s, ReceiveStep(i, from), b);
            EdgeOk(e) && StageOf(e) == NextOwn(s, ReceiveStep(i, from), b)
                      && StageOf(Flip(e)) == NextPeer(s, ReceiveStep(i, from), b)
  {
    var step := ReceiveStep(i, from);
    OutLength(s, step);
    MidEdgeOk(s, i, from, b);
    ReceivePhase(s, i, from);
    LocalReceive(s, i, from, b);
    var ph := Local(s, step).proc.phase;
    if ph == Critical {
      EntryNeedsAll(s, i, from, b);
    }
    var mid := MidEdge(s, i, from, b);
    ElsewhereKeeps(mid, mid.a.clock, ph);
    assert StepEdge(s, step, b) == ElsewhereEdge(mid, mid.a.clock, ph);
  }

  lemma ReleaseOut(s: State, i: int, b: int)
    requires Wf(s) && Enabled(s, ReleaseStep(i)) && Pair(s.n, i, b) && s.procs[i].queue[i] != 0
    ensures |Local(s, ReleaseStep(i)).out| == s.n + 1
    ensures ReleaseMessages(EdgeOf(s, i, b), Local(s, ReleaseStep(i)).out[b], s.procs[i].iter + 1 >= Quota(i))
    ensures Local(s, ReleaseStep(i)).proc.clock >= s.procs[i].clock
  {
    var p := s.procs[i];
    var last := p.iter + 1 >= Quota(i);
    var reply := if p.queue[b] != 0 then [Message.Reply(p.clock + Deferred(p.queue, i, b))] else [];
    var done := if last then [Done(p.clock + Deferred(p.queue, i, s.n) + 1)] else [];
    assert Local(s, ReleaseStep(i)).out[b] == reply + done;
    CountConcat(reply, done, ARequest);
    CountConcat(reply, done, AReply);
    CountConcat(reply, done, ARelease);
    CountConcat(reply, done, ADone);
  }

  lemma StepEdgeOk(s: State, step: Step, b: int)
    requires Inv(s) && Enabled(s, step) && Pair(s.n, step.i, b)
    ensures |Local(s, step).out| == s.n + 1
    ensures var e := StepEdge(s, step, b);
            EdgeOk(e) && StageOf(e) == NextOwn(s, step, b) && StageOf(Flip(e)) == NextPeer(s, step, b)
  {
    var e := EdgeOf(s, step.i, b);
    Uncrashed(s, step);
    OutLength(s, step);
    EdgeFact(s, step.i, b);
    match step
    case CallStep(i) => CallKeeps(e);
    case ReceiveStep(i, from) => ReceiveEdgeOk(s, i, from, b);
    case ReleaseStep(i) =>
      ReleaseOut(s, i, b);
      ReleaseKeeps(e, Local(s, step).proc.clock, Local(s, step).out[b], s.procs[i].iter + 1 >= Quota(i));
  }

  lemma EdgeKept(s: State, step: Step, a: int, b: int)
    requires Inv(s) && Enabled(s, step) && Pair(s.n, a, b)
    ensures EdgeOk(EdgeOf(Apply(s, step), a, b))
  {
    if a != step.i && b != step.i {
      OtherEdges(s, step, a, b);
      EdgeFact(s, a, b);
    } else {
      var c := if a == step.i then b else a;
      Uncrashed(s, step);
      EdgeAfterStep(s, step, c);
      StepEdgeOk(s, step, c);
      FlipOk(EdgeOf(Apply(s, step), step.i, c));
      assert EdgeOf(Apply(s, step), c, step.i) == Flip(EdgeOf(Apply(s, step), step.i, c));
    }
  }
}
