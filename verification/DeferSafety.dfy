/** The inductive invariant of the deferred-reply protocol, one edge (pair of children)
    at a time, and its preservation by every step. */
module DeferSafety {
  import opened Sums
  import opened Network
  import opened Stamps

  /** One end of an edge: own is the child's own pending request (0 for none), held is
      the peer's request if this child has deferred it. */
  datatype End = End(id: int, clock: int, own: int, held: int, phase: Phase)

  /** Two children and the two channels between them; ab runs from a to b. */
  datatype Edge = Edge(a: End, b: End, ab: seq<Message>, ba: seq<Message>)

  ghost predicate Busy(p: Phase) {
    p == Calling || p == Polling
  }

  /** Where a's pending request to b stands. */
  datatype Stage = Idle | Sent | Held | Answered | Counted

  ghost function StageOf(e: Edge): Stage {
    if e.a.own == 0 then Idle
    else if Count(e.ab, ARequest) > 0 then Sent
    else if e.b.held != 0 then Held
    else if Count(e.ba, AReply) > 0 then Answered
    else Counted
  }

  /** The variables of one child agree with its control point. */
  ghost predicate EndOk(a: End) {
    && a.phase != Crashed
    && 0 <= a.own <= a.clock && 0 < a.clock
    && (a.phase == Polling || a.phase == Critical ==> a.own != 0)
    && (a.phase == Serving ==> a.own == 0)
  }

  ghost predicate RequestsAre(ch: seq<Message>, t: int) {
    forall m :: m in ch && m.Request? ==> m.time == t
  }

  /** Facts about a's request to b. */
  ghost predicate HalfOk(e: Edge) {
    && EndOk(e.a)
    && Count(e.ab, ARelease) == 0
    && Count(e.ab, ADone) <= Bit(e.a.phase == Serving)
    && Count(e.ab, ARequest) + Bit(e.b.held != 0) + Count(e.ba, AReply) <= Bit(e.a.own != 0 && Busy(e.a.phase))
    && RequestsAre(e.ab, e.a.own)
    && (e.b.held != 0 ==> e.b.held == e.a.own <= e.b.clock && e.b.own != 0 && Less(e.b.own, e.b.id, e.a.own, e.a.id))
    && (StageOf(e) == Answered || StageOf(e) == Counted ==> Granted(e))
  }

  /** b's clock has passed a's request, and b's own request, if any, comes later. */
  ghost predicate Granted(e: Edge) {
    e.a.own <= e.b.clock && (e.b.own != 0 ==> Less(e.a.own, e.a.id, e.b.own, e.b.id))
  }

  function Flip(e: Edge): Edge {
    Edge(e.b, e.a, e.ba, e.ab)
  }

  ghost predicate EdgeOk(e: Edge) {
    HalfOk(e) && HalfOk(Flip(e)) && e.a.id != e.b.id
  }

  lemma FlipOk(e: Edge)
    ensures EdgeOk(Flip(e)) == EdgeOk(e)
  {
    assert Flip(Flip(e)) == e;
  }

  // ---- one edge under the steps of its end a ----

  ghost function CallEdge(e: Edge): Edge {
    if e.a.own != 0 then e.(a := e.a.(phase := Polling))
    else
      var t := e.a.clock + 1;
      e.(a := e.a.(clock := t, own := t, phase := Polling), ab := e.ab + [Request(t)])
  }

  lemma CallKeeps(e: Edge)
    requires EdgeOk(e) && e.a.phase == Calling
    ensures EdgeOk(CallEdge(e))
    ensures e.a.own == 0 ==> StageOf(CallEdge(e)) == Sent
    ensures e.a.own != 0 ==> StageOf(CallEdge(e)) == StageOf(e)
    ensures StageOf(Flip(CallEdge(e))) == StageOf(Flip(e))
  {
    if e.a.own == 0 {
      var more := [Request(e.a.clock + 1)];
      Concat(e.ab, more);
      NoRequests(e.ab);
    }
  }

  lemma Concat(ch: seq<Message>, more: seq<Message>)
    requires |more| == 1
    ensures Count(ch + more, ARequest) == Count(ch, ARequest) + Bit(more[0].Request?)
    ensures Count(ch + more, AReply) == Count(ch, AReply) + Bit(more[0].Reply?)
    ensures Count(ch + more, ARelease) == Count(ch, ARelease) + Bit(more[0].Release?)
    ensures Count(ch + more, ADone) == Count(ch, ADone) + Bit(more[0].Done?)
  {
    CountConcat(ch, more, ARequest);
    CountConcat(ch, more, AReply);
    CountConcat(ch, more, ARelease);
    CountConcat(ch, more, ADone);
    assert more == [more[0]];
  }

  lemma NoRequests(ch: seq<Message>)
    requires Count(ch, ARequest) == 0
    ensures forall m :: m in ch ==> !m.Request?
  {
    forall m | m in ch
      ensures !m.Request?
    {
      CountPresent(ch, m);
    }
  }

  /** A step of a that concerns another peer: its clock moves on, and it may enter. */
  ghost function ElsewhereEdge(e: Edge, clock: int, ph: Phase): Edge {
    e.(a := e.a.(clock := clock, phase := ph))
  }

  lemma ElsewhereKeeps(e: Edge, clock: int, ph: Phase)
    requires EdgeOk(e) && clock >= e.a.clock
    requires ph == e.a.phase || (e.a.phase == Polling && (ph == Calling || (ph == Critical && StageOf(e) == Counted)))
    ensures EdgeOk(ElsewhereEdge(e, clock, ph))
    ensures StageOf(ElsewhereEdge(e, clock, ph)) == StageOf(e)
    ensures StageOf(Flip(ElsewhereEdge(e, clock, ph))) == StageOf(Flip(e))
  {
  }

  /** Receiving the oldest message of ba inside `request_cs`, with the entry test
      resulting in phase ph. */
  ghost function ReceiveEdge(e: Edge, ph: Phase): Edge
    requires e.ba != []
  {
    var m := e.ba[0];
    var c := Sync(e.a.clock, m.time);
    var f := e.(ba := e.ba[1..]);
    if !m.Request? then f.(a := e.a.(clock := c, phase := ph))
    else if Less(e.a.own, e.a.id, m.time, e.b.id) then f.(a := e.a.(clock := c, held := m.time, phase := ph))
    else f.(a := e.a.(clock := c + 1, phase := ph), ab := e.ab + [Reply(c + 1)])
  }

  lemma HeadFacts(e: Edge)
    requires EdgeOk(e) && e.ba != []
    ensures !e.ba[0].Release?
    ensures e.ba[0].Request? ==>
              StageOf(Flip(e)) == Sent && e.ba[0].time == e.b.own && Count(e.ab, AReply) == 0 && e.a.held == 0
    ensures e.ba[0].Reply? ==> StageOf(e) == Answered
    ensures RequestsAre(e.ba[1..], e.b.own)
  {
    assert e.ba[0] in e.ba;
    assert forall m :: m in e.ba[1..] ==> m in e.ba;
  }

  lemma ReceiveReply(e: Edge)
    requires EdgeOk(e) && e.a.phase == Polling && e.ba != [] && e.ba[0].Reply?
    ensures EdgeOk(ReceiveEdge(e, Polling))
    ensures StageOf(ReceiveEdge(e, Polling)) == Counted
    ensures StageOf(Flip(ReceiveEdge(e, Polling))) == StageOf(Flip(e))
  {
    HeadFacts(e);
  }

  lemma DeferRequest(e: Edge)
    requires EdgeOk(e) && e.a.phase == Polling && e.ba != [] && e.ba[0].Request?
    requires Less(e.a.own, e.a.id, e.ba[0].time, e.b.id)
    ensures EdgeOk(ReceiveEdge(e, Polling))
    ensures StageOf(ReceiveEdge(e, Polling)) == StageOf(e)
    ensures StageOf(Flip(ReceiveEdge(e, Polling))) == Held
  {
    HeadFacts(e);
  }

  lemma AnswerRequest(e: Edge)
    requires EdgeOk(e) && e.a.phase == Polling && e.ba != [] && e.ba[0].Request?
    requires !Less(e.a.own, e.a.id, e.ba[0].time, e.b.id)
    ensures EdgeOk(ReceiveEdge(e, Polling))
    ensures StageOf(ReceiveEdge(e, Polling)) == StageOf(e)
    ensures StageOf(Flip(ReceiveEdge(e, Polling))) == Answered
  {
    HeadFacts(e);
    Concat(e.ab, [Reply(Sync(e.a.clock, e.ba[0].time) + 1)]);
  }

  lemma ReceiveStaysPolling(e: Edge)
    requires EdgeOk(e) && e.a.phase == Polling && e.ba != [] && !e.ba[0].Done?
    ensures EdgeOk(ReceiveEdge(e, Polling))
    ensures StageOf(ReceiveEdge(e, Polling)) == if e.ba[0].Reply? then Counted else StageOf(e)
    ensures StageOf(Flip(ReceiveEdge(e, Polling))) ==
            if !e.ba[0].Request? then StageOf(Flip(e))
            else if Less(e.a.own, e.a.id, e.ba[0].time, e.b.id) then Held else Answered
  {
    HeadFacts(e);
    if e.ba[0].Reply? {
      ReceiveReply(e);
    } else if Less(e.a.own, e.a.id, e.ba[0].time, e.b.id) {
      DeferRequest(e);
    } else {
      AnswerRequest(e);
    }
  }

  lemma ReceiveDone(e: Edge)
    requires EdgeOk(e) && e.ba != [] && e.ba[0].Done?
    ensures EdgeOk(e.(ba := e.ba[1..]))
    ensures StageOf(e.(ba := e.ba[1..])) == StageOf(e)
    ensures StageOf(Flip(e.(ba := e.ba[1..]))) == StageOf(Flip(e))
  {
    HeadFacts(e);
  }

  ghost function ReleaseEdge(e: Edge, clock: int, more: seq<Message>, last: bool): Edge {
    e.(a := End(e.a.id, clock, 0, 0, if last then Serving else Calling), ab := e.ab + more)
  }

  /** What a release sends on one edge: a reply to a deferred request, then possibly DONE. */
  ghost predicate ReleaseMessages(e: Edge, more: seq<Message>, last: bool) {
    && Count(more, ARequest) == 0 && Count(more, ARelease) == 0
    && Count(more, AReply) == Bit(e.a.held != 0)
    && Count(more, ADone) == Bit(last)
  }

  lemma ReleaseKeeps(e: Edge, clock: int, more: seq<Message>, last: bool)
    requires EdgeOk(e) && e.a.phase == Critical && clock >= e.a.clock
    requires ReleaseMessages(e, more, last)
    ensures StageOf(e) == Counted
    ensures EdgeOk(ReleaseEdge(e, clock, more, last))
    ensures StageOf(ReleaseEdge(e, clock, more, last)) == Idle
    ensures StageOf(Flip(ReleaseEdge(e, clock, more, last))) ==
            if e.a.held != 0 then Answered else StageOf(Flip(e))
  {
    CountConcat(e.ab, more, ARequest);
    CountConcat(e.ab, more, AReply);
    CountConcat(e.ab, more, ARelease);
    CountConcat(e.ab, more, ADone);
    NoRequests(e.ab);
    NoRequests(more);
  }

  ghost function ServeEdge(e: Edge): Edge
    requires e.ba != []
  {
    var m := e.ba[0];
    var c := Sync(e.a.clock, m.time);
    var f := e.(ba := e.ba[1..]);
    if m.Request? then f.(a := e.a.(clock := c + 1), ab := e.ab + [Reply(c + 1)])
    else f.(a := e.a.(clock := c))
  }

  lemma ServeKeeps(e: Edge)
    requires EdgeOk(e) && e.a.phase == Serving && e.ba != []
    ensures e.ba[0].Request? || e.ba[0].Done?
    ensures EdgeOk(ServeEdge(e))
    ensures StageOf(ServeEdge(e)) == StageOf(e) == Idle
    ensures StageOf(Flip(ServeEdge(e))) == if e.ba[0].Request? then Answered else StageOf(Flip(e))
  {
    HeadFacts(e);
    var c := Sync(e.a.clock, e.ba[0].time);
    Concat(e.ab, [Reply(c + 1)]);
  }
}
