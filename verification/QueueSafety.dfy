/** The inductive invariant of the replicated queue protocol, one edge (pair of
    children) at a time, and its preservation by every step. */
module QueueSafety {
  import opened Sums
  import opened Network
  import opened Stamps

  /** One end of an edge: own is the child's own pending request, view is its entry for
      the peer; 0 stands for no request. */
  datatype End = End(id: int, clock: int, own: int, view: int, phase: Phase)

  /** Two children and the two channels between them; ab runs from a to b. */
  datatype Edge = Edge(a: End, b: End, ab: seq<Message>, ba: seq<Message>)

  ghost predicate Busy(p: Phase) {
    p == Calling || p == Polling
  }

  /** Where a's pending request to b stands. */
  datatype Stage = Idle | Sent | Answered | Counted

  ghost function StageOf(e: Edge): Stage {
    if e.a.own == 0 then Idle
    else if Count(e.ab, ARequest) > 0 then Sent
    else if Count(e.ba, AReply) > 0 then Answered
    else Counted
  }

  /** The variables of one child agree with its control point. */
  ghost predicate EndOk(a: End) {
    && a.phase != Crashed
    && 0 <= a.own <= a.clock && 0 < a.clock
    && (a.phase == Polling || a.phase == Critical ==> a.own != 0)
    && (a.phase == Serving ==> a.own == 0)
  }

  // ---- replicas ----

  /** Applying the requests and releases in transit, in order, takes an entry from v to
      w, and finds it empty before each request and full before each release. */
  predicate Agree(v: int, ch: seq<Message>, w: int)
    decreases |ch|
  {
    if ch == [] then v == w
    else match ch[0]
      case Request(t) => v == 0 && t != 0 && Agree(t, ch[1..], w)
      case Release(_) => v != 0 && Agree(0, ch[1..], w)
      case _ => Agree(v, ch[1..], w)
  }

  lemma {:induction false} AgreeConcat(v: int, ch: seq<Message>, w: int, more: seq<Message>, x: int)
    requires Agree(v, ch, w) && Agree(w, more, x)
    ensures Agree(v, ch + more, x)
    decreases |ch|
  {
    if ch == [] {
      assert ch + more == more;
    } else {
      assert (ch + more)[1..] == ch[1..] + more;
      var v' := match ch[0] case Request(t) => t case Release(_) => 0 case _ => v;
      AgreeConcat(v', ch[1..], w, more, x);
    }
  }

  /** A pending request is known already, or still in transit. */
  lemma {:induction false} KnownOrInTransit(v: int, ch: seq<Message>, w: int)
    requires Agree(v, ch, w) && w != 0
    ensures v == w || Request(w) in ch
    decreases |ch|
  {
    if ch != [] {
      var v' := match ch[0] case Request(t) => t case Release(_) => 0 case _ => v;
      KnownOrInTransit(v', ch[1..], w);
    }
  }

  // ---- timestamps in a channel ----

  ghost predicate Ordered(ch: seq<Message>) {
    forall k, l :: 0 <= k < l < |ch| ==> ch[k].time < ch[l].time
  }

  ghost predicate AllAfter(ch: seq<Message>, t: int) {
    forall m :: m in ch ==> t < m.time
  }

  ghost predicate AllUpTo(ch: seq<Message>, t: int) {
    forall m :: m in ch ==> m.time <= t
  }

  ghost predicate RequestsAre(ch: seq<Message>, t: int) {
    forall m :: m in ch && m.Request? ==> m.time == t
  }

  ghost predicate RepliesAfter(ch: seq<Message>, t: int) {
    forall m :: m in ch && m.Reply? ==> t < m.time
  }

  /** DONE follows every request and release of its sender. */
  ghost predicate DoneLast(ch: seq<Message>) {
    forall d, m :: d in ch && d.Done? && m in ch && (m.Request? || m.Release?) ==> m.time < d.time
  }

  /** b's clock has passed a's request, and b's own request, if any, comes later. */
  ghost predicate Granted(e: Edge) {
    e.a.own <= e.b.clock && (e.b.own != 0 ==> Less(e.a.own, e.a.id, e.b.own, e.b.id))
  }

  ghost predicate StreamOk(ch: seq<Message>, clock: int) {
    Ordered(ch) && AllUpTo(ch, clock) && DoneLast(ch)
  }

  /** Facts about a channel whose sender shows the given clock, pending request and
      phase, and whose receiver's entry for the sender is view. */
  ghost predicate OutOk(ch: seq<Message>, clock: int, own: int, phase: Phase, view: int) {
    && StreamOk(ch, clock)
    && Agree(view, ch, own)
    && Count(ch, ADone) <= Bit(phase == Serving)
    && (phase == Serving && Count(ch, ADone) == 0 ==> Count(ch, ARequest) + Count(ch, ARelease) == 0)
  }

  /** Facts about a's request to b. */
  ghost predicate RequestOk(e: Edge) {
    && EndOk(e.a)
    && Count(e.ab, ARequest) + Count(e.ba, AReply) <= Bit(e.a.own != 0 && Busy(e.a.phase))
    && RequestsAre(e.ab, e.a.own)
    && RepliesAfter(e.ba, e.a.own)
    && (StageOf(e) == Answered || StageOf(e) == Counted ==> e.a.own <= e.b.clock)
    && (StageOf(e) == Counted ==> AllAfter(e.ba, e.a.own))
    && (e.a.phase == Critical ==> Granted(e))
  }

  ghost predicate HalfOk(e: Edge) {
    OutOk(e.ab, e.a.clock, e.a.own, e.a.phase, e.b.view) && RequestOk(e)
  }

  function Flip(e: Edge): Edge {
    Edge(e.b, e.a, e.ba, e.ab)
  }

  ghost predicate EdgeOk(e: Edge) {
    HalfOk(e) && HalfOk(Flip(e)) && e.a.id != e.b.id
  }

  lemma FlipOk(e: Edge)
    ensures EdgeOk(Flip(e)) == EdgeOk(e)
  {
    assert Flip(Flip(e)) == e;
  }

  // ---- lists of messages ----

  lemma CountSnoc(ch: seq<Message>, m: Message)
    ensures forall k :: Count(ch + [m], k) == Count(ch, k) + Bit(KindOf(m) == k)
  {
    forall k
      ensures Count(ch + [m], k) == Count(ch, k) + Bit(KindOf(m) == k)
    {
      CountConcat(ch, [m], k);
      assert [m][1..] == [];
    }
  }

  lemma Absent(ch: seq<Message>, k: Kind)
    requires Count(ch, k) == 0
    ensures forall m :: m in ch ==> KindOf(m) != k
  {
    forall m | m in ch
      ensures KindOf(m) != k
    {
      CountPresent(ch, m);
    }
  }

  /** Fresh messages go to the end of the channel. */
  lemma StreamAppend(ch: seq<Message>, clock: int, m: Message)
    requires StreamOk(ch, clock) && m.time > clock
    requires m.Reply? || Count(ch, ADone) == 0
    ensures StreamOk(ch + [m], m.time)
  {
    var more := ch + [m];
    forall k, l | 0 <= k < l < |more|
      ensures more[k].time < more[l].time
    {
      if l == |ch| { assert more[k] in ch; }
    }
    if !m.Reply? { Absent(ch, ADone); }
  }

  /** The rest of a channel once its oldest message is consumed. */
  lemma StreamRest(ch: seq<Message>, clock: int)
    requires StreamOk(ch, clock) && ch != []
    ensures StreamOk(ch[1..], clock)
    ensures AllAfter(ch[1..], ch[0].time)
    ensures ch[0].Done? ==> forall m :: m in ch[1..] ==> !m.Request? && !m.Release?
    ensures ch[0] in ch && forall m :: m in ch[1..] ==> m in ch
  {
    var rest := ch[1..];
    assert forall k :: 0 <= k < |rest| ==> rest[k] == ch[k + 1];
    forall m | m in rest
      ensures ch[0].time < m.time && m in ch
    {
      var k :| 0 <= k < |rest| && rest[k] == m;
      assert ch[k + 1] == m;
    }
  }

  // ---- one edge under the steps of its end a ----

  ghost function CallEdge(e: Edge): Edge {
    var t := e.a.clock + 1;
    if e.a.own != 0 then e.(a := e.a.(clock := t, phase := Polling))
    else e.(a := e.a.(clock := t, own := t, phase := Polling), ab := e.ab + [Request(t)])
  }

  lemma CallKeeps(e: Edge)
    requires EdgeOk(e) && e.a.phase == Calling
    ensures EdgeOk(CallEdge(e))
    ensures StageOf(CallEdge(e)) == if e.a.own == 0 then Sent else StageOf(e)
    ensures StageOf(Flip(CallEdge(e))) == StageOf(Flip(e))
  {
    if e.a.own == 0 {
      IssueKeeps(e);
    }
  }

  lemma IssueOut(ch: seq<Message>, clock: int, view: int)
    requires OutOk(ch, clock, 0, Calling, view) && clock >= 0
    ensures OutOk(ch + [Request(clock + 1)], clock + 1, clock + 1, Polling, view)
  {
    var m := Request(clock + 1);
    CountSnoc(ch, m);
    StreamAppend(ch, clock, m);
    AgreeConcat(view, ch, 0, [m], m.time);
  }

  lemma IssueRequest(e: Edge)
    requires EdgeOk(e) && e.a.phase == Calling && e.a.own == 0
    ensures RequestOk(CallEdge(e))
    ensures StageOf(CallEdge(e)) == Sent
  {
    CountSnoc(e.ab, Request(e.a.clock + 1));
    Absent(e.ab, ARequest);
    Absent(e.ba, AReply);
  }

  lemma IssuePeer(e: Edge)
    requires EdgeOk(e) && e.a.phase == Calling && e.a.own == 0
    ensures RequestOk(Flip(CallEdge(e)))
    ensures StageOf(Flip(CallEdge(e))) == StageOf(Flip(e))
  {
    CountSnoc(e.ab, Request(e.a.clock + 1));
  }

  lemma IssueKeeps(e: Edge)
    requires EdgeOk(e) && e.a.phase == Calling && e.a.own == 0
    ensures EdgeOk(CallEdge(e))
    ensures StageOf(CallEdge(e)) == Sent
    ensures StageOf(Flip(CallEdge(e))) == StageOf(Flip(e))
  {
    IssueOut(e.ab, e.a.clock, e.b.view);
    IssueRequest(e);
    IssuePeer(e);
  }

  /** A step of a that concerns another peer: its clock moves on. */
  ghost function ElsewhereEdge(e: Edge, clock: int, ph: Phase): Edge {
    e.(a := e.a.(clock := clock, phase := ph))
  }

  lemma ElsewhereKeeps(e: Edge, clock: int, ph: Phase)
    requires EdgeOk(e) && clock >= e.a.clock
    requires ph == e.a.phase || (e.a.phase == Polling && ph == Calling)
    ensures EdgeOk(ElsewhereEdge(e, clock, ph))
    ensures StageOf(ElsewhereEdge(e, clock, ph)) == StageOf(e)
    ensures StageOf(Flip(ElsewhereEdge(e, clock, ph))) == StageOf(Flip(e))
  {
    ElsewhereOwn(e, clock, ph);
    ElsewherePeer(e, clock, ph);
  }

  lemma ElsewhereOwn(e: Edge, clock: int, ph: Phase)
    requires HalfOk(e) && clock >= e.a.clock
    requires ph == e.a.phase || (e.a.phase == Polling && ph == Calling)
    ensures HalfOk(ElsewhereEdge(e, clock, ph))
    ensures StageOf(ElsewhereEdge(e, clock, ph)) == StageOf(e)
  {
  }

  lemma ElsewherePeer(e: Edge, clock: int, ph: Phase)
    requires HalfOk(Flip(e)) && clock >= e.a.clock
    requires ph == e.a.phase || (e.a.phase == Polling && ph == Calling)
    ensures HalfOk(Flip(ElsewhereEdge(e, clock, ph)))
    ensures StageOf(Flip(ElsewhereEdge(e, clock, ph))) == StageOf(Flip(e))
  {
  }

  /** Entering: all is counted, and the queue shows no earlier request of b. */
  lemma EnterKeeps(e: Edge)
    requires EdgeOk(e) && e.a.phase == Polling && StageOf(e) == Counted
    requires e.a.view != 0 ==> Less(e.a.own, e.a.id, e.a.view, e.b.id)
    ensures EdgeOk(e.(a := e.a.(phase := Critical)))
    ensures StageOf(e.(a := e.a.(phase := Critical))) == StageOf(e)
    ensures StageOf(Flip(e.(a := e.a.(phase := Critical)))) == StageOf(Flip(e))
  {
    if e.b.own != 0 {
      KnownOrInTransit(e.a.view, e.ba, e.b.own);
    }
  }

  /** Processing the oldest message of ba, before the entry test. */
  ghost function ReceiveEdge(e: Edge): Edge
    requires e.ba != []
  {
    var m := e.ba[0];
    var c := Sync(e.a.clock, m.time);
    var f := e.(ba := e.ba[1..]);
    match m
    case Request(t) => f.(a := e.a.(clock := c + 1, view := t), ab := e.ab + [Reply(c + 1)])
    case Release(_) => f.(a := e.a.(clock := c, view := 0))
    case _ => f.(a := e.a.(clock := c))
  }

  ghost predicate Receiving(e: Edge) {
    EdgeOk(e) && e.ba != [] && (e.a.phase == Polling || e.a.phase == Serving)
  }

  lemma HeadFacts(e: Edge)
    requires EdgeOk(e) && e.ba != []
    ensures e.ba[0].Request? ==>
              StageOf(Flip(e)) == Sent && e.ba[0].time == e.b.own && Count(e.ab, AReply) == 0 && e.a.view == 0
    ensures e.ba[0].Reply? ==> StageOf(e) == Answered && e.a.phase != Serving
    ensures e.ba[0].Release? ==> e.a.view != 0
  {
    assert e.ba[0] in e.ba;
  }

  lemma ReplyOut(ch: seq<Message>, clock: int, own: int, phase: Phase, view: int, t: int)
    requires OutOk(ch, clock, own, phase, view) && t > clock
    ensures OutOk(ch + [Reply(t)], t, own, phase, view)
  {
    CountSnoc(ch, Reply(t));
    StreamAppend(ch, clock, Reply(t));
    AgreeConcat(view, ch, own, [Reply(t)], own);
  }

  /** The receiver's entry after the oldest message of a channel. */
  function NextView(view: int, m: Message): int {
    match m
    case Request(t) => t
    case Release(_) => 0
    case _ => view
  }

  lemma ConsumeOut(ch: seq<Message>, clock: int, own: int, phase: Phase, view: int)
    requires OutOk(ch, clock, own, phase, view) && ch != []
    ensures OutOk(ch[1..], clock, own, phase, NextView(view, ch[0]))
  {
    StreamRest(ch, clock);
    if ch[0].Done? { NoneLeft(ch[1..]); }
  }

  /** b's request, answered by a at time c. */
  lemma AnsweredOk(e: Edge)
    requires EdgeOk(e) && e.ba != [] && e.ba[0].Request?
    ensures RequestOk(Flip(ReceiveEdge(e)))
    ensures StageOf(Flip(ReceiveEdge(e))) == Answered
  {
    HeadFacts(e);
    StreamRest(e.ba, e.b.clock);
    CountSnoc(e.ab, Reply(Sync(e.a.clock, e.ba[0].time) + 1));
    Absent(e.ab, AReply);
  }

  /** a's own request while it answers b. */
  lemma AnsweringOk(e: Edge)
    requires Receiving(e) && e.ba[0].Request?
    ensures RequestOk(ReceiveEdge(e))
    ensures StageOf(ReceiveEdge(e)) == StageOf(e)
  {
    var c := Sync(e.a.clock, e.ba[0].time) + 1;
    StreamRest(e.ba, e.b.clock);
    CountSnoc(e.ab, Reply(c));
    SkippedOwn(e, c, e.ba[1..]);
    RepliedOwn(e.(a := e.a.(clock := c), ba := e.ba[1..]), e.ba[0].time, Reply(c));
  }

  /** a's own request is not concerned by a reply sent to b. */
  lemma RepliedOwn(e: Edge, view: int, m: Message)
    requires RequestOk(e) && e.a.phase != Critical && m.Reply?
    requires Count(e.ab + [m], ARequest) == Count(e.ab, ARequest)
    ensures var f := e.(a := e.a.(view := view), ab := e.ab + [m]); RequestOk(f) && StageOf(f) == StageOf(e)
  {
  }

  lemma ReceiveRequest(e: Edge)
    requires Receiving(e) && e.ba[0].Request?
    ensures EdgeOk(ReceiveEdge(e))
    ensures StageOf(ReceiveEdge(e)) == StageOf(e)
    ensures StageOf(Flip(ReceiveEdge(e))) == Answered
  {
    var c := Sync(e.a.clock, e.ba[0].time) + 1;
    AnsweredOk(e);
    AnsweringOk(e);
    ConsumeOut(e.ba, e.b.clock, e.b.own, e.b.phase, e.a.view);
    ReplyOut(e.ab, e.a.clock, e.a.own, e.a.phase, e.b.view, c);
  }

  lemma ReceiveReply(e: Edge)
    requires Receiving(e) && e.ba[0].Reply?
    ensures EdgeOk(ReceiveEdge(e))
    ensures StageOf(ReceiveEdge(e)) == Counted
    ensures StageOf(Flip(ReceiveEdge(e))) == StageOf(Flip(e))
  {
    ReplyReceivedOut(e);
    ReplyReceivedOwn(e);
    ReplyReceivedPeer(e);
  }

  lemma ReplyReceivedOut(e: Edge)
    requires Receiving(e) && e.ba[0].Reply?
    ensures var f := ReceiveEdge(e);
            && OutOk(f.ab, f.a.clock, f.a.own, f.a.phase, f.b.view)
            && OutOk(f.ba, f.b.clock, f.b.own, f.b.phase, f.a.view)
  {
    ConsumeOut(e.ba, e.b.clock, e.b.own, e.b.phase, e.a.view);
  }

  lemma ReplyReceivedOwn(e: Edge)
    requires Receiving(e) && e.ba[0].Reply?
    ensures RequestOk(ReceiveEdge(e)) && StageOf(ReceiveEdge(e)) == Counted
  {
    HeadFacts(e);
    StreamRest(e.ba, e.b.clock);
  }

  lemma ReplyReceivedPeer(e: Edge)
    requires Receiving(e) && e.ba[0].Reply?
    ensures RequestOk(Flip(ReceiveEdge(e))) && StageOf(Flip(ReceiveEdge(e))) == StageOf(Flip(e))
  {
    HeadFacts(e);
    StreamRest(e.ba, e.b.clock);
  }

  lemma ReceiveOther(e: Edge)
    requires Receiving(e) && (e.ba[0].Release? || e.ba[0].Done?)
    ensures EdgeOk(ReceiveEdge(e))
    ensures StageOf(ReceiveEdge(e)) == StageOf(e)
    ensures StageOf(Flip(ReceiveEdge(e))) == StageOf(Flip(e))
  {
    ReceiveOtherOut(e);
    ReceiveOtherRequests(e);
  }

  lemma ReceiveOtherOut(e: Edge)
    requires Receiving(e) && (e.ba[0].Release? || e.ba[0].Done?)
    ensures var f := ReceiveEdge(e);
            && OutOk(f.ab, f.a.clock, f.a.own, f.a.phase, f.b.view)
            && OutOk(f.ba, f.b.clock, f.b.own, f.b.phase, f.a.view)
  {
    ConsumeOut(e.ba, e.b.clock, e.b.own, e.b.phase, e.a.view);
  }

  lemma ReceiveOtherRequests(e: Edge)
    requires Receiving(e) && (e.ba[0].Release? || e.ba[0].Done?)
    ensures RequestOk(ReceiveEdge(e)) && RequestOk(Flip(ReceiveEdge(e)))
    ensures StageOf(ReceiveEdge(e)) == StageOf(e)
    ensures StageOf(Flip(ReceiveEdge(e))) == StageOf(Flip(e))
  {
    StreamRest(e.ba, e.b.clock);
    var c := Sync(e.a.clock, e.ba[0].time);
    SkippedOwn(e, c, e.ba[1..]);
    SkippedPeer(e, c, e.ba[1..]);
  }

  /** Dropping messages other than replies, at a later clock. */
  ghost predicate Skips(e: Edge, clock: int, ba: seq<Message>) {
    && clock >= e.a.clock
    && (forall m :: m in ba ==> m in e.ba)
    && Count(ba, AReply) == Count(e.ba, AReply)
  }

  lemma SkippedOwn(e: Edge, clock: int, ba: seq<Message>)
    requires RequestOk(e) && e.a.phase != Critical && Skips(e, clock, ba)
    ensures var f := e.(a := e.a.(clock := clock), ba := ba); RequestOk(f) && StageOf(f) == StageOf(e)
    ensures var f := e.(a := e.a.(clock := clock, view := 0), ba := ba); RequestOk(f) && StageOf(f) == StageOf(e)
  {
  }

  lemma SkippedPeer(e: Edge, clock: int, ba: seq<Message>)
    requires RequestOk(Flip(e)) && Skips(e, clock, ba) && Count(ba, ARequest) == Count(e.ba, ARequest)
    ensures var f := Flip(e.(a := e.a.(clock := clock), ba := ba)); RequestOk(f) && StageOf(f) == StageOf(Flip(e))
    ensures var f := Flip(e.(a := e.a.(clock := clock, view := 0), ba := ba));
            RequestOk(f) && StageOf(f) == StageOf(Flip(e))
  {
  }

  lemma {:induction false} NoneLeft(ch: seq<Message>)
    requires forall m :: m in ch ==> !m.Request? && !m.Release?
    ensures Count(ch, ARequest) == 0 && Count(ch, ARelease) == 0
  {
    if ch != [] {
      NoneLeft(ch[1..]);
    }
  }

  lemma ReceiveKeeps(e: Edge)
    requires Receiving(e)
    ensures EdgeOk(ReceiveEdge(e))
    ensures StageOf(ReceiveEdge(e)) == if e.ba[0].Reply? then Counted else StageOf(e)
    ensures StageOf(Flip(ReceiveEdge(e))) == if e.ba[0].Request? then Answered else StageOf(Flip(e))
  {
    if e.ba[0].Request? { ReceiveRequest(e); }
    else if e.ba[0].Reply? { ReceiveReply(e); }
    else { ReceiveOther(e); }
  }

  ghost function ReleaseEdge(e: Edge, last: bool): Edge {
    var t := e.a.clock + 1;
    e.(a := End(e.a.id, if last then t + 1 else t, 0, e.a.view, if last then Serving else Calling),
       ab := e.ab + ([Message.Release(t)] + if last then [Done(t + 1)] else []))
  }

  lemma ReleasedOut(ch: seq<Message>, clock: int, own: int, view: int)
    requires OutOk(ch, clock, own, Critical, view) && own != 0
    ensures OutOk(ch + [Message.Release(clock + 1)], clock + 1, 0, Calling, view)
  {
    var r := Message.Release(clock + 1);
    CountSnoc(ch, r);
    StreamAppend(ch, clock, r);
    AgreeConcat(view, ch, own, [r], 0);
  }

  lemma DoneOut(ch: seq<Message>, clock: int, view: int)
    requires OutOk(ch, clock, 0, Calling, view)
    ensures OutOk(ch + [Done(clock + 1)], clock + 1, 0, Serving, view)
  {
    CountSnoc(ch, Done(clock + 1));
    StreamAppend(ch, clock, Done(clock + 1));
    AgreeConcat(view, ch, 0, [Done(clock + 1)], 0);
  }

  lemma ReleaseOut(e: Edge, last: bool)
    requires OutOk(e.ab, e.a.clock, e.a.own, e.a.phase, e.b.view) && e.a.own != 0 && e.a.phase == Critical
    ensures var f := ReleaseEdge(e, last); OutOk(f.ab, f.a.clock, 0, f.a.phase, e.b.view)
  {
    var r := Message.Release(e.a.clock + 1);
    ReleasedOut(e.ab, e.a.clock, e.a.own, e.b.view);
    ReleaseMessages(e, last);
    if last {
      DoneOut(e.ab + [r], e.a.clock + 1, e.b.view);
    }
  }

  lemma ReleaseMessages(e: Edge, last: bool)
    ensures ReleaseEdge(e, last).ab ==
            if last then e.ab + [Message.Release(e.a.clock + 1)] + [Done(e.a.clock + 2)]
            else e.ab + [Message.Release(e.a.clock + 1)]
  {
    assert [Message.Release(e.a.clock + 1)] + [] == [Message.Release(e.a.clock + 1)];
  }

  lemma ReleaseCounts(e: Edge, last: bool)
    ensures forall k :: Count(ReleaseEdge(e, last).ab, k) ==
                        Count(e.ab, k) + Bit(k == ARelease) + Bit(last && k == ADone)
  {
    var r := Message.Release(e.a.clock + 1);
    ReleaseMessages(e, last);
    CountSnoc(e.ab, r);
    CountSnoc(e.ab + [r], Done(e.a.clock + 2));
  }

  lemma ReleaseKeeps(e: Edge, last: bool)
    requires EdgeOk(e) && e.a.phase == Critical
    ensures StageOf(e) == Counted
    ensures EdgeOk(ReleaseEdge(e, last))
    ensures StageOf(ReleaseEdge(e, last)) == Idle
    ensures StageOf(Flip(ReleaseEdge(e, last))) == StageOf(Flip(e))
  {
    ReleaseOut(e, last);
    ReleaseCounts(e, last);
    Absent(ReleaseEdge(e, last).ab, ARequest);
    Absent(e.ba, AReply);
    ReleasePeer(e, last);
    assert RequestOk(ReleaseEdge(e, last));
  }

  /** b's request under a's release: new messages come after everything b waits for. */
  lemma ReleasePeer(e: Edge, last: bool)
    requires EdgeOk(e) && e.a.phase == Critical
    requires Count(ReleaseEdge(e, last).ab, AReply) == Count(e.ab, AReply)
    ensures RequestOk(Flip(ReleaseEdge(e, last)))
    ensures StageOf(Flip(ReleaseEdge(e, last))) == StageOf(Flip(e))
  {
  }
}
