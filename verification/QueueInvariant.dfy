/** The counters and the log of the replicated queue protocol under every step, and the
    inductive invariant over runs. */
module QueueInvariant {
  import opened Sums
  import opened Network
  import opened Stamps
  import opened QueueProtocol
  import opened QueueSafety
  import opened QueueSystem

  // ---- DONE ----

  ghost predicate Announces(e: Edge) {
    e.a.phase == Serving && Count(e.ab, ADone) == 0
  }

  ghost predicate Hears(s: State, step: Step, k: int, j: int)
    requires Wf(s) && Enabled(s, step)
  {
    step == ReceiveStep(k, j) && s.ch(j, k)[0].Done?
  }

  lemma OwnAnnouncement(s: State, step: Step, k: int)
    requires Inv(s) && Enabled(s, step) && Pair(s.n, step.i, k)
    ensures Announces(StepEdge(s, step, k)) == Announces(EdgeOf(s, step.i, k))
  {
    var e := EdgeOf(s, step.i, k);
    EdgeFact(s, step.i, k);
    match step
    case CallStep(i) =>
    case ReleaseStep(i) =>
      ReleaseCounts(e, s.procs[i].iter + 1 >= Quota(i));
    case ReceiveStep(i, from) =>
      Uncrashed(s, step);
      ReceivePhase(s, i, from);
      if e.a.phase == Serving && from == k { SilentServe(e); }
  }

  lemma SilentServe(e: Edge)
    requires e.ba != []
    ensures Announces(ReceiveEdge(e)) == Announces(e)
  {
    CountSnoc(e.ab, Reply(Sync(e.a.clock, e.ba[0].time) + 1));
  }

  /** Only the receiver shortens a channel. */
  lemma TransitAfter(s: State, step: Step, k: int, j: int)
    requires Wf(s) && Enabled(s, step) && Pair(s.n, k, j) && j != step.i
    ensures Apply(s, step).procs[j] == s.procs[j]
    ensures Apply(s, step).ch(j, k) == if step == ReceiveStep(k, j) then s.ch(j, k)[1..] else s.ch(j, k)
  {
  }

  lemma DoneOnce(s: State, k: int, j: int)
    requires Inv(s) && Pair(s.n, k, j)
    ensures Count(s.ch(j, k), ADone) <= Bit(s.procs[j].phase == Serving)
  {
    EdgeFact(s, j, k);
  }

  lemma AwaitedAfter(s: State, step: Step, k: int, j: int)
    requires Inv(s) && Enabled(s, step) && Pair(s.n, k, j)
    ensures Awaited(Apply(s, step), k, j) <==> Awaited(s, k, j) && !Hears(s, step, k, j)
    ensures Hears(s, step, k, j) ==> Awaited(s, k, j)
  {
    if j == step.i {
      AnnouncedAfter(s, step, k);
      AwaitedIsAnnounced(s, k, j);
      AwaitedIsAnnounced(Apply(s, step), k, j);
    } else {
      DoneOnce(s, k, j);
      TransitAfter(s, step, k, j);
      HeardAfter(s, Apply(s, step), step == ReceiveStep(k, j), k, j);
    }
  }

  lemma AnnouncedAfter(s: State, step: Step, k: int)
    requires Inv(s) && Enabled(s, step) && Pair(s.n, step.i, k)
    ensures Announces(EdgeOf(Apply(s, step), step.i, k)) == Announces(EdgeOf(s, step.i, k))
  {
    Uncrashed(s, step);
    EdgeAfterStep(s, step, k);
    OwnAnnouncement(s, step, k);
  }

  lemma AwaitedIsAnnounced(s: State, k: int, j: int)
    requires Wf(s) && Pair(s.n, k, j)
    ensures Awaited(s, k, j) <==> !Announces(EdgeOf(s, j, k))
  {
  }

  lemma HeardAfter(s: State, s': State, received: bool, k: int, j: int)
    requires Wf(s) && Wf(s') && s'.n == s.n && Pair(s.n, k, j) && s'.procs[j] == s.procs[j]
    requires Count(s.ch(j, k), ADone) <= Bit(s.procs[j].phase == Serving)
    requires received ==> s.ch(j, k) != []
    requires s'.ch(j, k) == if received then s.ch(j, k)[1..] else s.ch(j, k)
    ensures Awaited(s', k, j) <==> Awaited(s, k, j) && !(received && s.ch(j, k)[0].Done?)
    ensures received && s.ch(j, k)[0].Done? ==> Awaited(s, k, j)
  {
  }

  lemma AwaitedBit(s: State, step: Step, k: int, j: int)
    requires Inv(s) && Enabled(s, step) && Child(s.n, k) && Child(s.n, j)
    ensures Bit(Awaited(Apply(s, step), k, j)) == Bit(Awaited(s, k, j)) - Bit(j != k && Hears(s, step, k, j))
  {
    if j != k { AwaitedAfter(s, step, k, j); }
  }

  lemma AwaitedKept(s: State, step: Step, k: int)
    requires Inv(s) && Enabled(s, step) && Child(s.n, k)
    ensures AwaitedCount(Apply(s, step), k) == AwaitedCount(s, k) -
      Bit(step.i == k && step.ReceiveStep? && s.ch(step.from, k)[0].Done?)
  {
    forall j | Child(s.n, j)
      ensures Bit(Awaited(Apply(s, step), k, j)) == Bit(Awaited(s, k, j)) - Bit(j != k && Hears(s, step, k, j))
    {
      AwaitedBit(s, step, k, j);
    }
    AwaitedSum(s, step, k);
  }

  lemma AwaitedSum(s: State, step: Step, k: int)
    requires Wf(s) && Enabled(s, step) && Child(s.n, k)
    requires forall j :: Child(s.n, j) ==>
               Bit(Awaited(Apply(s, step), k, j)) == Bit(Awaited(s, k, j)) - Bit(j != k && Hears(s, step, k, j))
    ensures AwaitedCount(Apply(s, step), k) == AwaitedCount(s, k) -
      Bit(step.i == k && step.ReceiveStep? && s.ch(step.from, k)[0].Done?)
  {
    var f := j => Bit(Awaited(s, k, j));
    var g := j => Bit(Awaited(Apply(s, step), k, j));
    if step.i == k && step.ReceiveStep? {
      SumChange(s.n, f, g, step.from);
    } else {
      SumEqual(s.n, f, g);
    }
  }

  // ---- replies ----

  lemma StageAfter(s: State, step: Step, b: int)
    requires Inv(s) && Enabled(s, step) && Pair(s.n, step.i, b)
    ensures StageOf(EdgeOf(Apply(s, step), step.i, b)) == NextOwn(s, step, b)
    ensures StageOf(EdgeOf(Apply(s, step), b, step.i)) == NextPeer(s, step, b)
  {
    Uncrashed(s, step);
    EdgeAfterStep(s, step, b);
    StepEdgeOk(s, step, b);
    assert EdgeOf(Apply(s, step), b, step.i) == Flip(EdgeOf(Apply(s, step), step.i, b));
  }

  /** A peer's step never changes which answers are counted. */
  lemma PeerCounts(s: State, step: Step, b: int)
    requires Inv(s) && Enabled(s, step) && Pair(s.n, step.i, b)
    ensures NextPeer(s, step, b) == Counted <==> StageOf(EdgeOf(s, b, step.i)) == Counted
  {
    var e := EdgeOf(s, step.i, b);
    EdgeFact(s, step.i, b);
    assert EdgeOf(s, b, step.i) == Flip(e);
    if Receives(step, b) {
      HeadFacts(e);
    }
  }

  lemma SameReplies(s: State, step: Step, k: int, j: int)
    requires Inv(s) && Enabled(s, step) && Child(s.n, k) && k != step.i && Child(s.n, j)
    ensures Replied(Apply(s, step), k, j) <==> Replied(s, k, j)
  {
    if j == step.i {
      StageAfter(s, step, k);
      PeerCounts(s, step, k);
    } else if j != k {
      OtherEdges(s, step, k, j);
    }
  }

  lemma RepliedByOthers(s: State, step: Step, k: int)
    requires Inv(s) && Enabled(s, step) && Child(s.n, k) && k != step.i
    ensures RepliedCount(Apply(s, step), k) == RepliedCount(s, k)
  {
    var s' := Apply(s, step);
    forall j | Child(s.n, j)
      ensures Replied(s', k, j) <==> Replied(s, k, j)
    {
      SameReplies(s, step, k, j);
    }
    SameCount(s, s', k);
  }

  lemma SameCount(s: State, s': State, k: int)
    requires Wf(s) && Wf(s') && s'.n == s.n
    requires forall j :: Child(s.n, j) ==> (Replied(s', k, j) <==> Replied(s, k, j))
    ensures RepliedCount(s', k) == RepliedCount(s, k)
  {
    SumEqual(s.n, j => Bit(Replied(s', k, j)), j => Bit(Replied(s, k, j)));
  }

  lemma OwnReplies(s: State, step: Step, j: int)
    requires Inv(s) && Enabled(s, step) && Child(s.n, j)
    ensures Replied(Apply(s, step), step.i, j) <==> Pair(s.n, step.i, j) && NextOwn(s, step, j) == Counted
  {
    if j != step.i { StageAfter(s, step, j); }
  }

  lemma RepliedToSelf(s: State, step: Step)
    requires Inv(s) && Enabled(s, step)
    ensures RepliedCount(Apply(s, step), step.i) ==
            Sum(s.n, j => Bit(Pair(s.n, step.i, j) && NextOwn(s, step, j) == Counted))
  {
    var s' := Apply(s, step);
    var i := step.i;
    forall j | Child(s.n, j)
      ensures Replied(s', i, j) <==> Pair(s.n, i, j) && NextOwn(s, step, j) == Counted
    {
      OwnReplies(s, step, j);
    }
    SumEqual(s.n, j => Bit(Replied(s', i, j)), j => Bit(Pair(s.n, i, j) && NextOwn(s, step, j) == Counted));
  }

  /** The reply counter agrees with the edges after a step, and a child that could
      enter has entered. */
  ghost predicate RepliesOk(s: State, step: Step)
    requires Wf(s) && Enabled(s, step)
  {
    var p := Local(s, step).proc;
    && p.replies == (if p.phase == Critical then 0 else RepliedCount(Apply(s, step), step.i))
    && |p.queue| == s.n + 1
    && (Busy(p.phase) && s.n > 1 ==> !(p.replies == s.n - 1 && Top(p.queue, s.n) == step.i))
  }

  lemma CallReplies(s: State, i: int)
    requires Inv(s) && Enabled(s, CallStep(i))
    ensures RepliesOk(s, CallStep(i))
  {
    RepliedToSelf(s, CallStep(i));
    assert NodeOk(s, i);
    var f := j => Bit(Replied(s, i, j));
    var g := j => Bit(Pair(s.n, i, j) && NextOwn(s, CallStep(i), j) == Counted);
    if s.procs[i].queue[i] == 0 {
      SumConstant(s.n, f, 0);
      SumConstant(s.n, g, 0);
    } else {
      SumEqual(s.n, f, g);
    }
  }

  lemma ReleaseReplies(s: State, i: int)
    requires Inv(s) && Enabled(s, ReleaseStep(i))
    ensures RepliesOk(s, ReleaseStep(i))
  {
    RepliedToSelf(s, ReleaseStep(i));
    assert NodeOk(s, i);
    SumConstant(s.n, j => Bit(Pair(s.n, i, j) && NextOwn(s, ReleaseStep(i), j) == Counted), 0);
  }

  lemma PollingReplies(s: State, i: int, from: int)
    requires Inv(s) && Enabled(s, ReceiveStep(i, from)) && s.procs[i].phase == Polling
    ensures RepliesOk(s, ReceiveStep(i, from))
  {
    Uncrashed(s, ReceiveStep(i, from));
    RepliedToSelf(s, ReceiveStep(i, from));
    assert NodeOk(s, i);
    ReceivePhase(s, i, from);
    RepliesAfterReceive(s, i, from);
    ReceiveReplies(s, i, from);
    LocalReceive(s, i, from, from);
  }

  lemma ServingReplies(s: State, i: int, from: int)
    requires Inv(s) && Enabled(s, ReceiveStep(i, from)) && s.procs[i].phase == Serving
    ensures RepliesOk(s, ReceiveStep(i, from))
  {
    var step := ReceiveStep(i, from);
    Uncrashed(s, step);
    RepliedToSelf(s, step);
    assert NodeOk(s, i);
    EdgeFact(s, i, from);
    HeadFacts(EdgeOf(s, i, from));
    ReceivePhase(s, i, from);
    ServeReplies(s, i, from);
    SumConstant(s.n, j => Bit(Replied(s, i, j)), 0);
    SumConstant(s.n, j => Bit(Pair(s.n, i, j) && NextOwn(s, step, j) == Counted), 0);
  }

  lemma ReceiveReplies(s: State, i: int, from: int)
    requires Wf(s) && Enabled(s, ReceiveStep(i, from)) && s.procs[i].phase == Polling
    requires Local(s, ReceiveStep(i, from)).proc.phase != Crashed
    ensures var p := Local(s, ReceiveStep(i, from)).proc;
            p.replies == if p.phase == Critical then 0 else s.procs[i].replies + Bit(s.ch(from, i)[0].Reply?)
  {
  }

  lemma ServeReplies(s: State, i: int, from: int)
    requires Wf(s) && Enabled(s, ReceiveStep(i, from)) && s.procs[i].phase == Serving
    requires Local(s, ReceiveStep(i, from)).proc.phase != Crashed
    ensures Local(s, ReceiveStep(i, from)).proc.replies == s.procs[i].replies
  {
  }

  lemma StepReplies(s: State, step: Step)
    requires Inv(s) && Enabled(s, step)
    ensures RepliesOk(s, step)
  {
    match step
    case CallStep(i) => CallReplies(s, i);
    case ReleaseStep(i) => ReleaseReplies(s, i);
    case ReceiveStep(i, from) =>
      if s.procs[i].phase == Polling { PollingReplies(s, i, from); } else { ServingReplies(s, i, from); }
  }

  // ---- all counters ----

  /** Loop counter, awaiting_children and the queue's own entry after a step. */
  lemma LocalCounters(s: State, step: Step)
    requires Wf(s) && Enabled(s, step) && NodeOk(s, step.i)
    requires Local(s, step).proc.phase != Crashed
    ensures var p, q := s.procs[step.i], Local(s, step).proc;
            && q.iter == p.iter + Bit(step.ReleaseStep?)
            && q.awaiting == p.awaiting - Bit(step.ReceiveStep? && s.ch(step.from, step.i)[0].Done?)
            && q.iter <= Quota(step.i) && (q.phase == Serving <==> q.iter == Quota(step.i))
            && EndOk(End(step.i, q.clock, q.queue[step.i], 0, q.phase))
            && q.clock >= p.clock
            && (step.CallStep? ==> q.phase == Polling)
            && (step.CallStep? && p.queue[step.i] == 0 ==> q.queue[step.i] > p.clock)
            && (step.CallStep? && p.queue[step.i] != 0 ==> q.queue[step.i] == p.queue[step.i])
            && (step.ReleaseStep? ==> q.queue[step.i] == 0)
            && (step.ReceiveStep? ==> q.queue[step.i] == p.queue[step.i])
  {
    if step.ReceiveStep? {
      ReceivePhase(s, step.i, step.from);
      LocalReceive(s, step.i, step.from, step.from);
    }
  }

  lemma NodesKept(s: State, step: Step)
    requires Inv(s) && Enabled(s, step)
    ensures NodesOk(Apply(s, step))
  {
    forall k | Child(s.n, k)
      ensures NodeOk(Apply(s, step), k)
    {
      NodeKept(s, step, k);
    }
  }

  lemma NodeKept(s: State, step: Step, k: int)
    requires Inv(s) && Enabled(s, step) && Child(s.n, k)
    ensures NodeOk(Apply(s, step), k)
  {
    assert NodeOk(s, k);
    AwaitedKept(s, step, k);
    Uncrashed(s, step);
    if k == step.i {
      LocalCounters(s, step);
      StepReplies(s, step);
    } else {
      RepliedByOthers(s, step, k);
    }
  }

  // ---- the log ----

  ghost predicate Enters(s: State, step: Step)
    requires Wf(s) && Enabled(s, step)
  {
    step.ReceiveStep? && Local(s, step).proc.phase == Critical
  }

  /** A child that enters precedes every other pending request, and every clock has
      passed its request. */
  lemma EntryIsLeast(s: State, step: Step, k: int)
    requires Inv(s) && Enabled(s, step) && Enters(s, step) && Pair(s.n, step.i, k)
    ensures var own := s.procs[step.i].queue[step.i];
            own <= s.procs[k].clock && s.procs[k].phase != Critical &&
            (s.procs[k].queue[k] != 0 ==> Less(own, step.i, s.procs[k].queue[k], k))
  {
    var i := step.i;
    EntryNeedsAll(s, i, step.from, k);
    StepEdgeOk(s, step, k);
    LocalReceive(s, i, step.from, k);
    CountedIsGranted(StepEdge(s, step, k));
  }

  lemma CountedIsGranted(e: Edge)
    requires EdgeOk(e) && StageOf(e) == Counted && e.a.phase == Critical
    ensures Granted(e) && e.b.phase != Critical
  {
    CriticalApart(e);
  }

  /** Two requests cannot be granted against each other. */
  lemma CriticalApart(e: Edge)
    requires EdgeOk(e)
    ensures !(e.a.phase == Critical && e.b.phase == Critical)
  {
  }

  lemma EntryPolling(s: State, step: Step)
    requires Inv(s) && Enabled(s, step) && Enters(s, step)
    ensures s.procs[step.i].phase == Polling
  {
    ReceivePhase(s, step.i, step.from);
  }

  lemma OthersBehind(s: State, step: Step, k: int)
    requires Inv(s) && Enabled(s, step) && Pair(s.n, step.i, k)
    ensures BehindLog(Apply(s, step), k)
  {
    if Enters(s, step) {
      EntryIsLeast(s, step, k);
      GrantedStamp(s, step);
      BehindEntry(s, step, k);
    } else {
      assert BehindLog(s, k);
      BehindSame(s, step, k);
    }
  }

  lemma BehindSame(s: State, step: Step, k: int)
    requires Wf(s) && Enabled(s, step) && Pair(s.n, step.i, k) && BehindLog(s, k) && !Enters(s, step)
    ensures BehindLog(Apply(s, step), k)
  {
  }

  lemma BehindEntry(s: State, step: Step, k: int)
    requires Wf(s) && Enabled(s, step) && Pair(s.n, step.i, k)
    requires var own := s.procs[step.i].queue[step.i];
             && Apply(s, step).log == s.log + [(own, step.i)]
             && own <= s.procs[k].clock && s.procs[k].phase != Critical
             && (s.procs[k].queue[k] != 0 ==> Less(own, step.i, s.procs[k].queue[k], k))
    ensures BehindLog(Apply(s, step), k)
  {
  }

  /** An entry is logged under the timestamp of the pending request. */
  lemma GrantedStamp(s: State, step: Step)
    requires Inv(s) && Enabled(s, step) && Enters(s, step)
    ensures Apply(s, step).log == s.log + [(s.procs[step.i].queue[step.i], step.i)]
  {
    LocalReceive(s, step.i, step.from, step.from);
  }

  lemma SelfBehind(s: State, step: Step)
    requires Inv(s) && Enabled(s, step)
    ensures BehindLog(Apply(s, step), step.i)
  {
    Uncrashed(s, step);
    assert NodeOk(s, step.i);
    LocalCounters(s, step);
    if step.ReceiveStep? { ReceivePhase(s, step.i, step.from); }
    SelfBehindFrom(s, step);
  }

  lemma SelfBehindFrom(s: State, step: Step)
    requires Wf(s) && LogOk(s) && Enabled(s, step)
    requires var p, q := s.procs[step.i], Local(s, step).proc;
             && p.clock <= q.clock && q.queue[step.i] <= q.clock
             && (step.ReceiveStep? ==> q.queue[step.i] == p.queue[step.i] && p.phase != Critical)
             && (step.CallStep? ==> q.phase != Critical)
             && (step.CallStep? && p.queue[step.i] == 0 ==> q.queue[step.i] > p.clock)
             && (step.CallStep? && p.queue[step.i] != 0 ==> q.queue[step.i] == p.queue[step.i])
             && (step.ReleaseStep? ==> q.phase != Critical && q.queue[step.i] == 0)
    ensures BehindLog(Apply(s, step), step.i)
  {
    assert BehindLog(s, step.i);
  }

  lemma Pending(s: State, i: int)
    requires Inv(s) && Child(s.n, i) && s.procs[i].phase == Polling
    ensures s.procs[i].queue[i] != 0 && BehindLog(s, i)
  {
    assert NodeOk(s, i);
  }

  /** A pending request can be granted next. */
  lemma NextGrant(s: State, i: int)
    requires Wf(s) && Increasing(s.log) && Child(s.n, i) && BehindLog(s, i)
    requires s.procs[i].phase == Polling && s.procs[i].queue[i] != 0
    ensures Increasing(s.log + [(s.procs[i].queue[i], i)])
  {
    IncreasingAppend(s.log, s.procs[i].queue[i], i);
  }

  lemma LogGrows(s: State, step: Step)
    requires Inv(s) && Enabled(s, step)
    ensures Increasing(Apply(s, step).log)
  {
    if Enters(s, step) {
      EntryPolling(s, step);
      GrantedStamp(s, step);
      Pending(s, step.i);
      NextGrant(s, step.i);
    }
  }

  lemma LogKept(s: State, step: Step)
    requires Inv(s) && Enabled(s, step)
    ensures LogOk(Apply(s, step))
  {
    LogGrows(s, step);
    SelfBehind(s, step);
    forall k | Child(s.n, k)
      ensures BehindLog(Apply(s, step), k)
    {
      if k != step.i { OthersBehind(s, step, k); }
    }
  }

  // ---- the invariant ----

  lemma InitNode(n: nat, i: int)
    requires Child(n, i)
    ensures NodeOk(Init(n), i)
  {
    SumFull(n, j => Bit(Awaited(Init(n), i, j)), i);
    SumConstant(n, j => Bit(Replied(Init(n), i, j)), 0);
  }

  lemma InitOk(n: nat)
    ensures Inv(Init(n))
  {
    forall i | Child(n, i)
      ensures NodeOk(Init(n), i)
    {
      InitNode(n, i);
    }
    forall a, b | Pair(n, a, b)
      ensures EdgeOk(EdgeOf(Init(n), a, b))
    {
      InitEdge(n, a, b);
    }
  }

  lemma InitEdge(n: nat, a: int, b: int)
    requires Pair(n, a, b)
    ensures EdgeOk(EdgeOf(Init(n), a, b))
  {
  }

  lemma InvKept(s: State, step: Step)
    requires Inv(s) && Enabled(s, step)
    ensures Inv(Apply(s, step))
  {
    var s' := Apply(s, step);
    forall a, b | Pair(s.n, a, b)
      ensures EdgeOk(EdgeOf(s', a, b))
    {
      EdgeKept(s, step, a, b);
    }
    NodesKept(s, step);
    LogKept(s, step);
  }
}
