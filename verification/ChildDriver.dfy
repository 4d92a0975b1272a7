/** The driver of one child over the replicated queue's mutex: 5 * id critical sections,
    with calls resumed after every DONE that interrupts them, and then service to the
    others until every DONE has arrived. It is proved to take the protocol's steps, in
    the order the global system lets a child take them, and nothing else. */
module ChildDriver {
  import opened Network
  import opened Stamps
  import opened Sums
  import opened Ipc
  import opened LamportTime
  import opened StartBarrier
  import opened QueueProtocol
  import opened QueueMutex

  /** How a child ends: through, stopped by an assertion or a message type check, or not
      scheduled any more. */
  datatype Ending = Completed | Failed | Unscheduled

  datatype Life = Life(proc: Proc, inbox: Mailbox, sent: Mailbox, ending: Ending)

  /** A message received in `request_cs` or in the closing loop. */
  function Handle(p: Proc, n: nat, from: int, m: Message): Result
    requires WfProc(p, n) && Child(n, from)
  {
    if p.phase == Polling then Receive(p, n, from, m) else Serve(p, n, from, m)
  }

  /** The life of a child under the steps of the global system: CallStep when it is
      Calling, ReceiveStep for every message polled, ReleaseStep when it is Critical. */
  ghost function Drive(p: Proc, n: nat, inbox: Mailbox, arrivals: seq<Mailbox>, sent: Mailbox): Life
    requires WfProc(p, n) && WfMail(inbox, arrivals, sent, n)
    decreases |arrivals|, if p.phase == Critical then 2 else if p.phase == Calling then 1 else 0
  {
    match p.phase
    case Calling =>
      var r := Call(p, n);
      Drive(r.proc, n, inbox, arrivals, Append(sent, r.out))
    case Critical =>
      var r := QueueProtocol.Release(p, n);
      if r.proc.phase == Crashed then Life(r.proc, inbox, sent, Failed)
      else Drive(r.proc, n, inbox, arrivals, Append(sent, r.out))
    case Crashed => Life(p, inbox, sent, Failed)
    case _ =>
      if p.phase == Serving && p.awaiting <= 0 then Life(p, inbox, sent, Completed)
      else if arrivals == [] then Life(p, inbox, sent, Unscheduled)
      else
        var mail := Append(inbox, arrivals[0]);
        match First(mail, p.id, 0)
        case None => Drive(p, n, mail, arrivals[1..], sent)
        case Some(from) =>
          OutLength(p, n, from, mail[from][0]);
          var r := Handle(p, n, from, mail[from][0]);
          if r.proc.phase == Crashed then Life(r.proc, Pop(mail, from), sent, Failed)
          else Drive(r.proc, n, Pop(mail, from), arrivals[1..], Append(sent, r.out))
  }

  /** The message types and assertions that stop a child: a second request, a release
      without a request, and in the closing loop a reply. */
  predicate Unfit(p: Proc, n: nat, from: int, m: Message)
    requires WfProc(p, n) && Child(n, from)
  {
    || (m.Request? && p.queue[from] != 0) || (m.Release? && p.queue[from] == 0)
    || (m.Reply? && p.phase == Serving)
  }

  /** A child fails on exactly those messages, having sent no more; it goes on with any other. */
  lemma FailsExactly(p: Proc, n: nat, inbox: Mailbox, arrivals: seq<Mailbox>, sent: Mailbox)
    requires WfProc(p, n) && WfMail(inbox, arrivals, sent, n) && arrivals != []
    requires p.phase == Polling || (p.phase == Serving && p.awaiting > 0)
    requires First(Append(inbox, arrivals[0]), p.id, 0).Some?
    ensures var mail := Append(inbox, arrivals[0]);
            var from := First(mail, p.id, 0).value;
            var r := Handle(p, n, from, mail[from][0]);
            var run := Drive(p, n, inbox, arrivals, sent);
            && |r.out| == n + 1 && WfProc(r.proc, n)
            && (Unfit(p, n, from, mail[from][0]) ==> run.ending == Failed && run.sent == sent)
            && (!Unfit(p, n, from, mail[from][0]) ==>
                  run == Drive(r.proc, n, Pop(mail, from), arrivals[1..], Append(sent, r.out)))
  {
    var mail := Append(inbox, arrivals[0]);
    var from := First(mail, p.id, 0).value;
    OutLength(p, n, from, mail[from][0]);
  }

  /** What the driver does once a call has returned. */
  ghost function Resume(run: Trace, n: nat, next: Phase): Life
    requires WfProc(run.proc, n) && WfMail(run.inbox, run.arrivals, run.sent, n)
  {
    match run.outcome
    case Entered => Drive(run.proc, n, run.inbox, run.arrivals, run.sent)
    case Foreign(m) =>
      var r := Announced(run.proc, n, m, next);
      if r.proc.phase == Crashed then Life(r.proc, run.inbox, run.sent, Failed)
      else Drive(r.proc, n, run.inbox, run.arrivals, run.sent)
    case Aborted => Life(run.proc, run.inbox, run.sent, Failed)
    case Suspended => Life(run.proc, run.inbox, run.sent, Unscheduled)
  }

  /** A call takes the protocol's receive steps up to the message it returns with. */
  lemma {:induction false} CallIsDrive(p: Proc, n: nat, inbox: Mailbox, arrivals: seq<Mailbox>, sent: Mailbox)
    requires WfProc(p, n) && WfMail(inbox, arrivals, sent, n)
    requires p.phase == Polling || (p.phase == Serving && p.awaiting > 0)
    ensures var run := Loop(p, n, inbox, arrivals, sent, p.phase == Serving);
            && WfProc(run.proc, n) && WfMail(run.inbox, run.arrivals, run.sent, n)
            && Drive(p, n, inbox, arrivals, sent) == Resume(run, n, if p.phase == Serving then Serving else Calling)
    decreases |arrivals|
  {
    var serving := p.phase == Serving;
    if arrivals != [] {
      var mail := Append(inbox, arrivals[0]);
      match First(mail, p.id, 0)
      case None => CallIsDrive(p, n, mail, arrivals[1..], sent);
      case Some(from) =>
        var m := mail[from][0];
        OutLength(p, n, from, m);
        var r := if serving then Serve(p, n, from, m) else Receive(p, n, from, m);
        if m.Done? || (serving && m.Reply?) {
          AppendNothing(sent, n);
        } else if r.proc.phase != Crashed && r.proc.phase != Critical {
          CallIsDrive(r.proc, n, Pop(mail, from), arrivals[1..], Append(sent, r.out));
        }
    }
  }

  /** A call of `request_cs` from its head on. */
  lemma CallLife(p: Proc, n: nat, inbox: Mailbox, arrivals: seq<Mailbox>, sent: Mailbox)
    requires WfProc(p, n) && WfMail(inbox, arrivals, sent, n) && p.phase == Calling
    ensures var c := Call(p, n);
            && WfProc(c.proc, n) && |c.out| == n + 1
            && var run := Loop(c.proc, n, inbox, arrivals, Append(sent, c.out), false);
               && WfProc(run.proc, n) && WfMail(run.inbox, run.arrivals, run.sent, n)
               && Drive(p, n, inbox, arrivals, sent) == Resume(run, n, Calling)
               && run.proc.phase == PhaseAfter(Polling, run.outcome)
               && (run.outcome.Foreign? || run.outcome.Entered? ==> |run.arrivals| < |arrivals|)
  {
    var c := Call(p, n);
    CallIsDrive(c.proc, n, inbox, arrivals, Append(sent, c.out));
    CallProgress(c.proc, n, inbox, arrivals, Append(sent, c.out), false);
  }

  /** The rest of a child's life at the head of the driver's loop, before DONE is sent. */
  ghost function Rest(p: Proc, n: nat, inbox: Mailbox, arrivals: seq<Mailbox>, sent: Mailbox): Life
    requires WfProc(p, n) && WfMail(inbox, arrivals, sent, n)
  {
    if p.iter < Quota(p.id) then Drive(p.(phase := Calling), n, inbox, arrivals, sent)
    else
      var t := p.clock + 1;
      Drive(p.(clock := t, phase := Serving), n, inbox, arrivals, Append(sent, ToChildren(n, p.id, [Done(t)])))
  }

  lemma ReleaseIsDrive(p: Proc, n: nat, inbox: Mailbox, arrivals: seq<Mailbox>, sent: Mailbox)
    requires WfProc(p, n) && WfMail(inbox, arrivals, sent, n)
    requires p.phase == Critical && p.queue[p.id] != 0 && p.iter < Quota(p.id)
    ensures var q := p.(clock := p.clock + 1, queue := p.queue[p.id := 0], iter := p.iter + 1);
            Drive(p, n, inbox, arrivals, sent)
            == Rest(q, n, inbox, arrivals, Append(sent, ToChildren(n, p.id, [Message.Release(q.clock)])))
  {
    ReleaseSends(p, n);
    var t := p.clock + 1;
    AppendTwice(sent, ToChildren(n, p.id, [Message.Release(t)]), ToChildren(n, p.id, [Done(t + 1)]));
  }

  /** The driver's variables as the protocol sees them. */
  function Driver(n: nat, self: int, awaiting: int, iter: nat, phase: Phase): Proc {
    InitProc(n, self).(awaiting := awaiting, iter := iter, phase := phase)
  }

  /** run is what the steps of the protocol make of the child from where it stands. */
  ghost predicate Follows(mutex: Mutex, d: Proc, run: Life)
    requires mutex.Valid()
    reads mutex, mutex.io, mutex.clock, mutex.queue
  {
    Drive(mutex.View(d), mutex.n, mutex.io.inbox, mutex.io.arrivals, mutex.io.sent) == run
  }

  /** run is over, and ends as the child stands. */
  ghost predicate Ended(mutex: Mutex, d: Proc, run: Life, ending: Ending)
    requires mutex.Valid()
    reads mutex, mutex.io, mutex.clock, mutex.queue
  {
    run == Life(mutex.View(d), mutex.io.inbox, mutex.io.sent, ending)
  }

  /** The same between two iterations. */
  ghost predicate AtHead(mutex: Mutex, d: Proc, run: Life)
    requires mutex.Valid()
    reads mutex, mutex.io, mutex.clock, mutex.queue
  {
    Rest(mutex.View(d), mutex.n, mutex.io.inbox, mutex.io.arrivals, mutex.io.sent) == run
  }

  /** One call of `request_cs`, with the type check and the count of a DONE. */
  method Attempt(mutex: Mutex, awaiting: int, iter: nat, ghost run: Life)
    returns (left: int, entered: bool, stop: Option<Ending>, ghost d: Proc)
    requires mutex.Valid()
    requires Follows(mutex, Driver(mutex.n, mutex.self, awaiting, iter, Calling), run)
    modifies mutex, mutex.clock, mutex.queue, mutex.io
    ensures mutex.Valid()
    ensures match stop
            case Some(e) => Ended(mutex, d, run, e)
            case None => d == Driver(mutex.n, mutex.self, left, iter, if entered then Critical else Calling)
                         && Follows(mutex, d, run)
    ensures stop.None? ==> |mutex.io.arrivals| < |old(mutex.io.arrivals)|
    ensures stop == Some(Unscheduled) ==> mutex.io.arrivals == []
  {
    left, entered, d := awaiting, false, Driver(mutex.n, mutex.self, awaiting, iter, Calling);
    CallLife(mutex.View(d), mutex.n, mutex.io.inbox, mutex.io.arrivals, mutex.io.sent);
    var outcome := mutex.RequestCs(d);
    match outcome
    case Entered =>
      entered, stop, d := true, None, d.(phase := Critical);
    case Foreign(m) =>
      if m.Done? {
        stop, left := None, left - 1;
        d := d.(awaiting := left);
      } else {
        stop, d := Some(Failed), d.(phase := Crashed);
      }
    case Aborted =>
      stop, d := Some(Failed), d.(phase := Crashed);
    case Suspended =>
      stop, d := Some(Unscheduled), d.(phase := Polling);
  }

  /** One iteration of the driver's loop. */
  method Iterate(mutex: Mutex, awaiting: int, iter: nat, ghost run: Life)
    returns (left: int, stop: Option<Ending>, ghost d: Proc)
    requires mutex.Valid() && iter < Quota(mutex.self)
    requires Follows(mutex, Driver(mutex.n, mutex.self, awaiting, iter, Calling), run)
    modifies mutex, mutex.clock, mutex.queue, mutex.io
    ensures mutex.Valid()
    ensures match stop
            case Some(e) => Ended(mutex, d, run, e)
            case None => d == Driver(mutex.n, mutex.self, left, iter + 1, Calling) && AtHead(mutex, d, run)
    ensures stop == Some(Unscheduled) ==> mutex.io.arrivals == []
  {
    left, d := awaiting, Driver(mutex.n, mutex.self, awaiting, iter, Calling);
    var entered := false;
    while !entered
      invariant mutex.Valid()
      invariant d == Driver(mutex.n, mutex.self, left, iter, if entered then Critical else Calling)
      invariant Follows(mutex, d, run)
      decreases |mutex.io.arrivals|
    {
      left, entered, stop, d := Attempt(mutex, left, iter, run);
      if stop.Some? {
        return;
      }
    }
    ghost var p, sent := mutex.View(d), mutex.io.sent;
    var ok := mutex.ReleaseCs(d);
    if ok {
      ReleaseIsDrive(p, mutex.n, mutex.io.inbox, mutex.io.arrivals, sent);
      stop, d := None, d.(iter := iter + 1, phase := Calling);
      assert mutex.View(d) ==
        p.(clock := p.clock + 1, queue := p.queue[p.id := 0], iter := p.iter + 1, phase := Calling);
    } else {
      stop, d := Some(Failed), d.(phase := Crashed);
    }
  }

  /** The closing loop. */
  method Close(mutex: Mutex, awaiting: int, iter: nat, ghost run: Life)
    returns (ending: Ending, ghost d: Proc)
    requires mutex.Valid()
    requires Follows(mutex, Driver(mutex.n, mutex.self, awaiting, iter, Serving), run)
    modifies mutex.clock, mutex.queue, mutex.io
    ensures mutex.Valid() && Ended(mutex, d, run, ending)
    ensures ending == Unscheduled ==> mutex.io.arrivals == []
  {
    var left := awaiting;
    d := Driver(mutex.n, mutex.self, awaiting, iter, Serving);
    while left > 0
      invariant mutex.Valid()
      invariant d == Driver(mutex.n, mutex.self, left, iter, Serving)
      invariant Follows(mutex, d, run)
      decreases |mutex.io.arrivals|
    {
      CallIsDrive(mutex.View(d), mutex.n, mutex.io.inbox, mutex.io.arrivals, mutex.io.sent);
      CallProgress(mutex.View(d), mutex.n, mutex.io.inbox, mutex.io.arrivals, mutex.io.sent, true);
      var outcome := mutex.HandleCsRequests(d);
      match outcome
      case Foreign(m) =>
        if !m.Done? {
          ending, d := Failed, d.(phase := Crashed);
          return;
        }
        left := left - 1;
        d := d.(awaiting := left);
      case Suspended =>
        ending := Unscheduled;
        return;
      case _ =>
        ending, d := Failed, d.(phase := Crashed);
        return;
    }
    ending := Completed;
  }

  /** `child_entry`: behind the start barrier, the life of a child is the life the protocol's
      steps give it. STARTED is the first message of every channel; start holds those, and
      io what follows. */
  method ChildEntry(start: Endpoint<Signal>, io: Endpoint<Message>, clock: Clock)
    returns (ending: Ending, ghost run: Life)
    requires io.Valid() && io.ParentSilent() && io.self > 0 && clock.time == 0
    requires start.Valid() && start.self == io.self && start.n == io.n && AllFirstTicks(start.inbox, start.arrivals)
    modifies start, io, clock
    ensures io.Valid() && start.sent == Append(old(start.sent), ToAll(io.n, io.self, Started(1)))
    ensures if Awaited(old(start.inbox), old(start.arrivals), io.n, io.self, 1, 1).1 == Some(true)
            then run == Drive(InitProc(io.n, io.self), io.n, old(io.inbox), old(io.arrivals), old(io.sent))
            else run == Life(InitProc(io.n, io.self).(clock := clock.time), old(io.inbox), old(io.sent), Unscheduled)
    ensures io.inbox == run.inbox && io.sent == run.sent && clock.time == run.proc.clock && ending == run.ending
    ensures ending == Completed ==> Through(run, io.n, io.self, old(io.sent))
    ensures ending == Unscheduled ==> start.arrivals == [] || io.arrivals == []
  {
    var mutex := new Mutex(io, clock);
    BarrierTime(start.inbox, start.arrivals, io.n, io.self, 1, 1);
    var started := SyncStarted(start, clock);
    assert started.None? || started.value;
    if started != Some(true) {
      return Unscheduled, Life(InitProc(io.n, io.self).(clock := clock.time), io.inbox, io.sent, Unscheduled);
    }
    assert mutex.View(InitProc(io.n, io.self)) == InitProc(io.n, io.self);
    ending, run := RunLoops(mutex);
  }

  /** The driver's loops, with DONE between them. */
  method RunLoops(mutex: Mutex) returns (ending: Ending, ghost run: Life)
    requires mutex.Valid() && mutex.View(InitProc(mutex.n, mutex.self)) == InitProc(mutex.n, mutex.self)
    modifies mutex, mutex.io, mutex.clock, mutex.queue
    ensures mutex.Valid() && ending == run.ending
    ensures ending == Unscheduled ==> mutex.io.arrivals == []
    ensures run == Drive(InitProc(mutex.n, mutex.self), mutex.n, old(mutex.io.inbox), old(mutex.io.arrivals),
                         old(mutex.io.sent))
    ensures mutex.io.inbox == run.inbox && mutex.io.sent == run.sent && mutex.clock.time == run.proc.clock
    ensures ending == Completed ==> Through(run, mutex.n, mutex.self, old(mutex.io.sent))
  {
    var n, self := mutex.n, mutex.self;
    var awaiting := n - 1;
    ghost var d := Driver(n, self, awaiting, 0, Calling);
    run := Drive(InitProc(n, self), n, mutex.io.inbox, mutex.io.arrivals, mutex.io.sent);
    CompletedLife(n, self, mutex.io.inbox, mutex.io.arrivals, mutex.io.sent);
    for i := 0 to 5 * self
      invariant mutex.Valid()
      invariant d == Driver(n, self, awaiting, i, Calling)
      invariant AtHead(mutex, d, run)
    {
      var stop;
      awaiting, stop, d := Iterate(mutex, awaiting, i, run);
      if stop.Some? {
        return stop.value, run;
      }
    }
    mutex.clock.Advance();
    mutex.io.MulticastToChildren(Done(mutex.clock.time));
    ending, d := Close(mutex, awaiting, 5 * self, run);
  }

  // ---- what a completed child has sent ----

  /** How often a message of each kind is still to be sent to every other child. */
  function Left(p: Proc, k: Kind): int
    requires 0 <= p.id < |p.queue|
  {
    if p.phase == Serving then 0
    else match k
      case ARequest => Quota(p.id) - p.iter - Bit(p.phase != Calling || p.queue[p.id] != 0)
      case ARelease => Quota(p.id) - p.iter
      case ADone => 1
      case AReply => 0
  }

  /** Between two steps the own request is pending inside a call and in the critical
      section, and gone in the closing loop. */
  ghost predicate Good(p: Proc, n: nat) {
    && WfProc(p, n) && p.clock >= 0 && p.phase != Crashed
    && (if p.phase == Serving then p.iter == Quota(p.id) && p.queue[p.id] == 0 else p.iter < Quota(p.id))
    && (p.phase == Polling || p.phase == Critical ==> p.queue[p.id] != 0)
  }

  lemma CallCounts(p: Proc, n: nat, c: nat, k: Kind)
    requires Good(p, n) && p.phase == Calling && Pair(n, c, p.id) && k != AReply
    ensures var r := Call(p, n);
            Good(r.proc, n) && |r.out| == n + 1 && Count(r.out[c], k) + Left(r.proc, k) == Left(p, k)
  {
    assert Count([Request(p.clock + 1)], k) == Bit(k == ARequest) + Count([], k);
  }

  lemma ReleaseCounts(p: Proc, n: nat, c: nat, k: Kind)
    requires Good(p, n) && p.phase == Critical && Pair(n, c, p.id) && k != AReply
    ensures var r := QueueProtocol.Release(p, n);
            Good(r.proc, n) && |r.out| == n + 1 && Count(r.out[c], k) + Left(r.proc, k) == Left(p, k)
  {
    var t := p.clock + 1;
    var release := [Message.Release(t)];
    assert Count(release, k) == Bit(k == ARelease) + Count([], k);
    assert Count([Done(t + 1)], k) == Bit(k == ADone) + Count([], k);
    CountConcat(release, [Done(t + 1)], k);
    assert release + [] == release;
  }

  lemma HandleCounts(p: Proc, n: nat, from: int, m: Message, c: nat, k: Kind)
    requires Good(p, n) && (p.phase == Polling || p.phase == Serving)
    requires Pair(n, from, p.id) && Pair(n, c, p.id) && k != AReply
    ensures var r := Handle(p, n, from, m);
            r.proc.phase != Crashed ==>
              Good(r.proc, n) && |r.out| == n + 1 && Count(r.out[c], k) == 0 && Left(r.proc, k) == Left(p, k)
  {
    var r := Handle(p, n, from, m);
    assert r.out[c] == [] || (|r.out[c]| == 1 && r.out[c][0].Reply?);
    if r.out[c] != [] {
      assert r.out[c][1..] == [];
    }
  }

  /** What is left to be sent is what a child that completes will have sent. */
  lemma {:induction false} CompletedCounts(
      p: Proc, n: nat, inbox: Mailbox, arrivals: seq<Mailbox>, sent: Mailbox, c: nat, k: Kind)
    requires WfMail(inbox, arrivals, sent, n)
    requires Good(p, n) && Pair(n, c, p.id) && k != AReply
    ensures var run := Drive(p, n, inbox, arrivals, sent);
            && |run.sent| == n + 1
            && (run.ending == Completed ==> Count(run.sent[c], k) == Count(sent[c], k) + Left(p, k))
    decreases |arrivals|, if p.phase == Critical then 2 else if p.phase == Calling then 1 else 0, 1
  {
    if p.phase == Calling {
      var r := Call(p, n);
      CallCounts(p, n, c, k);
      CountConcat(sent[c], r.out[c], k);
      CompletedCounts(r.proc, n, inbox, arrivals, Append(sent, r.out), c, k);
    } else if p.phase == Critical {
      var r := QueueProtocol.Release(p, n);
      ReleaseCounts(p, n, c, k);
      CountConcat(sent[c], r.out[c], k);
      CompletedCounts(r.proc, n, inbox, arrivals, Append(sent, r.out), c, k);
    } else if arrivals != [] && !(p.phase == Serving && p.awaiting <= 0) {
      PolledCounts(p, n, inbox, arrivals, sent, c, k);
    }
  }

  lemma {:induction false} PolledCounts(
      p: Proc, n: nat, inbox: Mailbox, arrivals: seq<Mailbox>, sent: Mailbox, c: nat, k: Kind)
    requires WfMail(inbox, arrivals, sent, n) && arrivals != []
    requires Good(p, n) && Pair(n, c, p.id) && k != AReply
    requires p.phase == Polling || (p.phase == Serving && p.awaiting > 0)
    ensures var run := Drive(p, n, inbox, arrivals, sent);
            && |run.sent| == n + 1
            && (run.ending == Completed ==> Count(run.sent[c], k) == Count(sent[c], k) + Left(p, k))
    decreases |arrivals|, 0, 0
  {
    var mail := Append(inbox, arrivals[0]);
    match First(mail, p.id, 0)
    case None => CompletedCounts(p, n, mail, arrivals[1..], sent, c, k);
    case Some(from) =>
      var r := Handle(p, n, from, mail[from][0]);
      HandleCounts(p, n, from, mail[from][0], c, k);
      if r.proc.phase != Crashed {
        CountConcat(sent[c], r.out[c], k);
        CompletedCounts(r.proc, n, Pop(mail, from), arrivals[1..], Append(sent, r.out), c, k);
      }
  }

  lemma {:induction false} CompletedEnds(p: Proc, n: nat, inbox: Mailbox, arrivals: seq<Mailbox>, sent: Mailbox)
    requires WfMail(inbox, arrivals, sent, n) && Good(p, n)
    ensures var run := Drive(p, n, inbox, arrivals, sent);
            && |run.sent| == n + 1
            && (run.ending == Completed ==> run.proc.iter == Quota(p.id) && run.proc.awaiting <= 0)
    decreases |arrivals|, if p.phase == Critical then 2 else if p.phase == Calling then 1 else 0, 1
  {
    if p.phase == Calling {
      var r := Call(p, n);
      CompletedEnds(r.proc, n, inbox, arrivals, Append(sent, r.out));
    } else if p.phase == Critical {
      var r := QueueProtocol.Release(p, n);
      CompletedEnds(r.proc, n, inbox, arrivals, Append(sent, r.out));
    } else if arrivals != [] && !(p.phase == Serving && p.awaiting <= 0) {
      PolledEnds(p, n, inbox, arrivals, sent);
    }
  }

  lemma {:induction false} PolledEnds(p: Proc, n: nat, inbox: Mailbox, arrivals: seq<Mailbox>, sent: Mailbox)
    requires WfMail(inbox, arrivals, sent, n) && Good(p, n) && arrivals != []
    requires p.phase == Polling || (p.phase == Serving && p.awaiting > 0)
    ensures var run := Drive(p, n, inbox, arrivals, sent);
            && |run.sent| == n + 1
            && (run.ending == Completed ==> run.proc.iter == Quota(p.id) && run.proc.awaiting <= 0)
    decreases |arrivals|, 0, 0
  {
    var mail := Append(inbox, arrivals[0]);
    match First(mail, p.id, 0)
    case None => CompletedEnds(p, n, mail, arrivals[1..], sent);
    case Some(from) =>
      var r := Handle(p, n, from, mail[from][0]);
      HandleCounts(p, n, from, mail[from][0], from, ADone);
      if r.proc.phase != Crashed {
        CompletedEnds(r.proc, n, Pop(mail, from), arrivals[1..], Append(sent, r.out));
      }
  }

  ghost predicate SentBy(after: seq<Message>, before: seq<Message>, self: nat) {
    && Count(after, ARequest) == Count(before, ARequest) + 5 * self
    && Count(after, ARelease) == Count(before, ARelease) + 5 * self
    && Count(after, ADone) == Count(before, ADone) + 1
  }

  ghost predicate Through(run: Life, n: nat, self: nat, before: Mailbox)
    requires |before| == n + 1
  {
    && run.proc.iter == 5 * self && run.proc.awaiting <= 0 && |run.sent| == n + 1
    && forall c :: Pair(n, c, self) ==> SentBy(run.sent[c], before[c], self)
  }

  /** A child that completes has passed through the critical section 5 * id times, and has
      sent every other child one request and one release per pass and one DONE, however
      often its calls were interrupted. */
  lemma CompletedLife(n: nat, self: nat, inbox: Mailbox, arrivals: seq<Mailbox>, sent: Mailbox)
    requires 1 <= self <= n && WfMail(inbox, arrivals, sent, n)
    ensures var run := Drive(InitProc(n, self), n, inbox, arrivals, sent);
            run.ending == Completed ==> Through(run, n, self, sent)
  {
    var p := InitProc(n, self);
    CompletedEnds(p, n, inbox, arrivals, sent);
    var run := Drive(p, n, inbox, arrivals, sent);
    forall c | Pair(n, c, self)
      ensures run.ending == Completed ==> SentBy(run.sent[c], sent[c], self)
    {
      CompletedCounts(p, n, inbox, arrivals, sent, c, ARequest);
      CompletedCounts(p, n, inbox, arrivals, sent, c, ARelease);
      CompletedCounts(p, n, inbox, arrivals, sent, c, ADone);
    }
  }
}
