/** The replicated queue protocol's mutex as the program runs it: the queue is an array
    updated in place, the clock is shared. Each method is proved to compute the steps of
    QueueProtocol. */
module QueueMutex {
  import opened Network
  import opened Stamps
  import opened Ipc
  import opened LamportTime
  import opened QueueProtocol

  type Mailbox = Mail<Message>

  /** How a call ends: inside the critical section, with a message that is not the mutex's
      own, with a failed assertion, or not at all because the process is not scheduled
      any more. */
  datatype Outcome = Entered | Foreign(m: Message) | Aborted | Suspended

  /** A call: the child's state, its unread messages, the polls to come, what it has sent. */
  datatype Trace = Trace(proc: Proc, inbox: Mailbox, arrivals: seq<Mailbox>, sent: Mailbox, outcome: Outcome)

  ghost predicate WfMail(inbox: Mailbox, arrivals: seq<Mailbox>, sent: Mailbox, n: nat) {
    && |inbox| == n + 1 && |sent| == n + 1 && inbox[0] == []
    && forall k :: 0 <= k < |arrivals| ==> |arrivals[k]| == n + 1 && arrivals[k][0] == []
  }

  lemma OutLength(p: Proc, n: nat, from: int, m: Message)
    requires WfProc(p, n) && Child(n, from)
    ensures |Receive(p, n, from, m).out| == n + 1 && WfProc(Receive(p, n, from, m).proc, n)
    ensures |Serve(p, n, from, m).out| == n + 1 && WfProc(Serve(p, n, from, m).proc, n)
  {
  }

  /** The receive loop, in `request_cs` or, when serving, in `handle_cs_requests`. */
  ghost function Loop(p: Proc, n: nat, inbox: Mailbox, arrivals: seq<Mailbox>, sent: Mailbox, serving: bool): Trace
    requires WfProc(p, n) && WfMail(inbox, arrivals, sent, n)
    decreases |arrivals|
  {
    if arrivals == [] then Trace(p, inbox, arrivals, sent, Suspended)
    else
      var mail := Append(inbox, arrivals[0]);
      match First(mail, p.id, 0)
      case None => Loop(p, n, mail, arrivals[1..], sent, serving)
      case Some(from) =>
        var m := mail[from][0];
        var rest := Pop(mail, from);
        if m.Done? || (serving && m.Reply?) then
          Trace(p.(clock := Sync(p.clock, m.time)), rest, arrivals[1..], sent, Foreign(m))
        else
          OutLength(p, n, from, m);
          var r := if serving then Serve(p, n, from, m) else Receive(p, n, from, m);
          if r.proc.phase == Crashed then Trace(r.proc, rest, arrivals[1..], sent, Aborted)
          else if r.proc.phase == Critical then Trace(r.proc, rest, arrivals[1..], Append(sent, r.out), Entered)
          else Loop(r.proc, n, rest, arrivals[1..], Append(sent, r.out), serving)
  }

  function PhaseAfter(phase: Phase, outcome: Outcome): Phase {
    match outcome
    case Entered => Critical
    case Aborted => Crashed
    case _ => phase
  }

  /** A call that returns because of a message has used up a poll, and one that does not
      return goes on for as long as the process is scheduled. */
  lemma {:induction false} CallProgress(
      p: Proc, n: nat, inbox: Mailbox, arrivals: seq<Mailbox>, sent: Mailbox, serving: bool)
    requires WfProc(p, n) && WfMail(inbox, arrivals, sent, n)
    ensures var run := Loop(p, n, inbox, arrivals, sent, serving);
            && run.proc.phase == PhaseAfter(p.phase, run.outcome)
            && (run.outcome.Foreign? || run.outcome.Entered? ==> |run.arrivals| < |arrivals|)
            && (run.outcome == Suspended ==> run.arrivals == [])
    decreases |arrivals|
  {
    if arrivals != [] {
      var mail := Append(inbox, arrivals[0]);
      match First(mail, p.id, 0)
      case None => CallProgress(p, n, mail, arrivals[1..], sent, serving);
      case Some(from) =>
        var m := mail[from][0];
        if !(m.Done? || (serving && m.Reply?)) {
          OutLength(p, n, from, m);
          var r := if serving then Serve(p, n, from, m) else Receive(p, n, from, m);
          if r.proc.phase != Crashed && r.proc.phase != Critical {
            CallProgress(r.proc, n, Pop(mail, from), arrivals[1..], Append(sent, r.out), serving);
          }
        }
    }
  }

  /** A call only answers requests and leaves the child's own entry alone. */
  lemma {:induction false} CallOnlyReplies(
      p: Proc, n: nat, inbox: Mailbox, arrivals: seq<Mailbox>, sent: Mailbox, serving: bool, c: nat)
    requires WfProc(p, n) && WfMail(inbox, arrivals, sent, n) && c <= n
    ensures var run := Loop(p, n, inbox, arrivals, sent, serving);
            && WfProc(run.proc, n) && run.proc.queue[p.id] == p.queue[p.id]
            && |run.sent| == n + 1
            && Count(run.sent[c], ARequest) == Count(sent[c], ARequest)
            && Count(run.sent[c], ARelease) == Count(sent[c], ARelease)
            && Count(run.sent[c], ADone) == Count(sent[c], ADone)
    decreases |arrivals|
  {
    if arrivals != [] {
      var mail := Append(inbox, arrivals[0]);
      match First(mail, p.id, 0)
      case None => CallOnlyReplies(p, n, mail, arrivals[1..], sent, serving, c);
      case Some(from) =>
        var m := mail[from][0];
        if !(m.Done? || (serving && m.Reply?)) {
          OutLength(p, n, from, m);
          var r := if serving then Serve(p, n, from, m) else Receive(p, n, from, m);
          RepliesOnly(p, n, from, m, sent, serving, c);
          if r.proc.phase != Crashed && r.proc.phase != Critical {
            CallOnlyReplies(r.proc, n, Pop(mail, from), arrivals[1..], Append(sent, r.out), serving, c);
          }
        }
    }
  }

  lemma RepliesOnly(p: Proc, n: nat, from: int, m: Message, sent: Mailbox, serving: bool, c: nat)
    requires WfProc(p, n) && Child(n, from) && from != p.id && |sent| == n + 1 && c <= n
    requires !(m.Done? || (serving && m.Reply?))
    ensures var r := if serving then Serve(p, n, from, m) else Receive(p, n, from, m);
            && |r.out| == n + 1 && r.proc.queue[p.id] == p.queue[p.id] && r.proc.id == p.id
            && Count((sent[c] + r.out[c]), ARequest) == Count(sent[c], ARequest)
            && Count((sent[c] + r.out[c]), ARelease) == Count(sent[c], ARelease)
            && Count((sent[c] + r.out[c]), ADone) == Count(sent[c], ADone)
  {
    OutLength(p, n, from, m);
    var r := if serving then Serve(p, n, from, m) else Receive(p, n, from, m);
    assert r.out[c] == [] || (|r.out[c]| == 1 && r.out[c][0].Reply?);
    forall k | k != AReply
      ensures Count(r.out[c], k) == 0
    {
      if r.out[c] != [] { assert r.out[c][1..] == []; }
    }
    CountConcat(sent[c], r.out[c], ARequest);
    CountConcat(sent[c], r.out[c], ARelease);
    CountConcat(sent[c], r.out[c], ADone);
  }

  /** A release of the protocol is `release_cs` followed, after the last critical section,
      by the announcement of DONE. */
  lemma ReleaseSends(p: Proc, n: nat)
    requires WfProc(p, n) && p.queue[p.id] != 0
    ensures var r := QueueProtocol.Release(p, n);
            var release := ToChildren(n, p.id, [Message.Release(p.clock + 1)]);
            && |r.out| == n + 1
            && (if r.proc.phase == Serving then
                  r.proc.clock == p.clock + 2 && r.out == Append(release, ToChildren(n, p.id, [Done(p.clock + 2)]))
                else r.proc.clock == p.clock + 1 && r.out == release)
  {
    var r := QueueProtocol.Release(p, n);
    var release := ToChildren(n, p.id, [Message.Release(p.clock + 1)]);
    var done := ToChildren(n, p.id, [Done(p.clock + 2)]);
    forall c | 0 <= c <= n
      ensures r.proc.phase == Serving ==> r.out[c] == Append(release, done)[c]
      ensures r.proc.phase != Serving ==> r.out[c] == release[c]
    {
    }
  }

  class Mutex {
    const n: nat
    const self: nat
    const io: Endpoint<Message>
    const clock: Clock
    const queue: array<int>
    var replies: int

    ghost predicate Valid()
      reads io
    {
      1 <= self <= n && io.self == self && io.n == n && io.Valid() && io.ParentSilent() && queue.Length == n + 1
    }

    /** The child's state as the protocol sees it; the driver's variables come from d. */
    ghost function View(d: Proc): (p: Proc)
      requires Valid()
      reads this, io, clock, queue
      ensures WfProc(p, n)
    {
      d.(id := self, clock := clock.time, queue := queue[..], replies := replies)
    }

    /** `mutex_init`. */
    constructor (io: Endpoint<Message>, clock: Clock)
      requires io.Valid() && io.ParentSilent() && io.self > 0
      ensures Valid() && this.io == io && this.clock == clock && fresh(queue)
      ensures View(InitProc(n, self)) == InitProc(io.n, io.self).(clock := clock.time)
    {
      n, self, this.io, this.clock := io.n, io.self, io, clock;
      queue := new int[io.n + 1](c => 0);
      replies := 0;
      new;
      assert queue[..] == InitProc(n, self).queue;
    }

    /** `top_enqueued_request`. */
    method TopEnqueuedRequest() returns (top: int)
      requires Valid()
      ensures top == Top(queue[..], n)
      ensures queue[self] != 0 ==> (top == self <==> Least(queue[..], n, self))
    {
      top := 1;
      var topTime := queue[1];
      var i := 1;
      while i <= n
        invariant 1 <= i <= n + 1 && 1 <= top <= n && topTime == queue[top]
        invariant top == if i == 1 then 1 else Top(queue[..], i - 1)
      {
        if queue[i] != 0 && (topTime == 0 || queue[i] < topTime) {
          top := i;
          topTime := queue[i];
        }
        i := i + 1;
      }
      if queue[self] != 0 {
        TopIsLeast(queue[..], n, self);
      }
    }

    /** `queue_contains`. */
    method QueueContains(from: nat) returns (b: bool)
      requires Valid() && 1 <= from <= n
      ensures b == (queue[from] != 0)
    {
      return queue[from] != 0;
    }

    /** `enqueue_request`; the result says whether its assertion held. */
    method EnqueueRequest(from: nat, t: int) returns (ok: bool)
      requires Valid() && 1 <= from <= n
      modifies queue
      ensures ok == (old(queue[from]) == 0)
      ensures queue[..] == if ok then old(queue[..])[from := t] else old(queue[..])
    {
      var present := QueueContains(from);
      ok := !present;
      if ok {
        queue[from] := t;
      }
    }

    /** `release_request`; the result says whether its assertion held. */
    method ReleaseRequest(from: nat) returns (ok: bool)
      requires Valid() && 1 <= from <= n
      modifies queue
      ensures ok == (old(queue[from]) != 0)
      ensures queue[..] == if ok then old(queue[..])[from := 0] else old(queue[..])
    {
      ok := QueueContains(from);
      if ok {
        queue[from] := 0;
      }
    }

    /** The answer to a request. */
    method Reply(to: nat)
      requires Valid() && 1 <= to <= n
      modifies clock, io`sent
      ensures Valid() && clock.time == old(clock.time) + 1
      ensures io.sent == Append(old(io.sent), Single(n, to, Message.Reply(clock.time)))
    {
      clock.Advance();
      io.Send(to, Message.Reply(clock.time));
    }

    /** The branches for CS_REQUEST and CS_RELEASE, common to both receive loops. */
    method UpdateQueue(ghost d: Proc, from: nat, m: Message) returns (ok: bool)
      requires Valid() && 1 <= from <= n && (m.Request? || m.Release?)
      modifies clock, queue, io`sent
      ensures Valid() && ok == (if m.Request? then old(queue[from]) == 0 else old(queue[from]) != 0)
      ensures ok ==> queue[..] == old(queue[..])[from := if m.Request? then m.time else 0]
      ensures clock.time == old(clock.time) + if ok && m.Request? then 1 else 0
      ensures var r := Update(old(View(d)), n, from, m);
              if ok then View(d) == r.proc && |r.out| == n + 1 && io.sent == Append(old(io.sent), r.out)
              else r.proc == View(d).(phase := Crashed) && io.sent == old(io.sent)
    {
      if m.Request? {
        ok := EnqueueRequest(from, m.time);
        if ok {
          Reply(from);
        }
      } else {
        ok := ReleaseRequest(from);
        AppendNothing(io.sent, n);
      }
    }

    /** Head of `request_cs`. */
    method IssueRequest(ghost d: Proc)
      requires Valid()
      modifies clock, queue, io`sent
      ensures Valid() && clock.time == old(clock.time) + 1
      ensures queue[self] == if old(queue[self]) != 0 then old(queue[self]) else clock.time
      ensures var r := Call(old(View(d)), n);
              View(d.(phase := Polling)) == r.proc && |r.out| == n + 1 && io.sent == Append(old(io.sent), r.out)
    {
      clock.Advance();
      var t := clock.time;
      var pending := QueueContains(self);
      if !pending {
        var ok := EnqueueRequest(self, t);
        io.MulticastToChildren(Request(t));
        assert Call(old(View(d)), n).out == ToChildren(n, self, [Request(t)]);
      } else {
        AppendNothing(io.sent, n);
      }
    }

    /** One received message inside `request_cs`, other than a foreign one, without the
        entry test. */
    method Process(ghost d: Proc, from: nat, m: Message) returns (ok: bool)
      requires Valid() && 1 <= from <= n && !m.Done? && d.phase == Polling
      modifies this, clock, queue, io`sent
      ensures Valid()
      ensures var r := Receive(old(View(d)), n, from, m);
              if ok then r.proc == Test(View(d), n) && |r.out| == n + 1 && io.sent == Append(old(io.sent), r.out)
              else r.proc == View(d).(phase := Crashed) && io.sent == old(io.sent)
    {
      clock.Synchronize(m.time);
      if m.Reply? {
        replies := replies + 1;
        ok := true;
        AppendNothing(io.sent, n);
      } else {
        ok := UpdateQueue(d, from, m);
      }
    }

    /** `request_cs`. */
    method RequestCs(ghost d: Proc) returns (outcome: Outcome)
      requires Valid()
      modifies this, clock, queue, io
      ensures Valid()
      ensures var c := Call(old(View(d)), n);
              && WfProc(c.proc, n) && |c.out| == n + 1
              && var run := Loop(c.proc, n, old(io.inbox), old(io.arrivals), Append(old(io.sent), c.out), false);
                 && run == Trace(View(d.(phase := run.proc.phase)), io.inbox, io.arrivals, io.sent, outcome)
                 && (run.proc.phase == Critical <==> outcome == Entered)
      ensures outcome == Suspended ==> io.arrivals == []
    {
      IssueRequest(d);
      ghost var a := d.(phase := Polling);
      ghost var run := Loop(View(a), n, io.inbox, io.arrivals, io.sent, false);
      while io.arrivals != []
        invariant Valid()
        invariant Loop(View(a), n, io.inbox, io.arrivals, io.sent, false) == run
        decreases |io.arrivals|
      {
        var r := io.ReceiveAny();
        if r.Some? {
          var (from, m) := r.value;
          if m.Done? {
            clock.Synchronize(m.time);
            return Foreign(m);
          }
          var ok := Process(a, from, m);
          if !ok {
            return Aborted;
          }
          if replies == n - 1 {
            var top := TopEnqueuedRequest();
            if top == self {
              replies := 0;
              return Entered;
            }
          }
        }
      }
      return Suspended;
    }

    /** `release_cs`; the result says whether the assertion of `release_request` held. */
    method ReleaseCs(ghost d: Proc) returns (ok: bool)
      requires Valid()
      modifies clock, queue, io`sent
      ensures Valid() && ok == (old(queue[self]) != 0)
      ensures !ok ==> View(d) == old(View(d)) && io.sent == old(io.sent)
      ensures ok ==> clock.time == old(clock.time) + 1
      ensures ok ==> queue[..] == QueueProtocol.Release(old(View(d)), n).proc.queue
      ensures ok ==> io.sent == Append(old(io.sent), ToChildren(n, self, [Message.Release(clock.time)]))
    {
      ok := ReleaseRequest(self);
      if ok {
        clock.Advance();
        io.MulticastToChildren(Message.Release(clock.time));
      }
    }

    /** `handle_cs_requests`. */
    method HandleCsRequests(ghost d: Proc) returns (outcome: Outcome)
      requires Valid() && d.phase == Serving
      modifies clock, queue, io
      ensures Valid()
      ensures var run := Loop(old(View(d)), n, old(io.inbox), old(io.arrivals), old(io.sent), true);
              && run == Trace(View(d.(phase := run.proc.phase)), io.inbox, io.arrivals, io.sent, outcome)
      ensures outcome == Suspended ==> io.arrivals == []
      ensures outcome != Entered && (outcome.Foreign? ==> outcome.m.Done? || outcome.m.Reply?)
    {
      ghost var run := Loop(View(d), n, io.inbox, io.arrivals, io.sent, true);
      while io.arrivals != []
        invariant Valid()
        invariant Loop(View(d), n, io.inbox, io.arrivals, io.sent, true) == run
        decreases |io.arrivals|
      {
        var r := io.ReceiveAny();
        if r.Some? {
          var (from, m) := r.value;
          clock.Synchronize(m.time);
          if m.Request? || m.Release? {
            var ok := UpdateQueue(d, from, m);
            if !ok {
              return Aborted;
            }
          } else {
            return Foreign(m);
          }
        }
      }
      return Suspended;
    }
  }
}
