/** The deferred-reply protocol's mutex as the program runs it: the queue is an array
    updated in place, the clock is shared. Each method is proved to compute the steps of
    DeferProtocol. */
module DeferMutex {
  import opened Network
  import opened Stamps
  import opened Ipc
  import opened LamportTime
  import opened DeferProtocol

  type Mailbox = Mail<Message>

  /** How a call ends: inside the critical section, with a message that is not the mutex's
      own, with a failed assertion, or not at all because the process is not scheduled
      any more. */
  datatype Outcome = Entered | Foreign(m: Message) | Aborted | Suspended

  /** A call: the child's state, its unread messages, the polls to come, what it has sent. */
  datatype Trace = Trace(proc: Proc, inbox: Mailbox, arrivals: seq<Mailbox>, sent: Mailbox, outcome: Outcome)

  ghost predicate WfMail(inbox: Mailbox, arrivals: seq<Mailbox>, sent: Mailbox, n: nat) {
    && |inbox| == n + 1 && |sent| == n + 1 && inbox[0] == []
    && forall k :: 0 <= k < |arrivals| ==> |arrivals[k]| == n + 1 && arrivals[k][0] == []
  }

  lemma OutLength(p: Proc, n: nat, from: int, m: Message)
    requires WfProc(p, n) && Child(n, from)
    ensures |Receive(p, n, from, m).out| == n + 1 && WfProc(Receive(p, n, from, m).proc, n)
    ensures |Serve(p, n, from, m).out| == n + 1 && WfProc(Serve(p, n, from, m).proc, n)
  {
  }

  /** The receive loop, in `request_cs` or, when serving, in `handle_cs_requests`. */
  ghost function Loop(p: Proc, n: nat, inbox: Mailbox, arrivals: seq<Mailbox>, sent: Mailbox, serving: bool): Trace
    requires WfProc(p, n) && WfMail(inbox, arrivals, sent, n)
    decreases |arrivals|
  {
    if arrivals == [] then Trace(p, inbox, arrivals, sent, Suspended)
    else
      var mail := Append(inbox, arrivals[0]);
      match First(mail, p.id, 0)
      case None => Loop(p, n, mail, arrivals[1..], sent, serving)
      case Some(from) =>
        var m := mail[from][0];
        var rest := Pop(mail, from);
        if m.Done? || m.Release? || (serving && m.Reply?) then
          Trace(p.(clock := Sync(p.clock, m.time)), rest, arrivals[1..], sent, Foreign(m))
        else
          OutLength(p, n, from, m);
          var r := if serving then Serve(p, n, from, m) else Receive(p, n, from, m);
          if r.proc.phase == Crashed then Trace(r.proc, rest, arrivals[1..], sent, Aborted)
          else if r.proc.phase == Critical then Trace(r.proc, rest, arrivals[1..], Append(sent, r.out), Entered)
          else Loop(r.proc, n, rest, arrivals[1..], Append(sent, r.out), serving)
  }

  function PhaseAfter(phase: Phase, outcome: Outcome): Phase {
    match outcome
    case Entered => Critical
    case Aborted => Crashed
    case _ => phase
  }

  /** A call that returns because of a message has used up a poll, and one that does not
      return goes on for as long as the process is scheduled. */
  lemma {:induction false} CallProgress(
      p: Proc, n: nat, inbox: Mailbox, arrivals: seq<Mailbox>, sent: Mailbox, serving: bool)
    requires WfProc(p, n) && WfMail(inbox, arrivals, sent, n)
    ensures var run := Loop(p, n, inbox, arrivals, sent, serving);
            && run.proc.phase == PhaseAfter(p.phase, run.outcome)
            && (run.outcome.Foreign? || run.outcome.Entered? ==> |run.arrivals| < |arrivals|)
            && (run.outcome == Suspended ==> run.arrivals == [])
    decreases |arrivals|
  {
    if arrivals != [] {
      var mail := Append(inbox, arrivals[0]);
      match First(mail, p.id, 0)
      case None => CallProgress(p, n, mail, arrivals[1..], sent, serving);
      case Some(from) =>
        var m := mail[from][0];
        if !(m.Done? || m.Release? || (serving && m.Reply?)) {
          OutLength(p, n, from, m);
          var r := if serving then Serve(p, n, from, m) else Receive(p, n, from, m);
          if r.proc.phase != Crashed && r.proc.phase != Critical {
            CallProgress(r.proc, n, Pop(mail, from), arrivals[1..], Append(sent, r.out), serving);
          }
        }
    }
  }

  /** A call only answers requests and leaves the child's own entry alone. */
  lemma {:induction false} CallOnlyReplies(
      p: Proc, n: nat, inbox: Mailbox, arrivals: seq<Mailbox>, sent: Mailbox, serving: bool, c: nat)
    requires WfProc(p, n) && WfMail(inbox, arrivals, sent, n) && c <= n
    ensures var run := Loop(p, n, inbox, arrivals, sent, serving);
            && WfProc(run.proc, n) && run.proc.queue[p.id] == p.queue[p.id]
            && |run.sent| == n + 1
            && Count(run.sent[c], ARequest) == Count(sent[c], ARequest)
            && Count(run.sent[c], ARelease) == Count(sent[c], ARelease)
            && Count(run.sent[c], ADone) == Count(sent[c], ADone)
    decreases |arrivals|
  {
    if arrivals != [] {
      var mail := Append(inbox, arrivals[0]);
      match First(mail, p.id, 0)
      case None => CallOnlyReplies(p, n, mail, arrivals[1..], sent, serving, c);
      case Some(from) =>
        var m := mail[from][0];
        if !(m.Done? || m.Release? || (serving && m.Reply?)) {
          OutLength(p, n, from, m);
          var r := if serving then Serve(p, n, from, m) else Receive(p, n, from, m);
          RepliesOnly(p, n, from, m, sent, serving, c);
          if r.proc.phase != Crashed && r.proc.phase != Critical {
            CallOnlyReplies(r.proc, n, Pop(mail, from), arrivals[1..], Append(sent, r.out), serving, c);
          }
        }
    }
  }

  lemma RepliesOnly(p: Proc, n: nat, from: int, m: Message, sent: Mailbox, serving: bool, c: nat)
    requires WfProc(p, n) && Child(n, from) && from != p.id && |sent| == n + 1 && c <= n
    requires !(m.Done? || m.Release? || (serving && m.Reply?))
    ensures var r := if serving then Serve(p, n, from, m) else Receive(p, n, from, m);
            && |r.out| == n + 1 && r.proc.queue[p.id] == p.queue[p.id] && r.proc.id == p.id
            && Count((sent[c] + r.out[c]), ARequest) == Count(sent[c], ARequest)
            && Count((sent[c] + r.out[c]), ARelease) == Count(sent[c], ARelease)
            && Count((sent[c] + r.out[c]), ADone) == Count(sent[c], ADone)
  {
    OutLength(p, n, from, m);
    var r := if serving then Serve(p, n, from, m) else Receive(p, n, from, m);
    assert r.out[c] == [] || (|r.out[c]| == 1 && r.out[c][0].Reply?);
    forall k | k != AReply
      ensures Count(r.out[c], k) == 0
    {
      if r.out[c] != [] { assert r.out[c][1..] == []; }
    }
    CountConcat(sent[c], r.out[c], ARequest);
    CountConcat(sent[c], r.out[c], ARelease);
    CountConcat(sent[c], r.out[c], ADone);
  }

  /** The replies of `release_cs`: one to every deferred request, each a tick later. */
  ghost function Replies(p: Proc, n: nat): Mailbox
    requires WfProc(p, n)
  {
    seq(n + 1, c requires 0 <= c < n + 1 =>
      if c != 0 && c != p.id && p.queue[c] != 0 then [Message.Reply(p.clock + Deferred(p.queue, p.id, c))] else [])
  }

  /** The replies carry consecutive times, in the order of ids: from the first tick of the
      release to its last. */
  lemma {:induction false} RepliesTick(p: Proc, n: nat, c: nat, d: nat)
    requires WfProc(p, n) && c < d <= n && Replies(p, n)[c] != [] && Replies(p, n)[d] != []
    ensures |Replies(p, n)[c]| == |Replies(p, n)[d]| == 1
    ensures p.clock < Replies(p, n)[c][0].time < Replies(p, n)[d][0].time <= p.clock + Deferred(p.queue, p.id, n)
    ensures (forall k :: c < k < d ==> Replies(p, n)[k] == []) ==>
              Replies(p, n)[d][0].time == Replies(p, n)[c][0].time + 1
  {
    DeferredGrows(p, n, 0, c - 1);
    DeferredGrows(p, n, c, d - 1);
    DeferredGrows(p, n, d, n);
  }

  lemma {:induction false} DeferredGrows(p: Proc, n: nat, c: nat, d: nat)
    requires WfProc(p, n) && c <= d <= n
    ensures Deferred(p.queue, p.id, c) <= Deferred(p.queue, p.id, d)
    ensures (forall k :: c < k <= d ==> Replies(p, n)[k] == []) ==>
              Deferred(p.queue, p.id, c) == Deferred(p.queue, p.id, d)
    decreases d
  {
    if c < d {
      DeferredGrows(p, n, c, d - 1);
      var t := Message.Reply(p.clock + Deferred(p.queue, p.id, d));
      assert Replies(p, n)[d] == if d != p.id && p.queue[d] != 0 then [t] else [];
    }
  }

  /** A release of the protocol is `release_cs` followed, after the last critical section,
      by the announcement of DONE. */
  lemma ReleaseSends(p: Proc, n: nat)
    requires WfProc(p, n) && p.queue[p.id] != 0
    ensures var r := DeferProtocol.Release(p, n);
            var t := p.clock + Deferred(p.queue, p.id, n);
            && r.proc.queue == p.queue[..1] + seq(n, _ => 0)
            && |r.out| == n + 1
            && (if r.proc.phase == Serving then
                  r.proc.clock == t + 1 && r.out == Append(Replies(p, n), ToChildren(n, p.id, [Done(t + 1)]))
                else r.proc.clock == t && r.out == Replies(p, n))
  {
    var r := DeferProtocol.Release(p, n);
    var done := ToChildren(n, p.id, [Done(p.clock + Deferred(p.queue, p.id, n) + 1)]);
    forall c | 0 <= c <= n
      ensures r.proc.phase == Serving ==> r.out[c] == Append(Replies(p, n), done)[c]
      ensures r.proc.phase != Serving ==> r.out[c] == Replies(p, n)[c]
    {
    }
  }

  class Mutex {
    const n: nat
    const self: nat
    const io: Endpoint<Message>
    const clock: Clock
    const queue: array<int>
    var replies: int

    ghost predicate Valid()
      reads io
    {
      1 <= self <= n && io.self == self && io.n == n && io.Valid() && io.ParentSilent() && queue.Length == n + 1
    }

    /** The child's state as the protocol sees it; the driver's variables come from d. */
    ghost function View(d: Proc): (p: Proc)
      requires Valid()
      reads this, io, clock, queue
      ensures WfProc(p, n)
    {
      d.(id := self, clock := clock.time, queue := queue[..], replies := replies)
    }

    /** `mutex_init`. */
    constructor (io: Endpoint<Message>, clock: Clock)
      requires io.Valid() && io.ParentSilent() && io.self > 0
      ensures Valid() && this.io == io && this.clock == clock && fresh(queue)
      ensures View(InitProc(n, self)) == InitProc(io.n, io.self).(clock := clock.time)
    {
      n, self, this.io, this.clock := io.n, io.self, io, clock;
      queue := new int[io.n + 1](c => 0);
      replies := 0;
      new;
      assert queue[..] == InitProc(n, self).queue;
    }

    /** `queue_lookup`. */
    method QueueLookup(id: nat) returns (t: int)
      requires Valid() && 1 <= id <= n
      ensures t == queue[id]
    {
      return queue[id];
    }

    /** `queue_contains`. */
    method QueueContains(from: nat) returns (b: bool)
      requires Valid() && 1 <= from <= n
      ensures b == (queue[from] != 0)
    {
      var t := QueueLookup(from);
      return t != 0;
    }

    /** `enqueue_request`; the result says whether its assertion held. */
    method EnqueueRequest(from: nat, t: int) returns (ok: bool)
      requires Valid() && 1 <= from <= n
      modifies queue
      ensures ok == (old(queue[from]) == 0)
      ensures queue[..] == if ok then old(queue[..])[from := t] else old(queue[..])
    {
      var present := QueueContains(from);
      ok := !present;
      if ok {
        queue[from] := t;
      }
    }

    /** `release_request`; the result says whether its assertion held. */
    method ReleaseRequest(from: nat) returns (ok: bool)
      requires Valid() && 1 <= from <= n
      modifies queue
      ensures ok == (old(queue[from]) != 0)
      ensures queue[..] == if ok then old(queue[..])[from := 0] else old(queue[..])
    {
      ok := QueueContains(from);
      if ok {
        queue[from] := 0;
      }
    }

    /** The answer to a request. */
    method Reply(to: nat)
      requires Valid() && 1 <= to <= n
      modifies clock, io`sent
      ensures Valid() && clock.time == old(clock.time) + 1
      ensures io.sent == Append(old(io.sent), Single(n, to, Message.Reply(clock.time)))
    {
      clock.Advance();
      io.Send(to, Message.Reply(clock.time));
    }

    /** `enqueue_own_request`: the pending request, or a new one. */
    method EnqueueOwnRequest(ghost d: Proc) returns (t: int)
      requires Valid()
      modifies clock, queue, io`sent
      ensures Valid() && t == queue[self]
      ensures if old(queue[self]) != 0 then t == old(queue[self]) && clock.time == old(clock.time)
              else t == clock.time == old(clock.time) + 1
      ensures var r := Call(old(View(d)), n);
              View(d.(phase := Polling)) == r.proc && |r.out| == n + 1 && io.sent == Append(old(io.sent), r.out)
    {
      var pending := QueueContains(self);
      if pending {
        t := QueueLookup(self);
        AppendNothing(io.sent, n);
      } else {
        clock.Advance();
        t := clock.time;
        var ok := EnqueueRequest(self, t);
        io.MulticastToChildren(Request(t));
        assert Call(old(View(d)), n).out == ToChildren(n, self, [Request(t)]);
      }
    }

    /** One received request or reply inside `request_cs`, without the entry test. */
    method Process(ghost d: Proc, own: int, from: nat, m: Message) returns (ok: bool)
      requires Valid() && 1 <= from <= n && (m.Request? || m.Reply?) && d.phase == Polling && own == queue[self]
      requires from != self
      modifies this, clock, queue, io`sent
      ensures Valid() && own == queue[self]
      ensures var r := Receive(old(View(d)), n, from, m);
              if ok then r.proc == Test(View(d), n) && |r.out| == n + 1 && io.sent == Append(old(io.sent), r.out)
              else r.proc == View(d).(phase := Crashed) && io.sent == old(io.sent)
    {
      clock.Synchronize(m.time);
      ok := true;
      if m.Reply? {
        replies := replies + 1;
        AppendNothing(io.sent, n);
      } else if own < m.time || (own == m.time && self < from) {
        ok := EnqueueRequest(from, m.time);
        AppendNothing(io.sent, n);
      } else {
        Reply(from);
      }
    }

    /** `request_cs`. */
    method RequestCs(ghost d: Proc) returns (outcome: Outcome)
      requires Valid()
      modifies this, clock, queue, io
      ensures Valid()
      ensures var c := Call(old(View(d)), n);
              && WfProc(c.proc, n) && |c.out| == n + 1
              && var run := Loop(c.proc, n, old(io.inbox), old(io.arrivals), Append(old(io.sent), c.out), false);
                 && run == Trace(View(d.(phase := run.proc.phase)), io.inbox, io.arrivals, io.sent, outcome)
                 && (run.proc.phase == Critical <==> outcome == Entered)
      ensures outcome == Suspended ==> io.arrivals == []
    {
      var own := EnqueueOwnRequest(d);
      ghost var a := d.(phase := Polling);
      ghost var run := Loop(View(a), n, io.inbox, io.arrivals, io.sent, false);
      while io.arrivals != []
        invariant Valid()
        invariant Loop(View(a), n, io.inbox, io.arrivals, io.sent, false) == run
        invariant own == queue[self]
        decreases |io.arrivals|
      {
        var r := io.ReceiveAny();
        if r.Some? {
          var (from, m) := r.value;
          if m.Done? || m.Release? {
            clock.Synchronize(m.time);
            return Foreign(m);
          }
          var ok := Process(a, own, from, m);
          if !ok {
            return Aborted;
          }
          if replies == n - 1 {
            replies := 0;
            return Entered;
          }
        }
      }
      return Suspended;
    }

    /** `release_cs`; the result says whether the assertion of `release_request` held. */
    method ReleaseCs(ghost d: Proc) returns (ok: bool)
      requires Valid()
      modifies clock, queue, io`sent
      ensures Valid() && ok == (old(queue[self]) != 0)
      ensures !ok ==> View(d) == old(View(d)) && io.sent == old(io.sent)
      ensures ok ==> clock.time == old(clock.time) + Deferred(old(queue[..]), self, n)
      ensures ok ==> queue[..] == old(queue[..])[..1] + seq(n, _ => 0)
      ensures ok ==> io.sent == Append(old(io.sent), Replies(old(View(d)), n))
    {
      ghost var p, sent := View(d), io.sent;
      ok := ReleaseRequest(self);
      if !ok {
        return;
      }
      var from := 1;
      while from <= n
        invariant 1 <= from <= n + 1 && Valid()
        invariant clock.time == p.clock + Deferred(p.queue, self, from - 1)
        invariant forall k :: 0 <= k <= n ==> queue[k] == if k == self || 1 <= k < from then 0 else p.queue[k]
        invariant forall k :: 0 <= k <= n ==> io.sent[k] == sent[k] + if k < from then Replies(p, n)[k] else []
      {
        var deferred := QueueContains(from);
        if deferred {
          var released := ReleaseRequest(from);
          Reply(from);
        }
        from := from + 1;
      }
    }

    /** The answer of a child that is past its own requests, the clock synchronised. */
    method ServeRequest(ghost d: Proc, from: nat)
      requires Valid() && 1 <= from <= n
      modifies clock, io`sent
      ensures Valid()
      ensures var r := Answer(old(View(d)), n, from);
              View(d) == r.proc && |r.out| == n + 1 && io.sent == Append(old(io.sent), r.out)
    {
      Reply(from);
    }

    /** `handle_cs_requests`. */
    method HandleCsRequests(ghost d: Proc) returns (outcome: Outcome)
      requires Valid() && d.phase == Serving
      modifies clock, io
      ensures Valid()
      ensures var run := Loop(old(View(d)), n, old(io.inbox), old(io.arrivals), old(io.sent), true);
              && run == Trace(View(d.(phase := run.proc.phase)), io.inbox, io.arrivals, io.sent, outcome)
      ensures outcome == Suspended ==> io.arrivals == []
      ensures outcome != Entered && (outcome.Foreign? ==> !outcome.m.Request?)
    {
      ghost var run := Loop(View(d), n, io.inbox, io.arrivals, io.sent, true);
      while io.arrivals != []
        invariant Valid()
        invariant Loop(View(d), n, io.inbox, io.arrivals, io.sent, true) == run
        decreases |io.arrivals|
      {
        var r := io.ReceiveAny();
        if r.Some? {
          var (from, m) := r.value;
          clock.Synchronize(m.time);
          if m.Request? {
            ServeRequest(d, from);
          } else {
            return Foreign(m);
          }
        }
      }
      return Suspended;
    }
  }
}
