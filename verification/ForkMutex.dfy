/** The fork protocol's mutex as the program runs it: flags in arrays, updated in place by
    loops over the children. Each method is proved to compute the steps of ForkProtocol. */
module ForkMutex {
  import opened Network
  import opened Ipc
  import opened ForkProtocol

  type Mailbox = Mail<Msg>

  /** How a call of `request_cs` or `handle_cs_requests` ends: inside the critical section,
      with a message that is not its own, with a failed assertion, or not at all because
      the process is not scheduled any more. */
  datatype Outcome = Entered | Foreign(m: Msg) | Aborted | Suspended

  /** A call: the child's state, its unread messages, the polls to come, what it has sent. */
  datatype Call = Call(proc: Proc, inbox: Mailbox, arrivals: seq<Mailbox>, sent: Mailbox, outcome: Outcome)

  ghost predicate WfMail(inbox: Mailbox, arrivals: seq<Mailbox>, sent: Mailbox, n: nat) {
    && |inbox| == n + 1 && |sent| == n + 1 && inbox[0] == []
    && forall k :: 0 <= k < |arrivals| ==> |arrivals[k]| == n + 1 && arrivals[k][0] == []
  }

  lemma OutLength(p: Proc, n: nat, from: int, m: Msg)
    requires WfProc(p, n) && Child(n, from)
    ensures |Ask(p, n).out| == n + 1 && WfProc(Ask(p, n).proc, n)
    ensures |Receive(p, n, from, m).out| == n + 1 && WfProc(Receive(p, n, from, m).proc, n)
    ensures |GiveUp(p, n, from).out| == n + 1 && WfProc(GiveUp(p, n, from).proc, n)
  {
  }

  /** `request_cs`, from the head of its loop: ask, poll, process, test. */
  ghost function RequestRun(p: Proc, n: nat, inbox: Mailbox, arrivals: seq<Mailbox>, sent: Mailbox): Call
    requires WfProc(p, n) && WfMail(inbox, arrivals, sent, n)
    decreases |arrivals|
  {
    if arrivals == [] then Call(p, inbox, arrivals, sent, Suspended)
    else
      OutLength(p, n, p.id, Other);
      var a := Ask(p, n);
      var sent1 := Append(sent, a.out);
      var mail := Append(inbox, arrivals[0]);
      match First(mail, p.id, 0)
      case None =>
        if CanEnter(a.proc, n) then Call(a.proc.(phase := Critical), mail, arrivals[1..], sent1, Entered)
        else RequestRun(a.proc.(phase := Calling), n, mail, arrivals[1..], sent1)
      case Some(from) =>
        var m := mail[from][0];
        var rest := Pop(mail, from);
        if m != Request && m != Reply then
          Call(a.proc.(phase := Calling), rest, arrivals[1..], sent1, Foreign(m))
        else
          OutLength(a.proc, n, from, m);
          var r := Receive(a.proc, n, from, m);
          var sent2 := Append(sent1, r.out);
          if r.proc.phase == Critical then Call(r.proc, rest, arrivals[1..], sent2, Entered)
          else RequestRun(r.proc, n, rest, arrivals[1..], sent2)
  }

  /** `handle_cs_requests`. */
  ghost function ServeRun(p: Proc, n: nat, inbox: Mailbox, arrivals: seq<Mailbox>, sent: Mailbox): Call
    requires WfProc(p, n) && WfMail(inbox, arrivals, sent, n)
    decreases |arrivals|
  {
    if arrivals == [] then Call(p, inbox, arrivals, sent, Suspended)
    else
      var mail := Append(inbox, arrivals[0]);
      match First(mail, p.id, 0)
      case None => ServeRun(p, n, mail, arrivals[1..], sent)
      case Some(from) =>
        var m := mail[from][0];
        var rest := Pop(mail, from);
        if m != Request then Call(p, rest, arrivals[1..], sent, Foreign(m))
        else if !p.fork[from] then Call(p, rest, arrivals[1..], sent, Aborted)
        else
          OutLength(p, n, from, m);
          var r := GiveUp(p, n, from);
          ServeRun(r.proc, n, rest, arrivals[1..], Append(sent, r.out))
  }

  lemma ReleaseRows(p: Proc, n: nat, fork: seq<bool>, dirty: seq<bool>)
    requires WfProc(p, n) && |fork| == n + 1 && |dirty| == n + 1
    requires forall k :: 1 <= k <= n && k != p.id ==> !(p.token[k] && !p.fork[k])
    requires forall k :: 0 <= k <= n ==> fork[k] == (p.fork[k] && !(1 <= k && k != p.id && p.token[k]))
    requires forall k :: 0 <= k <= n ==> dirty[k] == (p.dirty[k] || (1 <= k && k != p.id))
    ensures var r := Release(p, n).proc;
            r.phase != Crashed && r == p.(fork := fork, dirty := dirty, phase := r.phase, iter := r.iter)
  {
    assert fork == Release(p, n).proc.fork;
    assert dirty == Release(p, n).proc.dirty;
  }

  /** The replies sent by `release_cs`. */
  ghost function Replies(p: Proc, n: nat): Mailbox
    requires WfProc(p, n)
  {
    seq(n + 1, c requires 0 <= c < n + 1 => if c != 0 && c != p.id && p.token[c] then [Reply] else [])
  }

  /** A release of the protocol is `release_cs` followed, after the last critical section,
      by the announcement of DONE. */
  lemma ReleaseSends(p: Proc, n: nat)
    requires WfProc(p, n) && Release(p, n).proc.phase != Crashed
    ensures |Release(p, n).out| == n + 1
    ensures Release(p, n).out ==
            if Release(p, n).proc.phase == Serving then Append(Replies(p, n), ToChildren(n, p.id, [Done]))
            else Replies(p, n)
  {
    forall c | 0 <= c <= n
      ensures Release(p, n).proc.phase == Serving ==>
                Release(p, n).out[c] == Append(Replies(p, n), ToChildren(n, p.id, [Done]))[c]
      ensures Release(p, n).proc.phase != Serving ==> Release(p, n).out[c] == Replies(p, n)[c]
    {
    }
  }

  /** An iteration of `request_cs` that finds no message and does not enter changes
      nothing for the next one: asking again sends nothing. */
  lemma IdleIteration(p: Proc, n: nat)
    requires WfProc(p, n)
    ensures var a := Ask(p, n).proc.(phase := Calling);
            WfProc(a, n) && Ask(a, n) == Result(a.(phase := Polling), Nothing(n))
  {
    var a := Ask(p, n).proc.(phase := Calling);
    assert forall c :: 0 <= c <= n ==> !Asks(a, c);
    assert Ask(a, n).proc.token == a.token;
    assert Ask(a, n).out == Nothing(n);
  }

  class Mutex {
    const n: nat
    const self: nat
    const io: Endpoint<Msg>
    const hasFork: array<bool>
    const forkDirty: array<bool>
    const hasRequest: array<bool>

    ghost predicate Valid()
      reads io
    {
      && 1 <= self <= n && io.self == self && io.n == n && io.Valid() && io.ParentSilent()
      && hasFork.Length == n + 1 && forkDirty.Length == n + 1 && hasRequest.Length == n + 1
      && hasFork != forkDirty && hasFork != hasRequest && forkDirty != hasRequest
    }

    /** The child's state as the protocol sees it; the driver's variables come from d. */
    ghost function View(d: Proc): (p: Proc)
      requires Valid()
      reads io, hasFork, forkDirty, hasRequest
      ensures WfProc(p, n)
    {
      d.(id := self, fork := hasFork[..], dirty := forkDirty[..], token := hasRequest[..])
    }

    /** `mutex_init`. */
    constructor (io: Endpoint<Msg>)
      requires io.Valid() && io.ParentSilent() && io.self > 0
      ensures Valid() && this.io == io && fresh(hasFork) && fresh(forkDirty) && fresh(hasRequest)
      ensures View(InitProc(n, self)) == InitProc(n, self)
    {
      n, self, this.io := io.n, io.self, io;
      hasFork := new bool[io.n + 1](c => false);
      forkDirty := new bool[io.n + 1](c => false);
      hasRequest := new bool[io.n + 1](c => false);
      new;
      var c := 1;
      while c <= n
        invariant 1 <= c <= n + 1 && Valid() && fresh(hasFork) && fresh(forkDirty) && fresh(hasRequest)
        invariant forall k :: 0 <= k <= n ==> hasFork[k] == forkDirty[k] == (1 <= k < c && k < self)
        invariant forall k :: 0 <= k <= n ==> hasRequest[k] == (1 <= k < c && k > self)
      {
        hasFork[c], forkDirty[c], hasRequest[c] := c < self, c < self, c > self;
        c := c + 1;
      }
      assert hasFork[..] == InitProc(n, self).fork;
      assert forkDirty[..] == InitProc(n, self).dirty;
      assert hasRequest[..] == InitProc(n, self).token;
    }

    /** `give_up_fork`; the result says whether its assertion held. */
    method GiveUpFork(to: nat) returns (ok: bool)
      requires Valid() && 1 <= to <= n
      modifies hasFork, io`sent
      ensures Valid() && ok == old(hasFork[to])
      ensures hasFork[..] == if ok then old(hasFork[..])[to := false] else old(hasFork[..])
      ensures io.sent == if ok then Append(old(io.sent), Single(n, to, Reply)) else old(io.sent)
    {
      ok := hasFork[to];
      if ok {
        hasFork[to] := false;
        io.Send(to, Reply);
      }
    }

    /** `request_fork`; the result says whether its assertion held. */
    method RequestFork(from: nat) returns (ok: bool)
      requires Valid() && 1 <= from <= n
      modifies hasRequest, io`sent
      ensures Valid() && ok == old(hasRequest[from])
      ensures hasRequest[..] == if ok then old(hasRequest[..])[from := false] else old(hasRequest[..])
      ensures io.sent == if ok then Append(old(io.sent), Single(n, from, Request)) else old(io.sent)
    {
      ok := hasRequest[from];
      if ok {
        hasRequest[from] := false;
        io.Send(from, Request);
      }
    }

    /** The loop at the head of `request_cs`. */
    method AskForks(ghost d: Proc)
      requires Valid()
      modifies hasRequest, io`sent
      ensures Valid()
      ensures View(d.(phase := Polling)) == Ask(old(View(d)), n).proc
      ensures io.sent == Append(old(io.sent), Ask(old(View(d)), n).out)
    {
      ghost var p := View(d);
      var c := 1;
      while c <= n
        invariant 1 <= c <= n + 1 && Valid()
        invariant forall k :: 0 <= k <= n ==> hasRequest[k] == (p.token[k] && !(k < c && Asks(p, k)))
        invariant forall k :: 0 <= k <= n ==>
                    io.sent[k] == old(io.sent)[k] + if k < c && Asks(p, k) then [Request] else []
      {
        if c != self && !hasFork[c] && hasRequest[c] {
          var ok := RequestFork(c);
        }
        c := c + 1;
      }
      assert hasRequest[..] == Ask(p, n).proc.token;
    }

    /** The `can_enter_cs` loop. */
    method CanEnterCs(ghost d: Proc) returns (can: bool)
      requires Valid()
      ensures can == CanEnter(View(d), n)
    {
      var c := 1;
      while c <= n
        invariant 1 <= c <= n + 1
        invariant forall k :: 1 <= k < c && k != self ==> hasFork[k] && !(forkDirty[k] && hasRequest[k])
      {
        if c != self && (!hasFork[c] || (forkDirty[c] && hasRequest[c])) {
          assert !(View(d).fork[c] && !(View(d).dirty[c] && View(d).token[c]));
          return false;
        }
        c := c + 1;
      }
      return true;
    }

    /** The branch on the message type inside `request_cs`, for the mutex's own messages. */
    method Process(ghost d: Proc, from: nat, m: Msg)
      requires Valid() && 1 <= from <= n && from != self && (m == Request || m == Reply)
      modifies hasFork, forkDirty, hasRequest, io`sent
      ensures Valid()
      ensures var given := m == Request && old(hasFork[from]) && old(forkDirty[from]);
              && hasFork[..] == old(hasFork[..])[from := if m == Reply then true else !given && old(hasFork[from])]
              && forkDirty[..] == old(forkDirty[..])[from := m != Reply && old(forkDirty[from])]
              && hasRequest[..] == old(hasRequest[..])[from := m == Request || old(hasRequest[from])]
              && io.sent == if given then Append(old(io.sent), Single(n, from, Reply)) else old(io.sent)
      ensures var r := Receive(old(View(d)), n, from, m);
              View(d.(phase := r.proc.phase)) == r.proc && |r.out| == n + 1 && io.sent == Append(old(io.sent), r.out)
      ensures Receive(old(View(d)), n, from, m).proc == Test(View(d), n)
    {
      if m == Reply {
        hasFork[from] := true;
        forkDirty[from] := false;
        AppendNothing(io.sent, n);
      } else {
        hasRequest[from] := true;
        if hasFork[from] && forkDirty[from] {
          var ok := GiveUpFork(from);
        } else {
          AppendNothing(io.sent, n);
        }
      }
    }

    /** `request_cs`. */
    method RequestCs(ghost d: Proc) returns (outcome: Outcome)
      requires Valid() && d.phase == Calling
      modifies hasFork, forkDirty, hasRequest, io
      ensures Valid()
      ensures var run := RequestRun(old(View(d)), n, old(io.inbox), old(io.arrivals), old(io.sent));
              && run == Call(View(d.(phase := run.proc.phase)), io.inbox, io.arrivals, io.sent, outcome)
              && (run.proc.phase == Critical <==> outcome == Entered)
      ensures outcome == Suspended ==> io.arrivals == []
    {
      ghost var run := RequestRun(View(d), n, io.inbox, io.arrivals, io.sent);
      while io.arrivals != []
        invariant Valid()
        invariant RequestRun(View(d), n, io.inbox, io.arrivals, io.sent) == run
        decreases |io.arrivals|
      {
        AskForks(d);
        ghost var a := d.(phase := Polling);
        var r := io.ReceiveAny();
        if r.Some? {
          var (from, m) := r.value;
          if m != Reply && m != Request {
            return Foreign(m);
          }
          Process(a, from, m);
        }
        var can := CanEnterCs(a);
        if can {
          return Entered;
        }
      }
      return Suspended;
    }

    /** One fork in `release_cs`: dirty, and given up if it has been asked for. */
    method ReleaseFork(c: nat) returns (ok: bool)
      requires Valid() && 1 <= c <= n
      modifies hasFork, forkDirty, io`sent
      ensures Valid() && ok == (hasRequest[c] ==> old(hasFork[c]))
      ensures forkDirty[..] == old(forkDirty[..])[c := true]
      ensures hasFork[..] == if hasRequest[c] then old(hasFork[..])[c := false] else old(hasFork[..])
      ensures ok ==> io.sent == if hasRequest[c] then Append(old(io.sent), Single(n, c, Reply)) else old(io.sent)
    {
      forkDirty[c] := true;
      ok := true;
      if hasRequest[c] {
        ok := GiveUpFork(c);
      }
    }

    /** The loop of `release_cs` over all forks, up to a failed assertion. */
    method ReleaseForks(ghost p: Proc) returns (ok: bool)
      requires Valid() && p == View(p)
      modifies hasFork, forkDirty, io`sent
      ensures Valid()
      ensures ok <==> forall k :: 1 <= k <= n && k != self ==> !(p.token[k] && !p.fork[k])
      ensures ok ==> forall k :: 0 <= k <= n ==>
                hasFork[k] == (p.fork[k] && !(1 <= k && k != self && p.token[k])) &&
                forkDirty[k] == (p.dirty[k] || (1 <= k && k != self))
      ensures ok ==> io.sent == Append(old(io.sent), Replies(p, n))
    {
      ghost var sent := io.sent;
      var c := 1;
      while c <= n
        invariant 1 <= c <= n + 1 && Valid()
        invariant forall k :: 1 <= k < c && k != self ==> !(p.token[k] && !p.fork[k])
        invariant forall k :: 0 <= k <= n ==>
                    hasFork[k] == (p.fork[k] && !(1 <= k < c && k != self && p.token[k]))
        invariant forall k :: 0 <= k <= n ==> forkDirty[k] == (p.dirty[k] || (1 <= k < c && k != self))
        invariant forall k :: 0 <= k <= n ==>
                    io.sent[k] == sent[k] + if 1 <= k < c && k != self && p.token[k] then [Reply] else []
      {
        if c != self {
          ok := ReleaseFork(c);
          if !ok {
            return;
          }
        }
        c := c + 1;
      }
      ok := true;
    }

    /** `release_cs`; the result says whether the assertions of `give_up_fork` held. */
    method ReleaseCs(ghost d: Proc) returns (ok: bool)
      requires Valid()
      modifies hasFork, forkDirty, io`sent
      ensures Valid()
      ensures ok == (Release(old(View(d)), n).proc.phase != Crashed)
      ensures ok ==> var r := Release(old(View(d)), n).proc;
                     View(d.(phase := r.phase, iter := r.iter)) == r
      ensures ok ==> io.sent == Append(old(io.sent), Replies(old(View(d)), n))
    {
      ghost var p := View(d);
      ok := ReleaseForks(p);
      if ok {
        ReleaseRows(p, n, hasFork[..], forkDirty[..]);
      }
    }

    /** `handle_cs_requests`. */
    method HandleCsRequests(ghost d: Proc) returns (outcome: Outcome)
      requires Valid()
      modifies hasFork, io
      ensures Valid()
      ensures ServeRun(old(View(d)), n, old(io.inbox), old(io.arrivals), old(io.sent)) ==
              Call(View(d), io.inbox, io.arrivals, io.sent, outcome)
      ensures outcome == Suspended ==> io.arrivals == []
      ensures outcome != Entered && outcome != Foreign(Request)
    {
      ghost var run := ServeRun(View(d), n, io.inbox, io.arrivals, io.sent);
      while io.arrivals != []
        invariant Valid()
        invariant ServeRun(View(d), n, io.inbox, io.arrivals, io.sent) == run
        decreases |io.arrivals|
      {
        var r := io.ReceiveAny();
        if r.Some? {
          var (from, m) := r.value;
          if m != Request {
            return Foreign(m);
          }
          var ok := GiveUpFork(from);
          if !ok {
            return Aborted;
          }
        }
      }
      return Suspended;
    }
  }
}
