/** One child over the deferred-reply protocol's mutex: its calls and releases are the
    steps the global system lets the child take. */
module DeferDriver {
  import opened Network
  import opened Stamps
  import opened Ipc
  import opened DeferProtocol
  import opened DeferMutex

  /** How a child ends: through, stopped by an assertion or a message type check, or not
      scheduled any more. */
  datatype Ending = Completed | Failed | Unscheduled

  datatype Life = Life(proc: Proc, inbox: Mailbox, sent: Mailbox, ending: Ending)

  /** A message received in `request_cs` or in the closing loop. */
  function Handle(p: Proc, n: nat, from: int, m: Message): Result
    requires WfProc(p, n) && Child(n, from)
  {
    if p.phase == Polling then Receive(p, n, from, m) else Serve(p, n, from, m)
  }

  /** The life of a child under the steps of the global system: CallStep when it is
      Calling, ReceiveStep for every message polled, ReleaseStep when it is Critical. */
  ghost function Drive(p: Proc, n: nat, inbox: Mailbox, arrivals: seq<Mailbox>, sent: Mailbox): Life
    requires WfProc(p, n) && WfMail(inbox, arrivals, sent, n)
    decreases |arrivals|, if p.phase == Critical then 2 else if p.phase == Calling then 1 else 0
  {
    match p.phase
    case Calling =>
      var r := Call(p, n);
      Drive(r.proc, n, inbox, arrivals, Append(sent, r.out))
    case Critical =>
      var r := DeferProtocol.Release(p, n);
      if r.proc.phase == Crashed then Life(r.proc, inbox, sent, Failed)
      else Drive(r.proc, n, inbox, arrivals, Append(sent, r.out))
    case Crashed => Life(p, inbox, sent, Failed)
    case _ =>
      if p.phase == Serving && p.awaiting <= 0 then Life(p, inbox, sent, Completed)
      else if arrivals == [] then Life(p, inbox, sent, Unscheduled)
      else
        var mail := Append(inbox, arrivals[0]);
        match First(mail, p.id, 0)
        case None => Drive(p, n, mail, arrivals[1..], sent)
        case Some(from) =>
          OutLength(p, n, from, mail[from][0]);
          var r := Handle(p, n, from, mail[from][0]);
          if r.proc.phase == Crashed then Life(r.proc, Pop(mail, from), sent, Failed)
          else Drive(r.proc, n, Pop(mail, from), arrivals[1..], Append(sent, r.out))
  }

  /** The message types and assertions that stop a child: a release, a second request
      to be deferred, and in the closing loop a reply. */
  predicate Unfit(p: Proc, n: nat, from: int, m: Message)
    requires WfProc(p, n) && Child(n, from)
  {
    || m.Release? || (m.Reply? && p.phase == Serving)
    || (m.Request? && p.phase == Polling && Less(p.queue[p.id], p.id, m.time, from) && p.queue[from] != 0)
  }

  /** A child fails on exactly those messages, having sent no more; it goes on with any other. */
  lemma FailsExactly(p: Proc, n: nat, inbox: Mailbox, arrivals: seq<Mailbox>, sent: Mailbox)
    requires WfProc(p, n) && WfMail(inbox, arrivals, sent, n) && arrivals != []
    requires p.phase == Polling || (p.phase == Serving && p.awaiting > 0)
    requires First(Append(inbox, arrivals[0]), p.id, 0).Some?
    ensures var mail := Append(inbox, arrivals[0]);
            var from := First(mail, p.id, 0).value;
            var r := Handle(p, n, from, mail[from][0]);
            var run := Drive(p, n, inbox, arrivals, sent);
            && |r.out| == n + 1 && WfProc(r.proc, n)
            && (Unfit(p, n, from, mail[from][0]) ==> run.ending == Failed && run.sent == sent)
            && (!Unfit(p, n, from, mail[from][0]) ==>
                  run == Drive(r.proc, n, Pop(mail, from), arrivals[1..], Append(sent, r.out)))
  {
    var mail := Append(inbox, arrivals[0]);
    var from := First(mail, p.id, 0).value;
    OutLength(p, n, from, mail[from][0]);
  }

  /** What the driver does once a call has returned. */
  ghost function Resume(run: Trace, n: nat, next: Phase): Life
    requires WfProc(run.proc, n) && WfMail(run.inbox, run.arrivals, run.sent, n)
  {
    match run.outcome
    case Entered => Drive(run.proc, n, run.inbox, run.arrivals, run.sent)
    case Foreign(m) =>
      var r := Announced(run.proc, n, m, next);
      if r.proc.phase == Crashed then Life(r.proc, run.inbox, run.sent, Failed)
      else Drive(r.proc, n, run.inbox, run.arrivals, run.sent)
    case Aborted => Life(run.proc, run.inbox, run.sent, Failed)
    case Suspended => Life(run.proc, run.inbox, run.sent, Unscheduled)
  }

  /** A call takes the protocol's receive steps up to the message it returns with. */
  lemma {:induction false} CallIsDrive(p: Proc, n: nat, inbox: Mailbox, arrivals: seq<Mailbox>, sent: Mailbox)
    requires WfProc(p, n) && WfMail(inbox, arrivals, sent, n)
    requires p.phase == Polling || (p.phase == Serving && p.awaiting > 0)
    ensures var run := Loop(p, n, inbox, arrivals, sent, p.phase == Serving);
            && WfProc(run.proc, n) && WfMail(run.inbox, run.arrivals, run.sent, n)
            && Drive(p, n, inbox, arrivals, sent) == Resume(run, n, if p.phase == Serving then Serving else Calling)
    decreases |arrivals|
  {
    var serving := p.phase == Serving;
    if arrivals != [] {
      var mail := Append(inbox, arrivals[0]);
      match First(mail, p.id, 0)
      case None => CallIsDrive(p, n, mail, arrivals[1..], sent);
      case Some(from) =>
        var m := mail[from][0];
        OutLength(p, n, from, m);
        var r := if serving then Serve(p, n, from, m) else Receive(p, n, from, m);
        if m.Done? || m.Release? || (serving && m.Reply?) {
          AppendNothing(sent, n);
        } else if r.proc.phase != Crashed && r.proc.phase != Critical {
          CallIsDrive(r.proc, n, Pop(mail, from), arrivals[1..], Append(sent, r.out));
        }
    }
  }

  /** The rest of a child's life at the head of the driver's loop, before DONE is sent. */
  ghost function Rest(p: Proc, n: nat, inbox: Mailbox, arrivals: seq<Mailbox>, sent: Mailbox): Life
    requires WfProc(p, n) && WfMail(inbox, arrivals, sent, n)
  {
    if p.iter < Quota(p.id) then Drive(p.(phase := Calling), n, inbox, arrivals, sent)
    else
      var t := p.clock + 1;
      Drive(p.(clock := t, phase := Serving), n, inbox, arrivals, Append(sent, ToChildren(n, p.id, [Done(t)])))
  }

  /** So is `release_cs`: the loop over the deferred requests, then the driver goes on. */
  lemma ReleaseIsDrive(p: Proc, n: nat, inbox: Mailbox, arrivals: seq<Mailbox>, sent: Mailbox)
    requires WfProc(p, n) && WfMail(inbox, arrivals, sent, n)
    requires p.phase == Critical && p.queue[p.id] != 0 && p.iter < Quota(p.id)
    ensures var q := p.(clock := p.clock + Deferred(p.queue, p.id, n), queue := p.queue[..1] + seq(n, _ => 0),
                        iter := p.iter + 1);
            Drive(p, n, inbox, arrivals, sent) == Rest(q, n, inbox, arrivals, Append(sent, Replies(p, n)))
  {
    ReleaseSends(p, n);
    var r := DeferProtocol.Release(p, n);
    assert r.proc == p.(clock := r.proc.clock, queue := p.queue[..1] + seq(n, _ => 0), iter := p.iter + 1,
                        phase := r.proc.phase);
    AppendTwice(sent, Replies(p, n), ToChildren(n, p.id, [Done(p.clock + Deferred(p.queue, p.id, n) + 1)]));
  }
}
