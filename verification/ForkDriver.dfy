/** One child over the fork protocol's mutex: its calls and releases are the steps the
    global system lets the child take. */
module ForkDriver {
  import opened Network
  import opened Ipc
  import opened ForkProtocol
  import opened ForkMutex

  /** How a child ends: through, stopped by an assertion or a message type check, or not
      scheduled any more. */
  datatype Ending = Completed | Failed | Unscheduled

  datatype Life = Life(proc: Proc, inbox: Mailbox, sent: Mailbox, ending: Ending)

  /** A message received in `request_cs` or in the closing loop. */
  function Handle(p: Proc, n: nat, from: int, m: Msg): Result
    requires WfProc(p, n) && Child(n, from)
  {
    if p.phase == Polling then Receive(p, n, from, m) else Serve(p, n, from, m)
  }

  /** After a poll that has found nothing. */
  function Idle(p: Proc, n: nat): Proc
    requires WfProc(p, n)
  {
    if p.phase == Polling && CanEnter(p, n) then p.(phase := Critical) else p
  }

  lemma HandleLength(p: Proc, n: nat, from: int, m: Msg)
    requires WfProc(p, n) && Child(n, from)
    ensures |Handle(p, n, from, m).out| == n + 1 && WfProc(Handle(p, n, from, m).proc, n)
    ensures |Ask(p, n).out| == n + 1 && WfProc(Ask(p, n).proc, n)
  {
    OutLength(p, n, from, m);
  }

  /** The life of a child under the steps of the global system: AskStep when it is Calling,
      ReceiveStep for every message polled, EnterStep when a poll finds nothing and the
      entry test succeeds, ReleaseStep when it is Critical. */
  ghost function Drive(p: Proc, n: nat, inbox: Mailbox, arrivals: seq<Mailbox>, sent: Mailbox): Life
    requires WfProc(p, n) && WfMail(inbox, arrivals, sent, n)
    decreases |arrivals|, if p.phase == Critical then 2 else if p.phase == Calling then 1 else 0
  {
    HandleLength(p, n, p.id, Other);
    match p.phase
    case Critical =>
      var r := Release(p, n);
      if r.proc.phase == Crashed then Life(r.proc, inbox, sent, Failed)
      else Drive(r.proc, n, inbox, arrivals, Append(sent, r.out))
    case Crashed => Life(p, inbox, sent, Failed)
    case Calling =>
      if arrivals == [] then Life(p, inbox, sent, Unscheduled)
      else Drive(Ask(p, n).proc, n, inbox, arrivals, Append(sent, Ask(p, n).out))
    case _ =>
      if p.phase == Serving && p.awaiting <= 0 then Life(p, inbox, sent, Completed)
      else if arrivals == [] then Life(p, inbox, sent, Unscheduled)
      else
        var mail := Append(inbox, arrivals[0]);
        match First(mail, p.id, 0)
        case None => Drive(Idle(p, n), n, mail, arrivals[1..], sent)
        case Some(from) =>
          HandleLength(p, n, from, mail[from][0]);
          var r := Handle(p, n, from, mail[from][0]);
          if r.proc.phase == Crashed then Life(r.proc, Pop(mail, from), sent, Failed)
          else Drive(r.proc, n, Pop(mail, from), arrivals[1..], Append(sent, r.out))
  }

  /** The message types and assertions that stop a child: a foreign message, and in
      the closing loop a fork or a request for a fork that is not there. */
  predicate Unfit(p: Proc, n: nat, from: int, m: Msg)
    requires WfProc(p, n) && Child(n, from)
  {
    m == Other || (p.phase == Serving && (m == Reply || (m == Request && !p.fork[from])))
  }

  /** A child fails on exactly those messages, having sent no more; it goes on with any other. */
  lemma FailsExactly(p: Proc, n: nat, inbox: Mailbox, arrivals: seq<Mailbox>, sent: Mailbox)
    requires WfProc(p, n) && WfMail(inbox, arrivals, sent, n) && arrivals != []
    requires p.phase == Polling || (p.phase == Serving && p.awaiting > 0)
    requires First(Append(inbox, arrivals[0]), p.id, 0).Some?
    ensures var mail := Append(inbox, arrivals[0]);
            var from := First(mail, p.id, 0).value;
            var r := Handle(p, n, from, mail[from][0]);
            var run := Drive(p, n, inbox, arrivals, sent);
            && |r.out| == n + 1 && WfProc(r.proc, n)
            && (Unfit(p, n, from, mail[from][0]) ==> run.ending == Failed && run.sent == sent)
            && (!Unfit(p, n, from, mail[from][0]) ==>
                  run == Drive(r.proc, n, Pop(mail, from), arrivals[1..], Append(sent, r.out)))
  {
    var mail := Append(inbox, arrivals[0]);
    var from := First(mail, p.id, 0).value;
    HandleLength(p, n, from, mail[from][0]);
  }

  /** What the driver does once a call has returned. */
  ghost function Resume(run: Call, n: nat, next: Phase): Life
    requires WfProc(run.proc, n) && WfMail(run.inbox, run.arrivals, run.sent, n)
  {
    match run.outcome
    case Entered => Drive(run.proc, n, run.inbox, run.arrivals, run.sent)
    case Foreign(m) =>
      var q := Announced(run.proc, m, next);
      if q.phase == Crashed then Life(q, run.inbox, run.sent, Failed)
      else Drive(q, n, run.inbox, run.arrivals, run.sent)
    case Aborted => Life(run.proc.(phase := Crashed), run.inbox, run.sent, Failed)
    case Suspended => Life(run.proc, run.inbox, run.sent, Unscheduled)
  }

  /** Equal, but for whether a child that is not scheduled any more stands before or
      behind the asking loop, which would have nothing to ask for. */
  ghost predicate Alike(a: Life, b: Life) {
    a == b || (a.ending == b.ending == Unscheduled && a == b.(proc := b.proc.(phase := a.proc.phase)))
  }

  /** Asking again after an idle poll makes no difference. */
  lemma IdleIsAlike(p: Proc, n: nat, inbox: Mailbox, arrivals: seq<Mailbox>, sent: Mailbox)
    requires WfProc(p, n) && WfMail(inbox, arrivals, sent, n)
    ensures var a := Ask(p, n).proc;
            && WfProc(a, n)
            && Alike(Drive(a, n, inbox, arrivals, sent), Drive(a.(phase := Calling), n, inbox, arrivals, sent))
  {
    IdleIteration(p, n);
    AppendNothing(sent, n);
  }

  /** A call of `request_cs` takes the protocol's steps up to the one it returns with. */
  lemma {:induction false} CallIsDrive(p: Proc, n: nat, inbox: Mailbox, arrivals: seq<Mailbox>, sent: Mailbox)
    requires WfProc(p, n) && WfMail(inbox, arrivals, sent, n) && p.phase == Calling
    ensures var run := RequestRun(p, n, inbox, arrivals, sent);
            && WfProc(run.proc, n) && WfMail(run.inbox, run.arrivals, run.sent, n)
            && Alike(Drive(p, n, inbox, arrivals, sent), Resume(run, n, Calling))
    decreases |arrivals|
  {
    if arrivals != [] {
      HandleLength(p, n, p.id, Other);
      var a := Ask(p, n);
      var mail := Append(inbox, arrivals[0]);
      var sent1 := Append(sent, a.out);
      match First(mail, p.id, 0)
      case None =>
        if !CanEnter(a.proc, n) {
          CallIsDrive(a.proc.(phase := Calling), n, mail, arrivals[1..], sent1);
          IdleIsAlike(p, n, mail, arrivals[1..], sent1);
        }
      case Some(from) =>
        var m := mail[from][0];
        HandleLength(a.proc, n, from, m);
        var r := Receive(a.proc, n, from, m);
        if m != Request && m != Reply {
          AppendNothing(sent1, n);
        } else if r.proc.phase != Critical {
          CallIsDrive(r.proc, n, Pop(mail, from), arrivals[1..], Append(sent1, r.out));
        }
    }
  }

  /** So does `handle_cs_requests`. */
  lemma {:induction false} ServeIsDrive(p: Proc, n: nat, inbox: Mailbox, arrivals: seq<Mailbox>, sent: Mailbox)
    requires WfProc(p, n) && WfMail(inbox, arrivals, sent, n) && p.phase == Serving && p.awaiting > 0
    ensures var run := ServeRun(p, n, inbox, arrivals, sent);
            && WfProc(run.proc, n) && WfMail(run.inbox, run.arrivals, run.sent, n)
            && Drive(p, n, inbox, arrivals, sent) == Resume(run, n, Serving)
    decreases |arrivals|
  {
    if arrivals != [] {
      var mail := Append(inbox, arrivals[0]);
      match First(mail, p.id, 0)
      case None => ServeIsDrive(p, n, mail, arrivals[1..], sent);
      case Some(from) =>
        var m := mail[from][0];
        HandleLength(p, n, from, m);
        var r := Serve(p, n, from, m);
        if m != Request {
          AppendNothing(sent, n);
        } else if r.proc.phase != Crashed {
          ServeIsDrive(r.proc, n, Pop(mail, from), arrivals[1..], Append(sent, r.out));
        }
    }
  }

  /** A call that returns because of a message, or enters, has used up a poll, and one that
      does not return goes on for as long as the process is scheduled. It enters as soon as
      the entry test succeeds: a call left waiting has failed it after its last poll. */
  lemma {:induction false} CallProgress(p: Proc, n: nat, inbox: Mailbox, arrivals: seq<Mailbox>, sent: Mailbox)
    requires WfProc(p, n) && WfMail(inbox, arrivals, sent, n)
    ensures var run := RequestRun(p, n, inbox, arrivals, sent);
            && run.outcome != Aborted
            && (run.outcome != Suspended ==> |run.arrivals| < |arrivals|)
            && (run.outcome == Suspended ==> run.arrivals == [])
            && WfProc(run.proc, n) && (run.outcome == Entered ==> CanEnter(run.proc, n))
            && (run.outcome == Suspended && arrivals != [] ==> !CanEnter(run.proc, n))
    decreases |arrivals|
  {
    if arrivals != [] {
      HandleLength(p, n, p.id, Other);
      var a := Ask(p, n);
      var mail := Append(inbox, arrivals[0]);
      var sent1 := Append(sent, a.out);
      match First(mail, p.id, 0)
      case None =>
        if !CanEnter(a.proc, n) { CallProgress(a.proc.(phase := Calling), n, mail, arrivals[1..], sent1); }
      case Some(from) =>
        var m := mail[from][0];
        HandleLength(a.proc, n, from, m);
        var r := Receive(a.proc, n, from, m);
        if (m == Request || m == Reply) && r.proc.phase != Critical {
          CallProgress(r.proc, n, Pop(mail, from), arrivals[1..], Append(sent1, r.out));
        }
    }
  }

  /** The rest of a child's life at the head of the driver's loop, before DONE is sent. */
  ghost function Rest(p: Proc, n: nat, inbox: Mailbox, arrivals: seq<Mailbox>, sent: Mailbox): Life
    requires WfProc(p, n) && WfMail(inbox, arrivals, sent, n)
  {
    if p.iter < Quota(p.id) then Drive(p.(phase := Calling), n, inbox, arrivals, sent)
    else Drive(p.(phase := Serving), n, inbox, arrivals, Append(sent, ToChildren(n, p.id, [Done])))
  }

  /** `release_cs` is the protocol's release, and then the driver goes on. */
  lemma ReleaseIsDrive(p: Proc, n: nat, inbox: Mailbox, arrivals: seq<Mailbox>, sent: Mailbox)
    requires WfProc(p, n) && WfMail(inbox, arrivals, sent, n)
    requires p.phase == Critical && p.iter < Quota(p.id) && Release(p, n).proc.phase != Crashed
    ensures Drive(p, n, inbox, arrivals, sent)
            == Rest(Release(p, n).proc, n, inbox, arrivals, Append(sent, Replies(p, n)))
  {
    ReleaseSends(p, n);
    AppendTwice(sent, Replies(p, n), ToChildren(n, p.id, [Done]));
  }
}
