/** Runs of the deferred-reply protocol, seen from one child: whatever is delivered when, a
    child that finds its messages in the order of the run does what it does in the run. */
module DeferProjection {
  import opened Network
  import opened Stamps
  import opened Ipc
  import opened Schedule
  import opened DeferProtocol
  import opened DeferSystem
  import opened DeferInvariant
  import opened DeferOrder
  import opened DeferMutex
  import opened DeferDriver

  type Own = Event<Proc, Message>

  ghost predicate Waits(p: Proc) {
    p.phase == Polling || (p.phase == Serving && p.awaiting > 0)
  }

  /** A step that the protocol lets child i take, and that does not fail. */
  ghost predicate OwnStep(n: nat, i: nat, e: Own) {
    && Child(n, i) && WfProc(e.before, n) && e.before.id == i && |e.out| == n + 1 && e.after.phase != Crashed
    && match e.poll
       case NoPoll =>
         || (e.before.phase == Calling && Call(e.before, n) == Result(e.after, e.out))
         || (e.before.phase == Critical && DeferProtocol.Release(e.before, n) == Result(e.after, e.out))
       case FindsNothing => false
       case Takes(from, m) =>
         Pair(n, from, i) && Waits(e.before) && Handle(e.before, n, from, m) == Result(e.after, e.out)
  }

  /** Child i: it polls all channels in the order of ids, and only while it waits. */
  ghost function Self(n: nat, i: nat): Process<Proc, Message> {
    Process(n, 0, (p: Proc, mail: Mailbox) => First(mail, i, 0),
            (p: Proc) => WfProc(p, n) && p.id == i && Waits(p), (e: Own) => OwnStep(n, i, e))
  }

  ghost function EventOf(s: State, step: Step): Own
    requires Wf(s) && Enabled(s, step)
  {
    var r := Local(s, step);
    var poll := if step.ReceiveStep? then Takes(step.from, s.ch(step.from, step.i)[0]) else NoPoll;
    Event(s.procs[step.i], poll, r.proc, r.out)
  }

  /** A run as its children see it. */
  ghost function Moves(s: State, steps: seq<Step>): seq<Move<Proc, Message>>
    requires Wf(s) && Runs(s, steps)
    decreases |steps|
  {
    if steps == [] then [] else [Move(steps[0].i, EventOf(s, steps[0]))] + Moves(Apply(s, steps[0]), steps[1..])
  }

  /** The steps of child i in a run. */
  ghost function Events(s: State, steps: seq<Step>, i: nat): seq<Own>
    requires Wf(s) && Runs(s, steps)
  {
    Of(Moves(s, steps), i)
  }

  lemma EventIsOwn(s: State, step: Step)
    requires Inv(s) && Enabled(s, step)
    ensures OwnStep(s.n, step.i, EventOf(s, step))
  {
    Uncrashed(s, step);
    DeferSystem.OutLength(s, step);
  }

  lemma EventsNext(s: State, steps: seq<Step>, i: nat)
    requires Wf(s) && Runs(s, steps) && steps != []
    ensures Events(s, steps, i)
            == (if steps[0].i == i then [EventOf(s, steps[0])] else []) + Events(Apply(s, steps[0]), steps[1..], i)
  {
  }

  lemma {:induction false} EventsChain(s: State, steps: seq<Step>, i: nat)
    requires Inv(s) && Runs(s, steps) && Child(s.n, i)
    ensures Chain(Self(s.n, i), s.procs[i], Events(s, steps, i))
    ensures Final(s.procs[i], Events(s, steps, i)) == After(s, steps).procs[i]
    decreases |steps|
  {
    if steps != [] {
      var step, s', rest := steps[0], Apply(s, steps[0]), steps[1..];
      InvKept(s, step);
      EventsChain(s', rest, i);
      EventsNext(s, steps, i);
      if step.i == i {
        EventIsOwn(s, step);
        ChainOn(Self(s.n, i), EventOf(s, step), Events(s', rest, i));
      } else {
        assert Events(s, steps, i) == Events(s', rest, i);
      }
    }
  }

  // ---- the driver obeys ----

  ghost function Driven(n: nat): Fate<Proc, Message, Option<Life>> {
    (p: Proc, inbox: Mailbox, arrivals: seq<Mailbox>, sent: Mailbox) =>
      if WfProc(p, n) && WfMail(inbox, arrivals, sent, n) then Some(Drive(p, n, inbox, arrivals, sent)) else None
  }

  lemma DrivenQuiet(n: nat, i: nat)
    ensures KeepsQuiet(Driven(n), Self(n, i))
  {
  }

  lemma TakesOne(n: nat, i: nat, e: Own, inbox: Mailbox, arrivals: seq<Mailbox>, sent: Mailbox)
    requires Polled(Self(n, i), e, inbox, arrivals, sent)
    ensures Driven(n)(e.before, inbox, arrivals, sent)
            == Driven(n)(e.after, Remaining(e, Append(inbox, arrivals[0])), arrivals[1..], Append(sent, e.out))
  {
    var mail, from := Append(inbox, arrivals[0]), e.poll.from;
    DeferMutex.OutLength(e.before, n, from, e.poll.m);
    assert First(mail, i, 0) == Some(from) && mail[from][0] == e.poll.m;
    assert WfMail(inbox, arrivals, sent, n) <==> WfMail(Pop(mail, from), arrivals[1..], Append(sent, e.out), n) by {
      WfPolled(n, inbox, arrivals, sent, from, Append(sent, e.out));
    }
    if WfMail(inbox, arrivals, sent, n) {
      assert Drive(e.before, n, inbox, arrivals, sent)
          == Drive(e.after, n, Pop(mail, from), arrivals[1..], Append(sent, e.out));
    }
  }

  lemma WfPolled(n: nat, inbox: Mailbox, arrivals: seq<Mailbox>, sent: Mailbox, from: nat, sent': Mailbox)
    requires Boxes(n, inbox, arrivals) && arrivals != [] && 1 <= from <= n && |sent| == |sent'| == n + 1
    requires Append(inbox, arrivals[0])[from] != []
    ensures WfMail(inbox, arrivals, sent, n)
            <==> WfMail(Pop(Append(inbox, arrivals[0]), from), arrivals[1..], sent', n)
  {
    var mail := Append(inbox, arrivals[0]);
    assert Pop(mail, from)[0] == inbox[0] + arrivals[0][0];
    if WfMail(Pop(mail, from), arrivals[1..], sent', n) {
      forall k | 0 <= k < |arrivals|
        ensures arrivals[k][0] == []
      {
        assert k > 0 ==> arrivals[k] == arrivals[1..][k - 1];
      }
    }
  }

  lemma DrivenDue(n: nat, i: nat)
    ensures KeepsDue(Driven(n), Self(n, i))
  {
    forall e, inbox, arrivals, sent | Polled(Self(n, i), e, inbox, arrivals, sent)
      ensures Driven(n)(e.before, inbox, arrivals, sent)
              == Driven(n)(e.after, Remaining(e, Append(inbox, arrivals[0])), arrivals[1..], Append(sent, e.out))
    {
      TakesOne(n, i, e, inbox, arrivals, sent);
    }
  }

  lemma DrivenIdle(n: nat, i: nat)
    ensures KeepsIdle(Driven(n), Self(n, i))
  {
  }

  lemma DrivenObeys(n: nat, i: nat)
    ensures Obeys(Driven(n), Self(n, i))
  {
    DrivenQuiet(n, i);
    DrivenDue(n, i);
    DrivenIdle(n, i);
  }

  lemma SelfAttends(n: nat, i: nat)
    ensures Attends(Self(n, i))
  {
    forall e | OwnStep(n, i, e) && e.poll.Takes?
      ensures Due(Self(n, i), e, Just(n, e.poll))
    {
      DeliverOne(n, i, e.poll.from, e.poll.m);
    }
  }

  /** For every run of the global system, every child and every schedule of deliveries under
      which the child finds its messages in the order of the run, the driver brings the child
      to where the run has brought it, having sent the same and with the rest unread; and
      from there on both go on alike. */
  lemma {:induction false} Projection(n: nat, steps: seq<Step>, i: nat, arrivals: seq<Mailbox>, more: seq<Mailbox>)
    requires Runs(Init(n), steps) && Child(n, i) && WfMail(Nothing(n), arrivals + more, Nothing(n), n)
    requires Boxes(n, Nothing<Message>(n), arrivals)
    requires Fits(Self(n, i), InitProc(n, i), Events(Init(n), steps, i), Nothing(n), arrivals)
    ensures var es, p := Events(Init(n), steps, i), After(Init(n), steps).procs[i];
            && (forall k :: 0 <= k < |es| ==> |es[k].out| == n + 1)
            && var unread, sent := Unread(es, Nothing(n), arrivals), SentOver(es, Nothing(n));
               && WfMail(unread, more, sent, n)
               && Drive(InitProc(n, i), n, Nothing(n), arrivals + more, Nothing(n)) == Drive(p, n, unread, more, sent)
  {
    InitOk(n);
    EventsChain(Init(n), steps, i);
    DrivenObeys(n, i);
    var es := Events(Init(n), steps, i);
    BoxesJoined(n, arrivals, more);
    Follow(Driven(n), Self(n, i), InitProc(n, i), es, Nothing(n), arrivals, more, Nothing(n));
    IsDriven(n, InitProc(n, i), Nothing(n), arrivals + more, Nothing(n));
    DrivenIs(n, After(Init(n), steps).procs[i], Unread(es, Nothing(n), arrivals), more, SentOver(es, Nothing(n)));
  }

  lemma IsDriven(n: nat, p: Proc, inbox: Mailbox, arrivals: seq<Mailbox>, sent: Mailbox)
    requires WfProc(p, n) && WfMail(inbox, arrivals, sent, n)
    ensures Driven(n)(p, inbox, arrivals, sent) == Some(Drive(p, n, inbox, arrivals, sent))
  {
  }

  lemma DrivenIs(n: nat, p: Proc, inbox: Mailbox, arrivals: seq<Mailbox>, sent: Mailbox)
    requires Driven(n)(p, inbox, arrivals, sent).Some?
    ensures WfProc(p, n) && WfMail(inbox, arrivals, sent, n)
    ensures Driven(n)(p, inbox, arrivals, sent) == Some(Drive(p, n, inbox, arrivals, sent))
  {
  }

  /** There is such a schedule. */
  lemma {:induction false} Schedulable(n: nat, steps: seq<Step>, i: nat)
    requires Runs(Init(n), steps) && Child(n, i)
    ensures var es := Events(Init(n), steps, i);
            && WfMail(Nothing(n), Script(n, es), Nothing(n), n)
            && Fits(Self(n, i), InitProc(n, i), es, Nothing(n), Script(n, es))
  {
    InitOk(n);
    EventsChain(Init(n), steps, i);
    SelfAttends(n, i);
    ScriptFits(Self(n, i), InitProc(n, i), Events(Init(n), steps, i));
    ScriptSilent(n, i, InitProc(n, i), Events(Init(n), steps, i));
  }

  lemma {:induction false} ScriptSilent(n: nat, i: nat, p: Proc, es: seq<Own>)
    requires Chain(Self(n, i), p, es)
    ensures WfMail(Nothing(n), Script(n, es), Nothing(n), n)
    decreases |es|
  {
    if es != [] {
      ScriptSilent(n, i, es[0].after, es[1..]);
    }
  }

  // ---- what one child sends is what the other takes ----

  lemma {:induction false} MovesPlay(s: State, steps: seq<Step>)
    requires Wf(s) && Runs(s, steps)
    ensures Plays(s.n, s.ch, Moves(s, steps)) && Leaves(s.n, s.ch, Moves(s, steps)) == After(s, steps).ch
    decreases |steps|
  {
    if steps != [] {
      DeferSystem.OutLength(s, steps[0]);
      MovesPlay(Apply(s, steps[0]), steps[1..]);
      assert Moves(s, steps)[1..] == Moves(Apply(s, steps[0]), steps[1..]);
    }
  }

  /** What a child has sent to another is what that one has taken from it, and then what is
      in the channel between them. */
  lemma {:induction false} SentIsTaken(n: nat, steps: seq<Step>, i: nat, d: nat)
    requires Runs(Init(n), steps) && Pair(n, i, d)
    ensures var es := Events(Init(n), steps, i);
            && (forall k :: 0 <= k < |es| ==> |es[k].out| == n + 1)
            && |SentOver(es, Nothing(n))| == n + 1
            && SentOver(es, Nothing(n))[d]
               == TakenFrom(Events(Init(n), steps, d), i) + After(Init(n), steps).ch(i, d)
  {
    MovesPlay(Init(n), steps);
    OutIsTaken(n, Init(n).ch, Moves(Init(n), steps), i, d);
    SentIsOut(Events(Init(n), steps, i), Nothing(n), d);
  }
}
