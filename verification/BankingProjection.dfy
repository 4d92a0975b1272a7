/** Runs of the banking system, seen from one child: whatever is delivered when, a child that
    finds its messages in the order of the run does what it does in the run. */
module BankingProjection {
  import opened Network
  import opened Ipc
  import opened Schedule
  import opened Banking
  import opened BankingSafety
  import opened BankingTheorems
  import opened BankChild

  type Own = Event<Account, Order>

  ghost predicate Shape(a: Account, n: nat, i: nat) {
    a.id == i && (a.stage.Collecting? ==> 1 <= a.stage.next <= n && a.stage.next != i)
  }

  /** A step that the banking run lets child i take: any message in the main loop, or the
      DONE that it waits for. */
  ghost predicate OwnStep(n: nat, i: nat, e: Own) {
    && Network.Child(n, i) && Shape(e.before, n, i) && Shape(e.after, n, i) && |e.out| == n + 1
    && e.poll.Takes? && e.poll.from <= n && e.poll.from != i
    && match e.before.stage
       case Running => Receive(e.before, n, e.poll.m) == Result(e.after, e.out)
       case Collecting(next) =>
         e.poll.from == next && Collect(e.before, n, next, e.poll.m) == Result(e.after, e.out)
       case _ => false
  }

  /** A poll looks at all channels in the order of ids, or at that of the next DONE. */
  ghost function Look(a: Account, i: nat, mail: Mailbox): Option<nat> {
    if !a.stage.Collecting? then First(mail, i, 0)
    else if 0 <= a.stage.next < |mail| && mail[a.stage.next] != [] then Some(a.stage.next)
    else None
  }

  ghost function Self(n: nat, i: nat): Process<Account, Order> {
    Process(n, 0, (a: Account, mail: Mailbox) => Look(a, i, mail),
            (a: Account) => Network.Child(n, i) && Shape(a, n, i) && (a.stage == Running || a.stage.Collecting?),
            (e: Own) => OwnStep(n, i, e))
  }

  ghost function Mover(step: Step): int {
    match step
    case ReceiveStep(i, _) => i
    case CollectStep(i) => i
    case _ => 0
  }

  lemma Partners(s: State, step: Step)
    requires Inv(s) && Enabled(s, step)
    ensures step.AckStep? ==> Network.Child(s.n, s.parent.dst)
    ensures step.CollectStep? ==> Pair(s.n, s.accounts[step.i].stage.next, step.i)
  {
    if step.CollectStep? {
      CollectsFinish(s, step.i);
    }
  }

  /** The parent's steps are there for what they send and take. */
  ghost function EventOf(s: State, step: Step): Own
    requires Inv(s) && Enabled(s, step)
  {
    Partners(s, step);
    match step
    case TransferStep(src, dst, amount) =>
      Event(s.accounts[0], NoPoll, s.accounts[0], Single(s.n, src, Transfer(src, dst, amount, s.clock + 1)))
    case AckStep =>
      Event(s.accounts[0], Takes(s.parent.dst, s.ch(s.parent.dst, 0)[0]), s.accounts[0], Nothing(s.n))
    case StopStep =>
      Event(s.accounts[0], NoPoll, s.accounts[0], ToAll(s.n, 0, Stop(s.clock + 1)))
    case ReceiveStep(i, from) =>
      var r := Receive(s.accounts[i], s.n, s.ch(from, i)[0]);
      Event(s.accounts[i], Takes(from, s.ch(from, i)[0]), r.account, r.out)
    case CollectStep(i) =>
      var j := s.accounts[i].stage.next;
      var r := Collect(s.accounts[i], s.n, j, s.ch(j, i)[0]);
      Event(s.accounts[i], Takes(j, s.ch(j, i)[0]), r.account, r.out)
  }

  ghost function Moves(s: State, steps: seq<Step>): seq<Move<Account, Order>>
    requires Inv(s) && Runs(s, steps)
    decreases |steps|
  {
    if steps == [] then []
    else
      InvKept(s, steps[0]);
      [Move(Mover(steps[0]), EventOf(s, steps[0]))] + Moves(Apply(s, steps[0]), steps[1..])
  }

  /** The steps of child i in a run. */
  ghost function Events(s: State, steps: seq<Step>, i: nat): seq<Own>
    requires Inv(s) && Runs(s, steps)
  {
    Of(Moves(s, steps), i)
  }

  lemma EventsNext(s: State, steps: seq<Step>, i: nat)
    requires Inv(s) && Runs(s, steps) && steps != [] && Inv(Apply(s, steps[0]))
    ensures Events(s, steps, i)
            == (if Mover(steps[0]) == i then [EventOf(s, steps[0])] else [])
               + Events(Apply(s, steps[0]), steps[1..], i)
  {
  }

  lemma EventIsOwn(s: State, step: Step)
    requires Inv(s) && Enabled(s, step) && Mover(step) != 0
    ensures OwnStep(s.n, Mover(step), EventOf(s, step))
  {
    Partners(s, step);
    match step
    case ReceiveStep(i, from) =>
      ReceiveShape(s.accounts[i], s.n, s.ch(from, i)[0]);
    case CollectStep(i) =>
  }

  lemma {:induction false} EventsChain(s: State, steps: seq<Step>, i: nat)
    requires Inv(s) && Runs(s, steps) && Network.Child(s.n, i)
    ensures Chain(Self(s.n, i), s.accounts[i], Events(s, steps, i))
    ensures Final(s.accounts[i], Events(s, steps, i)) == After(s, steps).accounts[i]
    decreases |steps|
  {
    if steps != [] {
      var step, s', rest := steps[0], Apply(s, steps[0]), steps[1..];
      InvKept(s, step);
      EventsChain(s', rest, i);
      EventsNext(s, steps, i);
      if Mover(step) == i {
        EventIsOwn(s, step);
        ChainOn(Self(s.n, i), EventOf(s, step), Events(s', rest, i));
      } else {
        assert Events(s, steps, i) == Events(s', rest, i);
      }
    }
  }

  // ---- the life of the program's child obeys ----

  /** A life, without the details once the history has overrun its array. */
  function Seen(life: Life): Life {
    if life.ending == Overrun then Life(Account(0, 0, 0, [], Broken, []), [], Overrun) else life
  }

  ghost function Lived(n: nat, i: nat, cap: nat): Fate<Account, Order, Option<Life>> {
    (a: Account, inbox: Mailbox, arrivals: seq<Mailbox>, sent: Mailbox) =>
      if Network.Child(n, i) && Shape(a, n, i) && WfMail(inbox, arrivals, sent, n) then
        Some(Seen(Live(a, n, cap, inbox, arrivals, sent)))
      else None
  }

  lemma HistoryGrows(n: nat, i: nat, e: Own)
    requires OwnStep(n, i, e)
    ensures |e.before.history| <= |e.after.history|
  {
  }

  lemma TakesOne(n: nat, i: nat, cap: nat, e: Own, inbox: Mailbox, arrivals: seq<Mailbox>, sent: Mailbox)
    requires Polled(Self(n, i), e, inbox, arrivals, sent)
    ensures Lived(n, i, cap)(e.before, inbox, arrivals, sent)
            == Lived(n, i, cap)(e.after, Remaining(e, Append(inbox, arrivals[0])), arrivals[1..], Append(sent, e.out))
  {
    HistoryGrows(n, i, e);
    var mail, from := Append(inbox, arrivals[0]), e.poll.from;
    assert WfMail(inbox, arrivals, sent, n) && WfMail(Pop(mail, from), arrivals[1..], Append(sent, e.out), n);
    assert Look(e.before, i, mail) == Some(from) && mail[from][0] == e.poll.m;
    if |e.before.history| <= cap {
      assert Live(e.before, n, cap, inbox, arrivals, sent)
          == Live(e.after, n, cap, Pop(mail, from), arrivals[1..], Append(sent, e.out));
    }
  }

  lemma LivedObeys(n: nat, i: nat, cap: nat)
    ensures Obeys(Lived(n, i, cap), Self(n, i))
  {
    forall e, inbox, arrivals, sent | Polled(Self(n, i), e, inbox, arrivals, sent)
      ensures Lived(n, i, cap)(e.before, inbox, arrivals, sent)
              == Lived(n, i, cap)(e.after, Remaining(e, Append(inbox, arrivals[0])), arrivals[1..], Append(sent, e.out))
    {
      TakesOne(n, i, cap, e, inbox, arrivals, sent);
    }
    LivedIdle(n, i, cap);
  }

  lemma WaitsOn(n: nat, i: nat, cap: nat, a: Account, inbox: Mailbox, arrivals: seq<Mailbox>, sent: Mailbox)
    requires Schedule.Idle(Self(n, i), a, inbox, arrivals, sent)
    ensures Lived(n, i, cap)(a, inbox, arrivals, sent)
            == Lived(n, i, cap)(a, Append(inbox, arrivals[0]), arrivals[1..], sent)
  {
    assert WfMail(inbox, arrivals, sent, n) && WfMail(Append(inbox, arrivals[0]), arrivals[1..], sent, n);
    assert Look(a, i, Append(inbox, arrivals[0])) == None;
    assert Live(a, n, cap, inbox, arrivals, sent) == Live(a, n, cap, Append(inbox, arrivals[0]), arrivals[1..], sent);
  }

  lemma LivedIdle(n: nat, i: nat, cap: nat)
    ensures KeepsIdle(Lived(n, i, cap), Self(n, i))
  {
    forall a, inbox, arrivals, sent | Schedule.Idle(Self(n, i), a, inbox, arrivals, sent)
      ensures Lived(n, i, cap)(a, inbox, arrivals, sent)
              == Lived(n, i, cap)(a, Append(inbox, arrivals[0]), arrivals[1..], sent)
    {
      WaitsOn(n, i, cap, a, inbox, arrivals, sent);
    }
  }

  lemma SelfAttends(n: nat, i: nat)
    ensures Attends(Self(n, i))
  {
    forall e | OwnStep(n, i, e)
      ensures Due(Self(n, i), e, Just(n, e.poll))
    {
      DeliverOne(n, i, e.poll.from, e.poll.m);
    }
  }

  /** The steps of process i in a run from the start. */
  ghost function RunEvents(n: nat, start: seq<int>, steps: seq<Step>, i: nat): seq<Own>
    requires |start| == n + 1 && Runs(Init(n, start), steps)
  {
    InitOk(n, start);
    Events(Init(n, start), steps, i)
  }

  /** For every run of the banking system, every child and every schedule of deliveries under
      which the child finds its messages in the order of the run, the program's child gets
      to where the run has brought it, having sent the same and with the rest unread; and
      from there on both go on alike. If the history does not fit the array, the child
      overruns it. */
  lemma {:induction false} Projection(
      n: nat, start: seq<int>, steps: seq<Step>, i: nat, cap: nat, arrivals: seq<Mailbox>, more: seq<Mailbox>)
    requires |start| == n + 1 && Runs(Init(n, start), steps) && Network.Child(n, i)
    requires WfMail(Nothing(n), arrivals + more, Nothing(n), n)
    requires Boxes(n, Nothing<Order>(n), arrivals)
    requires Fits(Self(n, i), Init(n, start).accounts[i], RunEvents(n, start, steps, i), Nothing(n), arrivals)
    ensures var es, a := RunEvents(n, start, steps, i), After(Init(n, start), steps).accounts[i];
            && Shape(a, n, i) && (forall k :: 0 <= k < |es| ==> |es[k].out| == n + 1)
            && var unread, sent := Unread(es, Nothing(n), arrivals), SentOver(es, Nothing(n));
               && WfMail(unread, more, sent, n)
               && Seen(Live(Init(n, start).accounts[i], n, cap, Nothing(n), arrivals + more, Nothing(n)))
                  == Seen(Live(a, n, cap, unread, more, sent))
  {
    InitOk(n, start);
    var s, es := Init(n, start), RunEvents(n, start, steps, i);
    EventsChain(s, steps, i);
    LivedObeys(n, i, cap);
    BoxesJoined(n, arrivals, more);
    Follow(Lived(n, i, cap), Self(n, i), s.accounts[i], es, Nothing(n), arrivals, more, Nothing(n));
    IsLived(n, i, cap, s.accounts[i], Nothing(n), arrivals + more, Nothing(n));
    LivedIs(n, i, cap, After(s, steps).accounts[i], Unread(es, Nothing(n), arrivals), more, SentOver(es, Nothing(n)));
  }

  lemma IsLived(n: nat, i: nat, cap: nat, a: Account, inbox: Mailbox, arrivals: seq<Mailbox>, sent: Mailbox)
    requires Network.Child(n, i) && Shape(a, n, i) && WfMail(inbox, arrivals, sent, n)
    ensures Lived(n, i, cap)(a, inbox, arrivals, sent) == Some(Seen(Live(a, n, cap, inbox, arrivals, sent)))
  {
  }

  lemma LivedIs(n: nat, i: nat, cap: nat, a: Account, inbox: Mailbox, arrivals: seq<Mailbox>, sent: Mailbox)
    requires Lived(n, i, cap)(a, inbox, arrivals, sent).Some?
    ensures Shape(a, n, i) && WfMail(inbox, arrivals, sent, n)
    ensures Lived(n, i, cap)(a, inbox, arrivals, sent) == Some(Seen(Live(a, n, cap, inbox, arrivals, sent)))
  {
  }

  /** There is such a schedule: one poll for every step of the child. */
  lemma {:induction false} Schedulable(n: nat, start: seq<int>, steps: seq<Step>, i: nat)
    requires |start| == n + 1 && Runs(Init(n, start), steps) && Network.Child(n, i)
    ensures var es := RunEvents(n, start, steps, i);
            && WfMail(Nothing(n), Script(n, es), Nothing(n), n)
            && Fits(Self(n, i), Init(n, start).accounts[i], es, Nothing(n), Script(n, es))
  {
    InitOk(n, start);
    EventsChain(Init(n, start), steps, i);
    SelfAttends(n, i);
    ScriptFits(Self(n, i), Init(n, start).accounts[i], RunEvents(n, start, steps, i));
  }

  // ---- what one process sends is what the other takes ----

  lemma {:induction false} MovesPlay(s: State, steps: seq<Step>)
    requires Inv(s) && Runs(s, steps)
    ensures Plays(s.n, s.ch, Moves(s, steps)) && Same(Leaves(s.n, s.ch, Moves(s, steps)), After(s, steps).ch)
    decreases |steps|
  {
    if steps != [] {
      var step, s', rest := steps[0], Apply(s, steps[0]), steps[1..];
      InvKept(s, step);
      MovePlays(s, step);
      MovesPlay(s', rest);
      SamePlays(s.n, s'.ch, Next(s.n, s.ch, Move(Mover(step), EventOf(s, step))), Moves(s', rest));
      assert Moves(s, steps)[1..] == Moves(s', rest);
    }
  }

  lemma MovePlays(s: State, step: Step)
    requires Inv(s) && Enabled(s, step)
    ensures var move := Move(Mover(step), EventOf(s, step));
            Possible(s.n, s.ch, move) && Same(Apply(s, step).ch, Next(s.n, s.ch, move))
  {
    if Mover(step) != 0 {
      EventIsOwn(s, step);
    }
  }

  /** What a process, the parent included, has sent to another is what that one has taken from
      it, and then what is in the channel between them. */
  lemma {:induction false} SentIsTaken(n: nat, start: seq<int>, steps: seq<Step>, i: nat, d: nat)
    requires |start| == n + 1 && Runs(Init(n, start), steps) && i != d && d <= n
    ensures var es := RunEvents(n, start, steps, i);
            && (forall k :: 0 <= k < |es| ==> |es[k].out| == n + 1)
            && |SentOver(es, Nothing(n))| == n + 1
            && SentOver(es, Nothing(n))[d]
               == TakenFrom(RunEvents(n, start, steps, d), i) + After(Init(n, start), steps).ch(i, d)
  {
    InitOk(n, start);
    var s := Init(n, start);
    MovesPlay(s, steps);
    OutIsTaken(n, s.ch, Moves(s, steps), i, d);
    SentIsOut(Events(s, steps, i), Nothing(n), d);
  }
}
