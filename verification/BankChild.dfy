/** A child of the banking run as the program runs it: the history is a fixed array written
    in place. It is proved to take the steps of Banking for as long as the array has room. */
module BankChild {
  import opened Network
  import opened Ipc
  import opened LamportTime
  import opened StartBarrier
  import opened Banking
  import opened BankingSafety

  type Mailbox = Mail<Order>

  /** Overrun: the history does not fit the array. */
  datatype Ending = Sent | Faulted | Overrun | Unscheduled

  datatype Life = Life(account: Account, sent: Mailbox, ending: Ending)

  ghost predicate WfMail(inbox: Mailbox, arrivals: seq<Mailbox>, sent: Mailbox, n: nat) {
    && |inbox| == n + 1 && |sent| == n + 1
    && forall k :: 0 <= k < |arrivals| ==> |arrivals[k]| == n + 1
  }

  /** The life of a child under the steps of the banking run, with room for cap entries. */
  ghost function Live(a: Account, n: nat, cap: nat, inbox: Mailbox, arrivals: seq<Mailbox>, sent: Mailbox): Life
    requires WfMail(inbox, arrivals, sent, n) && 1 <= a.id <= n
    requires a.stage.Collecting? ==> 1 <= a.stage.next <= n
    decreases |arrivals|
  {
    if |a.history| > cap then Life(a, sent, Overrun)
    else if a.stage == Reported then Life(a, sent, Sent)
    else if a.stage == Broken then Life(a, sent, Faulted)
    else if arrivals == [] then Life(a, sent, Unscheduled)
    else
      var mail := Append(inbox, arrivals[0]);
      if a.stage == Running then
        match First(mail, a.id, 0)
        case None => Live(a, n, cap, mail, arrivals[1..], sent)
        case Some(from) =>
          var r := Receive(a, n, mail[from][0]);
          ReceiveShape(a, n, mail[from][0]);
          Live(r.account, n, cap, Pop(mail, from), arrivals[1..], Append(sent, r.out))
      else
        var j := a.stage.next;
        if mail[j] == [] then Live(a, n, cap, mail, arrivals[1..], sent)
        else
          var r := Collect(a, n, j, mail[j][0]);
          Live(r.account, n, cap, Pop(mail, j), arrivals[1..], Append(sent, r.out))
  }

  lemma ReceiveShape(a: Account, n: nat, m: Order)
    requires 1 <= a.id <= n && a.stage == Running
    ensures var r := Receive(a, n, m);
            && |r.out| == n + 1 && r.account.id == a.id
            && (r.account.stage.Collecting? ==> 1 <= r.account.stage.next <= n)
  {
  }

  /** A message that the main loop handles leaves the next free entry at most one past the
      clock, so that every entry recorded is recorded at the end. */
  lemma RecordsAtEnd(a: Account, m: Order)
    requires |a.history| <= a.clock + 1 && m.Transfer? && a.stage == Running
    ensures var b := Arrive(a, m);
            && |b.history| == b.clock
            && Withdraw(b, m).stage == Running
            && Withdraw(b, m).history == b.history + [Entry(b.balance - m.amount, b.clock, m.amount),
                                                     Entry(b.balance - m.amount, b.clock + 1, m.amount)]
  {
  }

  class BalanceHistory {
    const entries: array<Entry>
    var len: nat

    ghost predicate Valid()
      reads this
    {
      len <= entries.Length
    }

    ghost function Contents(): (h: seq<Entry>)
      requires Valid()
      reads this, entries
    {
      entries[..len]
    }

    constructor (cap: nat, balance: int)
      requires cap > 0
      ensures Valid() && fresh(entries) && entries.Length == cap
      ensures Contents() == [Entry(balance, 0, 0)]
    {
      entries := new Entry[cap](_ => Entry(balance, 0, 0));
      len := 1;
    }

    /** `record_history`: stored at the entry's time, whatever the length is. */
    method Record(e: Entry) returns (ok: bool)
      requires Valid() && 0 <= e.time
      modifies this, entries
      ensures ok == (e.time < entries.Length && old(len) < entries.Length)
      ensures Valid()
      ensures if ok then len == old(len) + 1 && entries[..] == old(entries[..])[e.time := e]
              else len == old(len) && entries[..] == old(entries[..])
      ensures ok && e.time == old(len) ==> Contents() == old(Contents()) + [e]
    {
      ok := e.time < entries.Length && len < entries.Length;
      if ok {
        entries[e.time] := e;
        len := len + 1;
      }
    }

    /** The loop that fills in the missing entries up to time t. */
    method FillTo(balance: int, t: int) returns (ok: bool)
      requires Valid()
      modifies this, entries
      ensures Valid() && ok == (|Fill(old(Contents()), balance, t)| <= entries.Length)
      ensures ok ==> Contents() == Fill(old(Contents()), balance, t)
    {
      ghost var before := Contents();
      ok := true;
      while len < t && ok
        invariant Valid() && |before| <= len
        invariant len <= t || len == |before|
        invariant Contents() == Fill(before, balance, len)
        invariant !ok ==> len == entries.Length < t
        decreases t - len, ok
      {
        ok := Record(Entry(balance, len, 0));
      }
    }
  }

  /** `child_entry`, in parts. */
  class Child {
    const n: nat
    const self: nat
    const io: Endpoint<Order>
    const clock: Clock
    const history: BalanceHistory
    var balance: int

    ghost predicate Valid()
      reads io, history
    {
      1 <= self <= n && io.self == self && io.n == n && io.Valid() && history.Valid()
    }

    ghost function Cap(): nat {
      history.entries.Length
    }

    /** The child's state as the protocol sees it; the stage and the past come from d. */
    ghost function View(d: Account): (a: Account)
      requires Valid()
      reads this, io, clock, history, history.entries
    {
      d.(id := self, clock := clock.time, balance := balance, history := history.Contents())
    }

    /** run is what the steps of the protocol make of the child from a on. */
    ghost predicate Follows(a: Account, run: Life)
      requires Valid()
      reads this, io, clock, history, history.entries
    {
      a.id == self && (a.stage.Collecting? ==> 1 <= a.stage.next <= n) &&
      Live(a, n, Cap(), io.inbox, io.arrivals, io.sent) == run
    }

    constructor (io: Endpoint<Order>, clock: Clock, cap: nat, balance: int)
      requires io.Valid() && io.self > 0 && cap > 0
      ensures Valid() && this.io == io && this.clock == clock && Cap() == cap
      ensures fresh(history) && fresh(history.entries)
      ensures View(Account(0, 0, 0, [], Running, []))
              == Account(io.self, clock.time, balance, [Entry(balance, 0, 0)], Running, [])
    {
      n, self, this.io, this.clock, this.balance := io.n, io.self, io, clock, balance;
      history := new BalanceHistory(cap, balance);
    }

    /** run is over, and ends as the child stands. */
    ghost predicate Ended(d: Account, run: Life, ending: Ending)
      requires Valid()
      reads this, io, clock, history, history.entries
    {
      ending == run.ending && (ending != Overrun ==> run.account == View(d) && run.sent == io.sent)
    }

    /** The same as Follows, with the DONE of every child before `next` already taken. */
    ghost predicate Waits(a: Account, next: int, last: int, sent: Mailbox, run: Life)
      requires Valid() && |sent| == n + 1 && a.id == self && 1 <= next
      reads this, io, clock, history, history.entries
    {
      Live(Advance(a.(stage := Running), n, next, last), n, Cap(), io.inbox, io.arrivals, sent) == run
    }

    /** Any message in the main loop first: the clock, then the missing entries. */
    method CatchUp(ghost d: Account, m: Order) returns (ok: bool)
      requires Valid()
      modifies clock, history, history.entries
      ensures Valid() && ok == (|Arrive(old(View(d)), m).history| <= Cap())
      ensures ok ==> View(d) == Arrive(old(View(d)), m)
    {
      clock.Synchronize(m.time);
      ok := history.FillTo(balance, clock.time);
    }

    /** A transfer in the main loop, after that. */
    method HandleTransfer(ghost d: Account, m: Order) returns (ok: bool, ghost e: Account)
      requires Valid() && m.Transfer? && d.stage == Running && history.len == clock.time
      modifies this, clock, history, history.entries, io`sent
      ensures Valid() && e.stage == Running
      ensures var r := Deliver(old(View(d)), n, m);
              && ok == (|r.account.history| <= Cap())
              && (ok ==> View(e) == r.account && |r.out| == n + 1 && io.sent == Append(old(io.sent), r.out))
    {
      ok, e := true, d;
      var recv := clock.time;
      clock.Advance();
      if m.src == self {
        balance := balance - m.amount;
        e := d.(events := d.events + [(recv, -m.amount)]);
        ok := history.Record(Entry(balance, recv, m.amount));
        if ok {
          ok := history.Record(Entry(balance, clock.time, m.amount));
        }
        if ok {
          Forward(m.dst, m.(time := clock.time));
        }
      } else if m.dst == self {
        balance := balance + m.amount;
        e := d.(events := d.events + [(recv, m.amount)]);
        io.Send(0, Ack(clock.time));
      } else {
        AppendNothing(io.sent, n);
      }
    }

    /** `send`, which refuses a process that does not exist. */
    method Forward(dst: int, m: Order)
      requires Valid()
      modifies io`sent
      ensures Valid() && io.sent == Append(old(io.sent), Single(n, dst, m))
    {
      if 0 <= dst <= n {
        io.Send(dst, m);
      } else {
        AppendNothing(io.sent, n);
        assert Single(n, dst, m) == Nothing(n);
      }
    }

    /** run is what becomes of the child once it has handled m. */
    ghost predicate Handles(a: Account, m: Order, run: Life)
      requires Valid() && a.id == self && a.stage == Running
      reads this, io, clock, history, history.entries
    {
      ReceiveShape(a, n, m);
      var r := Receive(a, n, m);
      Live(r.account, n, Cap(), io.inbox, io.arrivals, Append(io.sent, r.out)) == run
    }

    /** The child has left the main loop with m. */
    ghost predicate Leaves(d: Account, run: Life)
      requires Valid()
      reads this, io, clock, history, history.entries
    {
      var t := clock.time + 1;
      Waits(View(d).(clock := t), NextOther(self, 0), t, Append(io.sent, ToAll(n, self, Finish(t))), run)
    }

    /** One message in the main loop. */
    method Handle(ghost d: Account, m: Order, ghost run: Life) returns (ok: bool, ghost e: Account)
      requires Valid() && d.stage == Running && history.len <= clock.time + 1
      requires Handles(View(d), m, run)
      modifies this, clock, history, history.entries, io`sent
      ensures Valid() && e.stage == Running
      ensures !ok ==> run.ending == Overrun
      ensures ok && m.Stop? ==> Leaves(e, run)
      ensures ok && !m.Stop? ==> Follows(View(e), run) && history.len <= clock.time + 1
    {
      ghost var a := View(d);
      ReceiveGrows(a, n, m);
      e := d;
      ok := CatchUp(d, m);
      if ok {
        if m.Transfer? {
          ok, e := HandleTransfer(d, m);
        } else if m.Stop? {
          assert ToAll(n, self, Finish(clock.time + 1)) == ToAll(n, self, Finish(clock.time + 1));
        } else {
          AppendNothing(io.sent, n);
        }
      }
    }

    /** The main loop, up to STOP. */
    method MainLoop(ghost d0: Account, ghost run: Life) returns (stop: Option<Ending>, ghost d: Account)
      requires Valid() && d0.stage == Running && Follows(View(d0), run) && history.len <= clock.time + 1
      modifies this, clock, history, history.entries, io
      ensures Valid()
      ensures match stop
              case Some(e) => Ended(d, run, e)
              case None => d.stage == Running && Leaves(d, run)
      ensures stop == Some(Unscheduled) ==> io.arrivals == []
    {
      d := d0;
      while io.arrivals != []
        invariant Valid() && d.stage == Running && Follows(View(d), run) && history.len <= clock.time + 1
        decreases |io.arrivals|
      {
        var r := io.ReceiveAny();
        if r.Some? {
          var ok;
          ok, d := Handle(d, r.value.1, run);
          if !ok {
            return Some(Overrun), d;
          } else if r.value.1.Stop? {
            return None, d;
          }
        }
      }
      stop := Some(Unscheduled);
    }

    /** One poll for the DONE of child `from`; stop says how the child ends, if it does. */
    method TakeDone(ghost d: Account, from: nat, last: int, ghost run: Life)
      returns (stop: Option<Ending>, next: nat, stamp: int, ghost e: Account)
      requires Valid() && io.arrivals != [] && 1 <= from <= n && from != self
      requires Waits(View(d), from, last, io.sent, run)
      modifies clock, io
      ensures Valid() && io.arrivals == old(io.arrivals)[1..]
      ensures stop != Some(Unscheduled)
      ensures match stop
              case Some(ending) => Ended(e, run, ending)
              case None => e == d && 1 <= next && next != self && Waits(View(d), next, stamp, io.sent, run)
    {
      stop, next, stamp, e := None, from, last, d;
      var r := io.Receive(from);
      if r.Some? {
        AppendNothing(io.sent, n);
        if !r.value.Finish? {
          stop, e := Some(Faulted), d.(stage := Broken);
          BrokenEnds(View(e), n, Cap(), io.inbox, io.arrivals, io.sent);
          return;
        }
        clock.Synchronize(r.value.time);
        next, stamp := NextOther(self, from), r.value.time;
      }
    }

    /** `child_sync_done` and the report: DONE to everyone, one DONE from every other child
        in the order of ids, then the rest of the history. */
    method SyncDone(ghost d0: Account, ghost run: Life) returns (ending: Ending, ghost d: Account)
      requires Valid() && d0.stage == Running && Leaves(d0, run)
      modifies clock, history, history.entries, io
      ensures Valid() && Ended(d, run, ending) && (ending == Unscheduled ==> io.arrivals == [])
    {
      d := d0;
      clock.Advance();
      var last := clock.time;
      io.SendMulticast(Finish(last));
      var from := NextOther(self, 0);
      while from <= n
        invariant Valid() && 1 <= from && from != self && Waits(View(d), from, last, io.sent, run)
        decreases |io.arrivals|
      {
        if io.arrivals == [] {
          d := d.(stage := Collecting(from));
          return Unscheduled, d;
        }
        var stop;
        stop, from, last, d := TakeDone(d, from, last, run);
        if stop.Some? {
          return stop.value, d;
        }
      }
      ending, d := Report(d, last, run);
    }

    /** The last entries; the parent gets the history. */
    method Report(ghost d: Account, last: int, ghost run: Life) returns (ending: Ending, ghost e: Account)
      requires Valid() && Live(Conclude(View(d), last), n, Cap(), io.inbox, io.arrivals, io.sent) == run
      modifies clock, history, history.entries
      ensures Valid() && Ended(e, run, ending) && ending != Unscheduled
    {
      clock.Synchronize(last);
      var ok := history.FillTo(balance, clock.time);
      clock.Advance();
      ending, e := if ok then Sent else Overrun, d.(stage := Reported);
    }
  }

  /** The history never gets shorter, and stays within a tick of the clock. */
  lemma ReceiveGrows(a: Account, n: nat, m: Order)
    requires |a.history| <= a.clock + 1 && a.stage == Running
    ensures var r := Receive(a, n, m).account;
            && |Arrive(a, m).history| == Arrive(a, m).clock
            && |r.history| >= |Arrive(a, m).history|
            && (!m.Stop? ==> r.stage == Running && |r.history| <= r.clock + 1)
  {
  }

  /** Whatever arrives, and however a child ends short of a failed check or an overrun,
      entry k of its history is for time k and shows the balance as of time k. */
  lemma {:induction false} LiveKeeps(
      a: Account, start: int, n: nat, cap: nat, inbox: Mailbox, arrivals: seq<Mailbox>, sent: Mailbox)
    requires WfMail(inbox, arrivals, sent, n) && 1 <= a.id <= n
    requires a.stage.Collecting? ==> 1 <= a.stage.next <= n
    requires AccountOk(a, start)
    ensures var run := Live(a, n, cap, inbox, arrivals, sent);
            run.ending != Faulted ==> AccountOk(run.account, start)
    decreases |arrivals|
  {
    if |a.history| <= cap && a.stage != Reported && arrivals != [] {
      var mail := Append(inbox, arrivals[0]);
      if a.stage == Running {
        match First(mail, a.id, 0)
        case None => LiveKeeps(a, start, n, cap, mail, arrivals[1..], sent);
        case Some(from) =>
          var m := mail[from][0];
          var r := Receive(a, n, m);
          ReceiveShape(a, n, m);
          ReceiveKeepsAccount(a, start, n, m);
          LiveKeeps(r.account, start, n, cap, Pop(mail, from), arrivals[1..], Append(sent, r.out));
      } else {
        var j := a.stage.next;
        if mail[j] == [] {
          LiveKeeps(a, start, n, cap, mail, arrivals[1..], sent);
        } else if mail[j][0].Finish? {
          var r := Collect(a, n, j, mail[j][0]);
          CollectKeepsAccount(a, start, n, j, mail[j][0]);
          LiveKeeps(r.account, start, n, cap, Pop(mail, j), arrivals[1..], Append(sent, r.out));
        } else {
          BrokenEnds(a.(stage := Broken), n, cap, Pop(mail, j), arrivals[1..], Append(sent, Nothing(n)));
        }
      }
    }
  }

  /** While it collects, a child fails on exactly the messages that are not DONE. */
  lemma FaultsExactly(
      a: Account, n: nat, cap: nat, inbox: Mailbox, arrivals: seq<Mailbox>, sent: Mailbox, j: nat)
    requires WfMail(inbox, arrivals, sent, n) && 1 <= a.id <= n && 1 <= j <= n && arrivals != []
    requires a.stage == Collecting(j) && j != a.id && |a.history| <= cap && Append(inbox, arrivals[0])[j] != []
    ensures var mail := Append(inbox, arrivals[0]);
            var run, r := Live(a, n, cap, inbox, arrivals, sent), Collect(a, n, j, mail[j][0]);
            && (!mail[j][0].Finish? ==> run.ending == Faulted && run.sent == sent && run.account.history == a.history)
            && (mail[j][0].Finish? ==>
                  && r.account.clock > a.clock && r.account.clock > mail[j][0].time
                  && (r.account.stage == Reported || r.account.stage == Collecting(NextOther(a.id, j)))
                  && run == Live(r.account, n, cap, Pop(mail, j), arrivals[1..], sent))
  {
    AppendNothing(sent, n);
    var mail: Mailbox := Append(inbox, arrivals[0]);
    if !mail[j][0].Finish? {
      BrokenEnds(a.(stage := Broken), n, cap, Pop(mail, j), arrivals[1..], sent);
    }
  }

  lemma BrokenEnds(a: Account, n: nat, cap: nat, inbox: Mailbox, arrivals: seq<Mailbox>, sent: Mailbox)
    requires WfMail(inbox, arrivals, sent, n) && 1 <= a.id <= n && a.stage == Broken && |a.history| <= cap
    ensures Live(a, n, cap, inbox, arrivals, sent) == Life(a, sent, Faulted)
  {
  }

  /** `child_entry`: behind the start barrier, the history a child sends is the one the steps
      of the banking run give it, and every entry of it is right. */
  method ChildEntry(start: Endpoint<Signal>, io: Endpoint<Order>, clock: Clock, cap: nat, balance: int)
    returns (child: Child, ending: Ending, ghost run: Life)
    requires io.Valid() && io.self > 0 && clock.time == 0 && cap > 0
    requires start.Valid() && start.self == io.self && start.n == io.n && AllFirstTicks(start.inbox, start.arrivals)
    modifies start, io, clock
    ensures child.Valid() && child.io == io && child.clock == clock && ending == run.ending
    ensures start.sent == Append(old(start.sent), ToAll(io.n, io.self, Started(1)))
    ensures var a := Account(io.self, io.n, balance, [Entry(balance, 0, 0)], Running, []);
            if Awaited(old(start.inbox), old(start.arrivals), io.n, io.self, 1, 1).1 == Some(true)
            then run == Live(a, io.n, cap, old(io.inbox), old(io.arrivals), old(io.sent))
            else run == Life(a.(clock := clock.time), old(io.sent), Unscheduled)
    ensures ending != Overrun ==>
              child.history.Contents() == run.account.history && child.balance == run.account.balance &&
              clock.time == run.account.clock && io.sent == run.sent
    ensures ending == Sent ==> AccountOk(run.account, balance)
    ensures ending == Unscheduled ==> start.arrivals == [] || io.arrivals == []
  {
    child := new Child(io, clock, cap, balance);
    BarrierTime(start.inbox, start.arrivals, io.n, io.self, 1, 1);
    var started := SyncStarted(start, clock);
    assert started.None? || started.value;
    if started != Some(true) {
      ending := Unscheduled;
      run := Life(child.View(Account(0, 0, 0, [], Running, [])), io.sent, Unscheduled);
      return;
    }
    ending, run := Serve(child, balance);
  }

  /** The main loop, the exchange of DONE and the report. */
  method Serve(child: Child, start: int) returns (ending: Ending, ghost run: Life)
    requires child.Valid() && child.View(Account(0, 0, 0, [], Running, []))
                              == Account(child.self, child.n, start, [Entry(start, 0, 0)], Running, [])
    modifies child, child.io, child.clock, child.history, child.history.entries
    ensures child.Valid() && ending == run.ending && (ending == Unscheduled ==> child.io.arrivals == [])
    ensures run == Live(Account(child.self, child.n, start, [Entry(start, 0, 0)], Running, []), child.n, child.Cap(),
                        old(child.io.inbox), old(child.io.arrivals), old(child.io.sent))
    ensures ending != Overrun ==>
              child.history.Contents() == run.account.history && child.balance == run.account.balance &&
              child.clock.time == run.account.clock && child.io.sent == run.sent
    ensures ending == Sent ==> AccountOk(run.account, start)
  {
    ghost var d := Account(0, 0, 0, [], Running, []);
    ghost var a := child.View(d);
    var io := child.io;
    run := Live(a, child.n, child.Cap(), io.inbox, io.arrivals, io.sent);
    LiveKeeps(a, start, child.n, child.Cap(), io.inbox, io.arrivals, io.sent);
    var stop;
    stop, d := child.MainLoop(d, run);
    match stop
    case Some(e) => ending := e;
    case None => ending, d := child.SyncDone(d, run);
  }
}
