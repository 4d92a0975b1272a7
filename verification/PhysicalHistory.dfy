/** The earlier banking child, which keeps its history by physical time. */
module PhysicalHistory {
  import opened Banking
  import opened BankingSafety

  datatype Message = Stop | Transfer(src: int, dst: int, amount: int) | Ack | Other

  /** A message with the time at which the main loop receives it. */
  datatype Arrival = Arrival(time: nat, m: Message)

  /** The change of self's balance by a message. */
  function Change(self: int, m: Message): int {
    if !m.Transfer? then 0
    else if m.src == self then -m.amount
    else if m.dst == self then m.amount
    else 0
  }

  /** The transfers handled, as (time of receipt, change). */
  function Events(self: int, arrivals: seq<Arrival>): (e: seq<(int, int)>)
    ensures |e| == |arrivals|
  {
    seq(|arrivals|, k requires 0 <= k < |arrivals| => (arrivals[k].time, Change(self, arrivals[k].m)))
  }

  /** What the child sends: the money on to its destination, or an acknowledgement to the
      parent. */
  function Sends(self: int, arrivals: seq<Arrival>): seq<(int, Message)> {
    if arrivals == [] then []
    else
      var m := arrivals[|arrivals| - 1].m;
      Sends(self, arrivals[..|arrivals| - 1]) + Sent(self, m)
  }

  function Sent(self: int, m: Message): seq<(int, Message)> {
    if !m.Transfer? then []
    else if m.src == self then [(m.dst, m)]
    else if m.dst == self then [(0, Message.Ack)]
    else []
  }

  lemma SendsNext(self: int, seen: seq<Arrival>, a: Arrival)
    ensures Sends(self, seen + [a]) == Sends(self, seen) + Sent(self, a.m)
  {
    assert (seen + [a])[..|seen|] == seen;
  }

  // ---- what the child's balance and messages mean ----

  function Total<T>(s: seq<T>, f: T -> int): int {
    if s == [] then 0 else Total(s[..|s| - 1], f) + f(s[|s| - 1])
  }

  lemma TotalNext<T>(s: seq<T>, x: T, f: T -> int)
    ensures Total(s + [x], f) == Total(s, f) + f(x)
  {
    assert (s + [x])[..|s|] == s;
  }

  predicate Leaves(self: int, m: Message) {
    m.Transfer? && m.src == self
  }

  predicate Comes(self: int, m: Message) {
    m.Transfer? && m.dst == self && m.src != self
  }

  /** The money that has left, or come, by time t. */
  function Paid(self: int, t: int): Arrival -> int {
    (a: Arrival) => if a.time <= t && Leaves(self, a.m) then a.m.amount else 0
  }

  function Gained(self: int, t: int): Arrival -> int {
    (a: Arrival) => if a.time <= t && Comes(self, a.m) then a.m.amount else 0
  }

  /** The balance at any time is the initial one without what has left and with what has come. */
  lemma {:induction false} BalanceIsFlow(self: int, start: int, arrivals: seq<Arrival>, t: int)
    ensures BalanceAt(start, Events(self, arrivals), t)
            == start - Total(arrivals, Paid(self, t)) + Total(arrivals, Gained(self, t))
    decreases |arrivals|
  {
    if arrivals != [] {
      var seen, a := arrivals[..|arrivals| - 1], arrivals[|arrivals| - 1];
      BalanceIsFlow(self, start, seen, t);
      assert Events(self, arrivals) == Events(self, seen) + [(a.time, Change(self, a.m))];
      BalanceAfter(start, Events(self, seen), a.time, Change(self, a.m), t);
    }
  }

  /** The money in a message sent to d, and in a message received that is to go on to d. */
  function MoneyTo(d: int): ((int, Message)) -> int {
    (x: (int, Message)) => if x.0 == d && x.1.Transfer? then x.1.amount else 0
  }

  function OrderedTo(self: int, d: int): Arrival -> int {
    (a: Arrival) => if Leaves(self, a.m) && a.m.dst == d then a.m.amount else 0
  }

  function IsAck(): ((int, Message)) -> int {
    (x: (int, Message)) => if x == (0, Message.Ack) then 1 else 0
  }

  function IsDeposit(self: int): Arrival -> int {
    (a: Arrival) => if Comes(self, a.m) then 1 else 0
  }

  function One<T>(): T -> int {
    (x: T) => 1
  }

  function IsHandled(self: int): Arrival -> int {
    (a: Arrival) => if Leaves(self, a.m) || Comes(self, a.m) then 1 else 0
  }

  /** What one message makes the child send is worth what the message is. */
  ghost predicate Matches(self: int, f: ((int, Message)) -> int, g: Arrival -> int) {
    forall a: Arrival :: (if Sent(self, a.m) == [] then 0 else f(Sent(self, a.m)[0])) == g(a)
  }

  lemma {:induction false} SendsTotal(self: int, arrivals: seq<Arrival>, f: ((int, Message)) -> int, g: Arrival -> int)
    requires Matches(self, f, g)
    ensures Total(Sends(self, arrivals), f) == Total(arrivals, g)
    decreases |arrivals|
  {
    if arrivals != [] {
      var seen, a := arrivals[..|arrivals| - 1], arrivals[|arrivals| - 1];
      SendsTotal(self, seen, f, g);
      if Sent(self, a.m) == [] {
        assert Sends(self, seen) + [] == Sends(self, seen);
      } else {
        assert Sent(self, a.m) == [Sent(self, a.m)[0]];
        TotalNext(Sends(self, seen), Sent(self, a.m)[0], f);
      }
    }
  }

  lemma {:induction false} TotalOnes<T>(s: seq<T>)
    ensures Total(s, One<T>()) == |s|
    decreases |s|
  {
    if s != [] {
      TotalOnes(s[..|s| - 1]);
    }
  }

  /** All money that is to go on to d is sent there, every deposit is acknowledged to the
      parent, and there is one message for each of either. */
  lemma {:induction false} SendsAre(self: int, arrivals: seq<Arrival>, d: int)
    ensures Total(Sends(self, arrivals), MoneyTo(d)) == Total(arrivals, OrderedTo(self, d))
    ensures Total(Sends(self, arrivals), IsAck()) == Total(arrivals, IsDeposit(self))
    ensures |Sends(self, arrivals)| == Total(arrivals, IsHandled(self))
  {
    SendsTotal(self, arrivals, MoneyTo(d), OrderedTo(self, d));
    SendsTotal(self, arrivals, IsAck(), IsDeposit(self));
    SendsTotal(self, arrivals, One<(int, Message)>(), IsHandled(self));
    TotalOnes(Sends(self, arrivals));
  }

  /** The messages up to and including STOP, received in the order of time. */
  ghost predicate Run(arrivals: seq<Arrival>) {
    && arrivals != [] && arrivals[|arrivals| - 1].m.Stop?
    && (forall k :: 0 <= k < |arrivals| - 1 ==> !arrivals[k].m.Stop?)
    && (forall k, l :: 0 <= k < l < |arrivals| ==> arrivals[k].time <= arrivals[l].time)
  }

  /** Entry k is for time k, with the balance as of time k, for every k up to the end. */
  ghost predicate Right(h: seq<Entry>, self: int, start: int, arrivals: seq<Arrival>)
    requires arrivals != []
  {
    && |h| == arrivals[|arrivals| - 1].time + 1
    && forall k :: 0 <= k < |h| ==> h[k] == Entry(BalanceAt(start, Events(self, arrivals), k), k, 0)
  }

  /** The state of the child between two messages, the last of which came at time last:
      the entries before that time are right, and the balance is the one since. */
  ghost predicate Between(h: seq<Entry>, balance: int, self: int, start: int, seen: seq<Arrival>, last: nat) {
    && |h| == (if last > 1 then last else 1) && h[0] == Entry(start, 0, 0)
    && (forall k :: 1 <= k < |h| ==> h[k] == Entry(BalanceAt(start, Events(self, seen), k), k, 0))
    && (forall t :: t >= last ==> BalanceAt(start, Events(self, seen), t) == balance)
  }

  /** Filling up to the next time of receipt leaves the child between the same messages. */
  lemma FilledBetween(h: seq<Entry>, balance: int, self: int, start: int, seen: seq<Arrival>, last: nat, next: nat)
    requires Between(h, balance, self, start, seen, last) && last <= next
    ensures Between(Fill(h, balance, next), balance, self, start, seen, next)
  {
  }

  /** A message received at that time changes no entry before it. */
  lemma ReceivedBetween(h: seq<Entry>, balance: int, self: int, start: int, seen: seq<Arrival>, a: Arrival)
    requires Between(h, balance, self, start, seen, a.time)
    ensures Between(h, balance + Change(self, a.m), self, start, seen + [a], a.time)
  {
    forall t
      ensures BalanceAt(start, Events(self, seen + [a]), t) ==
              BalanceAt(start, Events(self, seen), t) + if a.time <= t then Change(self, a.m) else 0
    {
      assert Events(self, seen + [a]) == Events(self, seen) + [(a.time, Change(self, a.m))];
      BalanceAfter(start, Events(self, seen), a.time, Change(self, a.m), t);
    }
  }

  /** The loop that fills in the missing entries. */
  method FillTo(entries: array<Entry>, len0: nat, balance: int, t: nat) returns (len: nat)
    requires len0 <= entries.Length && t <= entries.Length
    modifies entries
    ensures len <= entries.Length && entries[..len] == Fill(old(entries[..len0]), balance, t)
  {
    len := len0;
    while len < t
      invariant len0 <= len <= entries.Length && (len <= t || len == len0)
      invariant entries[..len] == Fill(old(entries[..len0]), balance, len)
    {
      entries[len] := Entry(balance, len, 0);
      len := len + 1;
    }
  }

  /** `child_entry`, up to the report: an array written in place. The history is right
      exactly if STOP comes after time 0 and the transfers received at time 0 cancel out. */
  method ChildEntry(self: int, start: int, arrivals: seq<Arrival>, entries: array<Entry>)
    returns (len: nat, balance: int, sent: seq<(int, Message)>)
    requires Run(arrivals) && arrivals[|arrivals| - 1].time < entries.Length && 2 <= entries.Length
    modifies entries
    ensures len <= entries.Length
    ensures balance == BalanceAt(start, Events(self, arrivals), arrivals[|arrivals| - 1].time)
    ensures var t := arrivals[|arrivals| - 1].time;
            balance == start - Total(arrivals, Paid(self, t)) + Total(arrivals, Gained(self, t))
    ensures sent == Sends(self, arrivals)
    ensures Right(entries[..len], self, start, arrivals) <==>
              arrivals[|arrivals| - 1].time > 0 && BalanceAt(start, Events(self, arrivals), 0) == start
  {
    len, balance, sent := 1, start, [];
    entries[0] := Entry(start, 0, 0);
    var i := 0;
    ghost var last: nat := 0;
    while true
      invariant 0 <= i < |arrivals| && len <= entries.Length && last <= arrivals[i].time
      invariant sent == Sends(self, arrivals[..i])
      invariant Between(entries[..len], balance, self, start, arrivals[..i], last)
      decreases |arrivals| - i
    {
      len, balance, sent := Receive(self, start, arrivals[i], entries, len, balance, sent, arrivals[..i], last);
      assert arrivals[..i] + [arrivals[i]] == arrivals[..i + 1];
      if arrivals[i].m.Stop? {
        break;
      }
      i, last := i + 1, arrivals[i].time;
    }
    assert arrivals[..i + 1] == arrivals;
    BalanceIsFlow(self, start, arrivals, arrivals[i].time);
    len := Finish(self, start, arrivals, entries, len, balance);
  }

  /** One message in the main loop. */
  method Receive(self: int, start: int, a: Arrival, entries: array<Entry>, len0: nat, balance0: int,
                 sent0: seq<(int, Message)>, ghost seen: seq<Arrival>, ghost last: nat)
    returns (len: nat, balance: int, sent: seq<(int, Message)>)
    requires len0 <= entries.Length && last <= a.time < entries.Length
    requires Between(entries[..len0], balance0, self, start, seen, last) && sent0 == Sends(self, seen)
    modifies entries
    ensures len <= entries.Length && sent == Sends(self, seen + [a])
    ensures Between(entries[..len], balance, self, start, seen + [a], a.time)
  {
    FilledBetween(entries[..len0], balance0, self, start, seen, last, a.time);
    len := FillTo(entries, len0, balance0, a.time);
    ReceivedBetween(entries[..len], balance0, self, start, seen, a);
    SendsNext(self, seen, a);
    balance, sent := balance0, sent0;
    if a.m.Transfer? {
      if a.m.src == self {
        balance := balance - a.m.amount;
        sent := sent + [(a.m.dst, a.m)];
      } else if a.m.dst == self {
        balance := balance + a.m.amount;
        sent := sent + [(0, Message.Ack)];
      }
    }
  }

  /** The last entry, on STOP. */
  method Finish(self: int, start: int, arrivals: seq<Arrival>, entries: array<Entry>, len0: nat, balance: int)
    returns (len: nat)
    requires Run(arrivals) && arrivals[|arrivals| - 1].time < entries.Length && 2 <= entries.Length
    requires len0 <= entries.Length
    requires Between(entries[..len0], balance, self, start, arrivals, arrivals[|arrivals| - 1].time)
    modifies entries
    ensures len <= entries.Length
    ensures Right(entries[..len], self, start, arrivals) <==>
              arrivals[|arrivals| - 1].time > 0 && BalanceAt(start, Events(self, arrivals), 0) == start
  {
    var recv := arrivals[|arrivals| - 1].time;
    entries[recv] := Entry(balance, recv, 0);
    len := len0 + 1;
  }

  /** A transfer received at time 0, then STOP. */
  function EarlyTransfer(): seq<Arrival> {
    [Arrival(0, Message.Transfer(1, 2, 5)), Arrival(1, Message.Stop)]
  }

  /** There it fails: the first entry, written before, still shows the old balance. */
  method WrongAtTimeZero(start: int, entries: array<Entry>) returns (len: nat)
    requires 2 <= entries.Length
    modifies entries
    ensures len <= entries.Length && !Right(entries[..len], 1, start, EarlyTransfer())
  {
    BalanceAtZero(start);
    var balance, sent;
    len, balance, sent := ChildEntry(1, start, EarlyTransfer(), entries);
  }

  lemma BalanceAtZero(start: int)
    ensures BalanceAt(start, Events(1, EarlyTransfer()), 0) == start - 5
  {
    var events := Events(1, EarlyTransfer());
    assert events == [(0, -5), (1, 0)];
    assert events[..1] == [(0, -5)];
    assert BalanceAt(start, [(0, -5)], 0) == start - 5;
  }
}
