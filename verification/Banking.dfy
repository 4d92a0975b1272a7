/** The banking run under Lamport time: children that keep a history of their balance,
    and a parent that orders transfers one at a time. */
module Banking {
  import opened Network
  import opened Stamps

  datatype Order =
    | Transfer(src: int, dst: int, amount: int, time: int)
    | Ack(time: int)
    | Stop(time: int)
    | Finish(time: int)

  /** One entry of a balance history. */
  datatype Entry = Entry(balance: int, time: int, pending: int)

  /** Running: in the main loop; Collecting(j): waiting for the DONE of child j;
      Reported: the history has been sent; Broken: an assertion, a message type check or
      the indexing of the history has failed. */
  datatype Stage = Running | Collecting(next: int) | Reported | Broken

  /** One child. events records, for every transfer handled, the time it was received at
      and the change of the balance. */
  datatype Account = Account(
    id: int, clock: int, balance: int, history: seq<Entry>, stage: Stage, events: seq<(int, int)>)

  datatype Result = Result(account: Account, out: Mail<Order>)

  /** The history loop: entries with the current balance for all times before t. */
  function Fill(history: seq<Entry>, balance: int, t: int): (h: seq<Entry>)
    ensures |h| == if |history| < t then t else |history|
  {
    if |history| >= t then history
    else history + seq(t - |history|, k => Entry(balance, |history| + k, 0))
  }

  /** `record_history` stores at the entry's time and extends the length by one. */
  function Record(a: Account, e: Entry): Account {
    if e.time == |a.history| then a.(history := a.history + [e]) else a.(stage := Broken)
  }

  /** The child after c in the order of ids, without self. */
  function NextOther(self: int, c: int): int {
    if c + 1 == self then c + 2 else c + 1
  }

  /** After the last DONE: fill up to the final clock, then report. */
  function Conclude(a: Account, last: int): Account {
    var c := Sync(a.clock, last);
    a.(clock := c + 1, history := Fill(a.history, a.balance, c), stage := Reported)
  }

  /** Wait for the next child, or conclude. */
  function Advance(a: Account, n: nat, next: int, last: int): Account {
    if next > n then Conclude(a, last) else a.(stage := Collecting(next))
  }

  /** Clock and history on receipt of any message in the main loop. */
  function Arrive(a: Account, m: Order): Account {
    var c := Sync(a.clock, m.time);
    a.(clock := c, history := Fill(a.history, a.balance, c))
  }

  /** A transfer at its source: the money is pending until the destination's receipt. */
  function Withdraw(a: Account, m: Order): Account
    requires m.Transfer?
  {
    var recv := a.clock;
    var b := a.balance - m.amount;
    var c := a.(clock := recv + 1, balance := b, events := a.events + [(recv, -m.amount)]);
    Record(Record(c, Entry(b, recv, m.amount)), Entry(b, recv + 1, m.amount))
  }

  function Deposit(a: Account, m: Order): Account
    requires m.Transfer?
  {
    a.(clock := a.clock + 1, balance := a.balance + m.amount, events := a.events + [(a.clock, m.amount)])
  }

  /** A transfer in the main loop, at either end. */
  function Deliver(b: Account, n: nat, m: Order): Result
    requires m.Transfer?
  {
    if m.src == b.id then Result(Withdraw(b, m), Single(n, m.dst, m.(time := b.clock + 1)))
    else if m.dst == b.id then Result(Deposit(b, m), Single(n, 0, Ack(b.clock + 1)))
    else Result(b.(clock := b.clock + 1), Nothing(n))
  }

  /** One message in the main loop. */
  function Receive(a: Account, n: nat, m: Order): Result {
    var b := Arrive(a, m);
    match m
    case Stop(_) =>
      var t := b.clock + 1;
      Result(Advance(b.(clock := t), n, NextOther(a.id, 0), t), ToAll(n, a.id, Finish(t)))
    case Transfer(_, _, _, _) => Deliver(b, n, m)
    case _ => Result(b, Nothing(n))
  }

  /** One message while collecting DONE from child j. */
  function Collect(a: Account, n: nat, j: int, m: Order): Result {
    if !m.Finish? then Result(a.(stage := Broken), Nothing(n))
    else Result(Advance(a.(clock := Sync(a.clock, m.time)), n, NextOther(a.id, j), m.time), Nothing(n))
  }

  // ---- the global system ----

  /** Ready: between transfers; Awaiting(dst): inside `transfer`; Stopped: STOP is sent;
      Failed: the assertion on the acknowledgement has failed. */
  datatype Parent = Ready | Awaiting(dst: int) | Stopped | Failed

  /** Where the money of the current transfer is (recorded for the proofs only). */
  datatype Flight = Quiet | ToSource(order: Order) | ToTarget(order: Order) | Returning(dst: int, time: int)

  /** done counts completed transfers; start holds the initial balances. */
  datatype State = State(
    n: nat, clock: int, parent: Parent, done: nat, start: seq<int>, accounts: seq<Account>,
    ch: Channels<Order>, flight: Flight)

  datatype Step =
    | TransferStep(src: int, dst: int, amount: int)
    | AckStep
    | StopStep
    | ReceiveStep(i: int, from: int)
    | CollectStep(i: int)

  ghost predicate Wf(s: State) {
    |s.accounts| == s.n + 1 && |s.start| == s.n + 1 &&
    forall i :: 0 <= i <= s.n ==> s.accounts[i].id == i
  }

  /** After the start barrier: children's clocks show n, the parent's n + 1. */
  function Init(n: nat, start: seq<int>): State
    requires |start| == n + 1
  {
    State(n, n + 1, Ready, 0, start,
          seq(n + 1, i requires 0 <= i < n + 1 => Account(i, n, start[i], [Entry(start[i], 0, 0)], Running, [])),
          (a: int, b: int) => [], Quiet)
  }

  ghost predicate Enabled(s: State, step: Step)
    requires Wf(s)
  {
    match step
    case TransferStep(src, dst, _) => Pair(s.n, src, dst) && s.parent == Ready
    case AckStep => s.parent.Awaiting? && s.ch(s.parent.dst, 0) != []
    case StopStep => s.parent == Ready
    case ReceiveStep(i, from) =>
      Child(s.n, i) && 0 <= from <= s.n && from != i && s.ch(from, i) != [] && s.accounts[i].stage == Running
    case CollectStep(i) =>
      Child(s.n, i) && s.accounts[i].stage.Collecting? && s.ch(s.accounts[i].stage.next, i) != []
  }

  ghost function NextFlight(s: State, m: Order): Flight {
    match s.flight
    case ToSource(_) => if m.Transfer? then ToTarget(m.(time := m.time + 2)) else s.flight
    case ToTarget(_) => if m.Transfer? then Returning(m.dst, m.time + 2) else s.flight
    case _ => s.flight
  }

  ghost function Apply(s: State, step: Step): (s': State)
    requires Wf(s) && Enabled(s, step)
    ensures Wf(s')
  {
    match step
    case TransferStep(src, dst, amount) =>
      var m := Transfer(src, dst, amount, s.clock + 1);
      s.(clock := s.clock + 1, parent := Awaiting(dst), ch := Emit(s.ch, 0, Single(s.n, src, m)), flight := ToSource(m))
    case AckStep =>
      var dst := s.parent.dst;
      var m := s.ch(dst, 0)[0];
      s.(clock := Sync(s.clock, m.time), parent := if m.Ack? then Ready else Failed, done := s.done + 1,
         ch := Consume(s.ch, dst, 0), flight := Quiet)
    case StopStep =>
      s.(clock := s.clock + 1, parent := Stopped, ch := Emit(s.ch, 0, ToAll(s.n, 0, Stop(s.clock + 1))))
    case ReceiveStep(i, from) =>
      var m := s.ch(from, i)[0];
      var r := Receive(s.accounts[i], s.n, m);
      s.(accounts := s.accounts[i := r.account], ch := Emit(Consume(s.ch, from, i), i, r.out),
         flight := NextFlight(s, m))
    case CollectStep(i) =>
      var j := s.accounts[i].stage.next;
      var r := Collect(s.accounts[i], s.n, j, s.ch(j, i)[0]);
      s.(accounts := s.accounts[i := r.account], ch := Emit(Consume(s.ch, j, i), i, r.out))
  }
}
