/** What every step of the banking run keeps: the shape and meaning of each history, the
    channel contents, and the total of money at every logical time. */
module BankingSafety {
  import opened Sums
  import opened Network
  import opened Stamps
  import opened Banking

  // ---- one account ----

  /** The initial balance plus all changes received at times up to t. */
  function BalanceAt(start: int, events: seq<(int, int)>, t: int): int {
    if events == [] then start
    else
      var last := events[|events| - 1];
      BalanceAt(start, events[..|events| - 1], t) + if last.0 <= t then last.1 else 0
  }

  lemma BalanceAfter(start: int, events: seq<(int, int)>, r: int, d: int, t: int)
    ensures BalanceAt(start, events + [(r, d)], t) == BalanceAt(start, events, t) + if r <= t then d else 0
  {
    assert (events + [(r, d)])[..|events|] == events;
  }

  /** Entry k is for time k, and shows the balance as of time k; beyond the recorded
      part the balance is the current one. */
  ghost predicate AccountOk(a: Account, start: int) {
    && a.stage != Broken
    && 1 <= |a.history| <= a.clock + 1
    && (forall k :: 0 <= k < |a.history| ==>
          a.history[k].time == k && a.history[k].balance == BalanceAt(start, a.events, k))
    && (forall k :: k >= |a.history| ==> BalanceAt(start, a.events, k) == a.balance)
  }

  lemma FillKeeps(a: Account, start: int, t: int)
    requires AccountOk(a, start)
    ensures var h := Fill(a.history, a.balance, t);
            && (forall k :: 0 <= k < |h| ==> h[k].time == k && h[k].balance == BalanceAt(start, a.events, k))
            && (forall k :: k >= |h| ==> BalanceAt(start, a.events, k) == a.balance)
  {
  }

  lemma ArriveKeeps(a: Account, start: int, m: Order)
    requires AccountOk(a, start)
    ensures AccountOk(Arrive(a, m), start)
    ensures |Arrive(a, m).history| == Arrive(a, m).clock == Sync(a.clock, m.time)
  {
    FillKeeps(a, start, Sync(a.clock, m.time));
  }

  lemma ConcludeKeeps(a: Account, start: int, last: int)
    requires AccountOk(a, start)
    ensures AccountOk(Conclude(a, last), start)
  {
    FillKeeps(a, start, Sync(a.clock, last));
  }

  lemma WithdrawKeeps(a: Account, start: int, m: Order)
    requires AccountOk(a, start) && |a.history| == a.clock && m.Transfer?
    ensures AccountOk(Withdraw(a, m), start)
  {
    forall k
      ensures BalanceAt(start, a.events + [(a.clock, -m.amount)], k) ==
              BalanceAt(start, a.events, k) + if a.clock <= k then -m.amount else 0
    {
      BalanceAfter(start, a.events, a.clock, -m.amount, k);
    }
  }

  lemma DepositKeeps(a: Account, start: int, m: Order)
    requires AccountOk(a, start) && |a.history| == a.clock && m.Transfer?
    ensures AccountOk(Deposit(a, m), start)
  {
    forall k
      ensures BalanceAt(start, a.events + [(a.clock, m.amount)], k) ==
              BalanceAt(start, a.events, k) + if a.clock <= k then m.amount else 0
    {
      BalanceAfter(start, a.events, a.clock, m.amount, k);
    }
  }

  lemma AdvanceKeeps(a: Account, start: int, n: nat, next: int, last: int)
    requires AccountOk(a, start)
    ensures AccountOk(Advance(a, n, next, last), start)
  {
    if next > n { ConcludeKeeps(a, start, last); }
  }

  /** Whatever the main loop receives, the history keeps its shape and meaning. */
  lemma ReceiveKeepsAccount(a: Account, start: int, n: nat, m: Order)
    requires AccountOk(a, start)
    ensures AccountOk(Receive(a, n, m).account, start)
  {
    ArriveKeeps(a, start, m);
    var b := Arrive(a, m);
    match m
    case Stop(_) =>
      AdvanceKeeps(b.(clock := b.clock + 1), start, n, NextOther(a.id, 0), b.clock + 1);
    case Transfer(_, _, _, _) =>
      WithdrawKeeps(b, start, m);
      DepositKeeps(b, start, m);
    case _ =>
  }

  lemma CollectKeepsAccount(a: Account, start: int, n: nat, j: int, m: Order)
    requires AccountOk(a, start) && m.Finish?
    ensures AccountOk(Collect(a, n, j, m).account, start)
  {
    AdvanceKeeps(a.(clock := Sync(a.clock, m.time)), start, n, NextOther(a.id, j), m.time);
  }

  // ---- money at a logical time ----

  /** Balance plus pending money of an account at time t, as recorded, or as the history
      loop would record it now. */
  ghost function Worth(a: Account, t: nat): int {
    if t < |a.history| then a.history[t].balance + a.history[t].pending else a.balance
  }

  lemma ArriveWorth(a: Account, m: Order, t: nat)
    ensures Worth(Arrive(a, m), t) == Worth(a, t)
  {
  }

  lemma AdvanceWorth(a: Account, n: nat, next: int, last: int, t: nat)
    ensures Worth(Advance(a, n, next, last), t) == Worth(a, t)
  {
  }

  /** A transfer is worth the same at its source up to its departure, and less from the
      next time on; at its destination it counts from the time of receipt. */
  lemma ReceiveWorth(a: Account, start: int, n: nat, m: Order, t: nat)
    requires AccountOk(a, start)
    ensures var recv := Sync(a.clock, m.time);
            Worth(Receive(a, n, m).account, t) == Worth(a, t) +
              if m.Transfer? && m.src == a.id then if t > recv + 1 then -m.amount else 0
              else if m.Transfer? && m.dst == a.id then if t >= recv then m.amount else 0
              else 0
  {
    ArriveKeeps(a, start, m);
    ArriveWorth(a, m, t);
    var b := Arrive(a, m);
    if m.Stop? {
      AdvanceWorth(b.(clock := b.clock + 1), n, NextOther(a.id, 0), b.clock + 1, t);
    }
  }

  lemma CollectWorth(a: Account, n: nat, j: int, m: Order, t: nat)
    ensures Worth(Collect(a, n, j, m).account, t) == Worth(a, t)
  {
    AdvanceWorth(a.(clock := Sync(a.clock, m.time)), n, NextOther(a.id, j), m.time, t);
  }

  /** Total of balances and pending money at time t. */
  ghost function Wealth(s: State, t: nat): int
    requires Wf(s)
  {
    Sum(s.n, i => if Child(s.n, i) then Worth(s.accounts[i], t) else 0)
  }

  ghost function InitialWealth(s: State): int
    requires Wf(s)
  {
    Sum(s.n, i => if Child(s.n, i) then s.start[i] else 0)
  }

  // ---- the whole system ----

  ghost predicate AccountsOk(s: State)
    requires Wf(s)
  {
    forall i :: Child(s.n, i) ==> AccountOk(s.accounts[i], s.start[i])
  }

  ghost predicate Link(n: nat, a: int, b: int) {
    0 <= a <= n && 0 <= b <= n && a != b
  }

  /** The one message in transit during a transfer. */
  ghost function InTransit(f: Flight, a: int, b: int): seq<Order> {
    match f
    case Quiet => []
    case ToSource(m) => if m.Transfer? && a == 0 && b == m.src then [m] else []
    case ToTarget(m) => if m.Transfer? && a == m.src && b == m.dst then [m] else []
    case Returning(dst, t) => if a == dst && b == 0 then [Ack(t)] else []
  }

  /** Stage and stamp of the current transfer. */
  ghost predicate FlightOk(s: State) {
    match s.flight
    case Quiet => s.parent == Ready
    case ToSource(m) => m.Transfer? && Pair(s.n, m.src, m.dst) && s.parent == Awaiting(m.dst) && m.time == s.clock
    case ToTarget(m) => m.Transfer? && Pair(s.n, m.src, m.dst) && s.parent == Awaiting(m.dst) && m.time == s.clock + 2
    case Returning(dst, t) => Child(s.n, dst) && s.parent == Awaiting(dst) && t == s.clock + 4
  }

  /** How far the clock of child i can have advanced. */
  ghost function Limit(s: State, i: int): int {
    match s.flight
    case Quiet => s.clock
    case ToSource(_) => s.clock - 1
    case ToTarget(m) => if m.Transfer? && i == m.src then s.clock + 2 else s.clock - 1
    case Returning(_, _) => s.clock + 4
  }

  /** While transfers are served, one message is in transit at most, and no idle child's
      clock has passed the parent's. */
  ghost predicate ServingOk(s: State)
    requires Wf(s)
  {
    && FlightOk(s)
    && (forall a, b :: Link(s.n, a, b) ==> s.ch(a, b) == InTransit(s.flight, a, b))
    && (forall i :: Child(s.n, i) ==> s.accounts[i].stage == Running && s.accounts[i].clock <= Limit(s, i))
  }

  /** After STOP nothing but STOP and DONE is in transit. */
  ghost predicate StoppedOk(s: State)
    requires Wf(s)
  {
    && s.flight == Quiet
    && (forall a, b :: Link(s.n, a, b) && b != 0 ==> OnlyStops(s.ch(a, b), a))
    && (forall i :: Child(s.n, i) && s.accounts[i].stage.Collecting? ==> Pair(s.n, s.accounts[i].stage.next, i))
  }

  ghost predicate OnlyStops(ch: seq<Order>, from: int) {
    forall m :: m in ch ==> if from == 0 then m.Stop? else m.Finish?
  }

  /** Money that has left its source and is not yet pending any more at time t. */
  ghost function Missing(f: Flight, t: nat): int {
    if f.ToTarget? && f.order.Transfer? && t > f.order.time then f.order.amount else 0
  }

  ghost predicate Conserved(s: State)
    requires Wf(s)
  {
    forall t: nat :: Wealth(s, t) + Missing(s.flight, t) == InitialWealth(s)
  }

  ghost predicate Inv(s: State) {
    Wf(s) && AccountsOk(s) && Conserved(s) &&
    if s.parent == Stopped then StoppedOk(s) else ServingOk(s)
  }

  // ---- every step keeps the invariant ----

  /** Only account i changes: the total changes by as much. */
  lemma WealthAfter(s: State, s': State, i: int, t: nat)
    requires Wf(s) && Wf(s') && s'.n == s.n && Child(s.n, i)
    requires forall k :: 0 <= k <= s.n && k != i ==> s'.accounts[k] == s.accounts[k]
    ensures Wealth(s', t) == Wealth(s, t) + Worth(s'.accounts[i], t) - Worth(s.accounts[i], t)
  {
    SumChange(s.n, k => if Child(s.n, k) then Worth(s.accounts[k], t) else 0,
              k => if Child(s.n, k) then Worth(s'.accounts[k], t) else 0, i);
  }

  lemma SameWealth(s: State, s': State)
    requires Wf(s) && Wf(s') && s'.n == s.n && s'.accounts == s.accounts && s'.start == s.start
    ensures forall t: nat :: Wealth(s', t) == Wealth(s, t)
    ensures InitialWealth(s') == InitialWealth(s)
  {
    forall t: nat
      ensures Wealth(s', t) == Wealth(s, t)
    {
      SumEqual(s.n, k => if Child(s.n, k) then Worth(s.accounts[k], t) else 0,
               k => if Child(s.n, k) then Worth(s'.accounts[k], t) else 0);
    }
    SumEqual(s.n, i => if Child(s.n, i) then s.start[i] else 0, i => if Child(s.n, i) then s'.start[i] else 0);
  }

  lemma ParentStepKeeps(s: State, step: Step)
    requires Inv(s) && Enabled(s, step)
    requires step.TransferStep? || step.StopStep?
    ensures Inv(Apply(s, step))
  {
    SameWealth(s, Apply(s, step));
    match step
    case TransferStep(src, dst, amount) => TransferKeeps(s, src, dst, amount);
    case StopStep => StopKeeps(s);
  }

  lemma TransferKeeps(s: State, src: int, dst: int, amount: int)
    requires Wf(s) && ServingOk(s) && Enabled(s, TransferStep(src, dst, amount))
    ensures ServingOk(Apply(s, TransferStep(src, dst, amount)))
  {
  }

  lemma StopKeeps(s: State)
    requires Wf(s) && ServingOk(s) && Enabled(s, StopStep)
    ensures StoppedOk(Apply(s, StopStep))
  {
  }

  /** The acknowledgement is the message the parent expects, and it advances the parent's
      clock past every child's. */
  lemma AckKeeps(s: State)
    requires Inv(s) && Enabled(s, AckStep)
    ensures s.flight.Returning? && Apply(s, AckStep).parent == Ready
    ensures Apply(s, AckStep).clock == s.clock + 5
    ensures Inv(Apply(s, AckStep))
  {
    SameWealth(s, Apply(s, AckStep));
    assert s.ch(s.parent.dst, 0) == InTransit(s.flight, s.parent.dst, 0);
  }

  /** During a transfer only its source or its destination receives anything. */
  lemma WhoReceives(s: State, i: int, from: int)
    requires Inv(s) && s.parent != Stopped && Enabled(s, ReceiveStep(i, from))
    ensures s.ch(from, i) == InTransit(s.flight, from, i)
    ensures (s.flight.ToSource? && from == 0 && i == s.flight.order.src && s.ch(from, i) == [s.flight.order])
         || (s.flight.ToTarget? && from == s.flight.order.src && i == s.flight.order.dst
             && s.ch(from, i) == [s.flight.order])
  {
    assert Link(s.n, from, i);
  }

  /** The source's history up to the order's receipt, and then two entries with the amount
      pending, at the times of its receipt and of the forwarding. */
  function PendingHistory(a: Account, m: Order): seq<Entry>
    requires m.Transfer?
  {
    var b := a.balance - m.amount;
    Fill(a.history, a.balance, m.time + 1) + [Entry(b, m.time + 1, m.amount), Entry(b, m.time + 2, m.amount)]
  }

  /** The source handles the order at the parent's time plus one, and stamps the money
      with the time after. */
  lemma SourceKeeps(s: State, i: int)
    requires Inv(s) && s.flight.ToSource? && Enabled(s, ReceiveStep(i, 0))
    requires i == s.flight.order.src && s.ch(0, i) == [s.flight.order]
    ensures ServingOk(Apply(s, ReceiveStep(i, 0)))
    ensures Apply(s, ReceiveStep(i, 0)).accounts[i].history == PendingHistory(s.accounts[i], s.flight.order)
  {
    var s' := Apply(s, ReceiveStep(i, 0));
    var m := s.flight.order;
    var a := s.accounts[i];
    assert Sync(a.clock, m.time) == s.clock + 1;
    ArriveKeeps(a, s.start[i], m);
    var r := Receive(a, s.n, m);
    assert r.out == Single(s.n, m.dst, m.(time := s.clock + 2));
    assert r.account.clock == s.clock + 2 && r.account.stage == Running;
    forall x, y | Link(s.n, x, y)
      ensures s'.ch(x, y) == InTransit(s'.flight, x, y)
    {
      assert s.ch(x, y) == InTransit(s.flight, x, y);
    }
  }

  /** The destination receives the money at exactly its time stamp plus one. */
  lemma TargetKeeps(s: State, i: int, from: int)
    requires Inv(s) && s.flight.ToTarget? && Enabled(s, ReceiveStep(i, from))
    requires i == s.flight.order.dst && from == s.flight.order.src && s.ch(from, i) == [s.flight.order]
    ensures ServingOk(Apply(s, ReceiveStep(i, from)))
    ensures Sync(s.accounts[i].clock, s.flight.order.time) == s.flight.order.time + 1
  {
    var s' := Apply(s, ReceiveStep(i, from));
    var m := s.flight.order;
    var a := s.accounts[i];
    assert Sync(a.clock, m.time) == s.clock + 3;
    var r := Receive(a, s.n, m);
    assert r.out == Single(s.n, 0, Ack(s.clock + 4));
    assert r.account.clock == s.clock + 4 && r.account.stage == Running;
    forall x, y | Link(s.n, x, y)
      ensures s'.ch(x, y) == InTransit(s'.flight, x, y)
    {
      assert s.ch(x, y) == InTransit(s.flight, x, y);
    }
  }

  /** Money is conserved by a receipt during a transfer. */
  lemma ServingConserves(s: State, i: int, from: int)
    requires Inv(s) && s.parent != Stopped && Enabled(s, ReceiveStep(i, from))
    ensures Conserved(Apply(s, ReceiveStep(i, from)))
  {
    var s' := Apply(s, ReceiveStep(i, from));
    var m := s.flight.order;
    WhoReceives(s, i, from);
    assert Sync(s.accounts[i].clock, m.time) == m.time + 1;
    forall t: nat
      ensures Wealth(s', t) + Missing(s'.flight, t) == InitialWealth(s')
    {
      assert AccountOk(s.accounts[i], s.start[i]);
      ReceiveWorth(s.accounts[i], s.start[i], s.n, m, t);
      WealthAfter(s, s', i, t);
      assert Wealth(s, t) + Missing(s.flight, t) == InitialWealth(s);
    }
  }
}
