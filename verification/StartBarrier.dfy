/** The start barrier: STARTED to everyone, and one STARTED from every other child. */
module StartBarrier {
  import opened Network
  import opened Stamps
  import opened Ipc
  import opened LamportTime

  /** The first message in every channel, or one that should not be there. */
  datatype Signal = Started(time: int) | Unexpected(time: int)

  ghost predicate WfSignals(inbox: Mail<Signal>, arrivals: seq<Mail<Signal>>, n: nat) {
    |inbox| == n + 1 && forall k :: 0 <= k < |arrivals| ==> |arrivals[k]| == n + 1
  }

  /** The clock after one message from every child but self from `from` on, in the order of
      ids, and whether all were STARTED; without a message the process waits for ever. */
  ghost function Awaited(
      inbox: Mail<Signal>, arrivals: seq<Mail<Signal>>, n: nat, self: nat, from: nat, clock: int): (int, Option<bool>)
    requires WfSignals(inbox, arrivals, n) && from <= n + 1
    decreases |arrivals|, n + 1 - from
  {
    if from > n then (clock, Some(true))
    else if from == self then Awaited(inbox, arrivals, n, self, from + 1, clock)
    else if arrivals == [] then (clock, None)
    else
      var mail := Append(inbox, arrivals[0]);
      if mail[from] == [] then Awaited(mail, arrivals[1..], n, self, from, clock)
      else
        match mail[from][0]
        case Started(t) => Awaited(Pop(mail, from), arrivals[1..], n, self, from + 1, Sync(clock, t))
        case Unexpected(_) => (clock, Some(false))
  }

  /** `ipc_ext_receive_all` for STARTED, with the check of the type. */
  method AwaitAllStarted(io: Endpoint<Signal>, clock: Clock) returns (ok: Option<bool>)
    requires io.Valid()
    modifies io, clock
    ensures io.Valid() && io.sent == old(io.sent) && (ok == None ==> io.arrivals == [])
    ensures (clock.time, ok) == Awaited(old(io.inbox), old(io.arrivals), io.n, io.self, 1, old(clock.time))
  {
    ghost var all := Awaited(io.inbox, io.arrivals, io.n, io.self, 1, clock.time);
    ghost var sent := io.sent;
    var from := 1;
    while from <= io.n
      invariant io.Valid() && 1 <= from <= io.n + 1 && io.sent == sent
      invariant Awaited(io.inbox, io.arrivals, io.n, io.self, from, clock.time) == all
      decreases |io.arrivals|, io.n + 1 - from
    {
      if from == io.self {
        from := from + 1;
      } else if io.arrivals == [] {
        return None;
      } else {
        var r := io.Receive(from);
        if r.Some? {
          match r.value
          case Unexpected(_) =>
            return Some(false);
          case Started(t) =>
            clock.Synchronize(t);
            from := from + 1;
        }
      }
    }
    ok := Some(true);
  }

  /** `child_sync_started`: the first tick, STARTED to everyone, and the wait. */
  method SyncStarted(io: Endpoint<Signal>, clock: Clock) returns (ok: Option<bool>)
    requires io.Valid()
    modifies io, clock
    ensures io.Valid() && (ok == None ==> io.arrivals == [])
    ensures io.sent == Append(old(io.sent), ToAll(io.n, io.self, Started(old(clock.time) + 1)))
    ensures (clock.time, ok) == Awaited(old(io.inbox), old(io.arrivals), io.n, io.self, 1, old(clock.time) + 1)
  {
    clock.Advance();
    io.SendMulticast(Started(clock.time));
    ok := AwaitAllStarted(io, clock);
  }

  /** Everyone's first tick is 1, and STARTED carries it. */
  ghost predicate FirstTicks(mail: Mail<Signal>) {
    forall c, m :: 0 <= c < |mail| && m in mail[c] ==> m == Started(1)
  }

  ghost predicate AllFirstTicks(inbox: Mail<Signal>, arrivals: seq<Mail<Signal>>) {
    FirstTicks(inbox) && forall k :: 0 <= k < |arrivals| ==> FirstTicks(arrivals[k])
  }

  lemma MoreFirstTicks(mail: Mail<Signal>, more: Mail<Signal>)
    requires |mail| == |more| && FirstTicks(mail) && FirstTicks(more)
    ensures FirstTicks(Append(mail, more))
  {
  }

  lemma FewerFirstTicks(mail: Mail<Signal>, from: nat)
    requires from < |mail| && mail[from] != [] && FirstTicks(mail)
    ensures mail[from][0] == Started(1) && FirstTicks(Pop(mail, from))
  {
    assert mail[from][0] in mail[from];
    forall c, m | 0 <= c < |mail| && m in Pop(mail, from)[c]
      ensures m == Started(1)
    {
      assert m in mail[c];
    }
  }

  /** The type check never fails, and who gets through leaves at a fixed time: a child of n,
      with its clock at 1, at time n, and the parent, with its clock at 0, at time n + 1. */
  lemma {:induction false} BarrierTime(
      inbox: Mail<Signal>, arrivals: seq<Mail<Signal>>, n: nat, self: nat, from: nat, clock: int)
    requires WfSignals(inbox, arrivals, n) && from <= n + 1 && AllFirstTicks(inbox, arrivals) && clock >= 0
    ensures var (t, ok) := Awaited(inbox, arrivals, n, self, from, clock);
            && ok != Some(false)
            && (ok == Some(true) ==>
                  t == if Others(n, self, from) == 0 then clock
                       else (if clock < 1 then 1 else clock) + Others(n, self, from))
    decreases |arrivals|, n + 1 - from
  {
    if from <= n {
      if from == self {
        BarrierTime(inbox, arrivals, n, self, from + 1, clock);
      } else if arrivals != [] {
        var mail := Append(inbox, arrivals[0]);
        MoreFirstTicks(inbox, arrivals[0]);
        if mail[from] == [] {
          BarrierTime(mail, arrivals[1..], n, self, from, clock);
        } else {
          FewerFirstTicks(mail, from);
          BarrierTime(Pop(mail, from), arrivals[1..], n, self, from + 1, Sync(clock, 1));
        }
      }
    }
  }

  // ---- the barrier opens ----

  /** The first message of c is STARTED. */
  ghost predicate Starts(inbox: Mail<Signal>, arrivals: seq<Mail<Signal>>, n: nat, c: nat)
    requires WfSignals(inbox, arrivals, n) && c <= n
  {
    Stream(inbox, arrivals, c) != [] && Stream(inbox, arrivals, c)[0].Started?
  }

  ghost predicate AllStart(inbox: Mail<Signal>, arrivals: seq<Mail<Signal>>, n: nat, self: nat, from: nat)
    requires WfSignals(inbox, arrivals, n)
  {
    forall c :: from <= c <= n && c != self ==> Starts(inbox, arrivals, n, c)
  }

  lemma AllStartNext(inbox: Mail<Signal>, arrivals: seq<Mail<Signal>>, n: nat, self: nat, from: nat)
    requires WfSignals(inbox, arrivals, n) && arrivals != []
    ensures var mail := Append(inbox, arrivals[0]);
            AllStart(inbox, arrivals, n, self, from) <==> AllStart(mail, arrivals[1..], n, self, from)
  {
    forall c | from <= c <= n
      ensures Starts(inbox, arrivals, n, c) <==> Starts(Append(inbox, arrivals[0]), arrivals[1..], n, c)
    {
      StreamPolled(inbox, arrivals, c);
    }
  }

  lemma AllStartTaken(mail: Mail<Signal>, arrivals: seq<Mail<Signal>>, n: nat, self: nat, from: nat)
    requires WfSignals(mail, arrivals, n) && from <= n && from != self && mail[from] != []
    ensures AllStart(mail, arrivals, n, self, from)
            <==> mail[from][0].Started? && AllStart(Pop(mail, from), arrivals, n, self, from + 1)
  {
    assert Stream(mail, arrivals, from)[0] == mail[from][0];
    forall c | from + 1 <= c <= n
      ensures Starts(mail, arrivals, n, c) <==> Starts(Pop(mail, from), arrivals, n, c)
    {
    }
    assert mail[from][0].Started? <==> Starts(mail, arrivals, n, from);
  }

  /** The wait ends well only if the first message of every other child is STARTED, and badly
      only if one is not; and it ends: once all have been heard of, a poll for each of them is
      enough. */
  lemma {:induction false} BarrierOpens(
      inbox: Mail<Signal>, arrivals: seq<Mail<Signal>>, n: nat, self: nat, from: nat, clock: int, k: nat)
    requires WfSignals(inbox, arrivals, n) && from <= n + 1
    ensures var ok := Awaited(inbox, arrivals, n, self, from, clock).1;
            && (ok.Some? ==> ok.value == AllStart(inbox, arrivals, n, self, from))
            && (Heard(inbox, arrivals, n, self, from, k) && |arrivals| >= k + Others(n, self, from) ==> ok.Some?)
    decreases |arrivals|, n + 1 - from
  {
    if from == self && from <= n {
      BarrierOpens(inbox, arrivals, n, self, from + 1, clock, k);
      assert AllStart(inbox, arrivals, n, self, from) <==> AllStart(inbox, arrivals, n, self, from + 1);
    } else if from <= n && arrivals != [] {
      var mail: Mail<Signal>, rest, k' := Append(inbox, arrivals[0]), arrivals[1..], if k > 0 then k - 1 else 0;
      if Heard(inbox, arrivals, n, self, from, k) {
        HeardNext(inbox, arrivals, n, self, from, k);
      }
      AllStartNext(inbox, arrivals, n, self, from);
      if mail[from] == [] {
        BarrierOpens(mail, rest, n, self, from, clock, k');
        assert k == 0 ==> !Heard(inbox, arrivals, n, self, from, k) by { NotHeard(inbox, arrivals, n, self, from); }
      } else {
        AllStartTaken(mail, rest, n, self, from);
        if Heard(mail, rest, n, self, from, k') {
          HeardTaken(mail, rest, n, self, from, k');
        }
        if mail[from][0].Started? {
          BarrierOpens(Pop(mail, from), rest, n, self, from + 1, Sync(clock, mail[from][0].time), k');
        }
      }
    }
  }
}
