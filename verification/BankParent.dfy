/** The parent of the banking run as the program runs it: one transfer at a time, and the
    collection of the histories. */
module BankParent {
  import opened Network
  import opened Stamps
  import opened Ipc
  import opened LamportTime
  import opened Banking
  import opened BankingTheorems

  type Mailbox = Mail<Order>

  /** `transfer`: the order goes to the source, and the parent waits for the destination.
      The result says whether the assertion on the acknowledgement held. Without a message
      from the destination the parent waits for ever; otherwise the first one that is there
      or arrives decides, and nothing else is taken. */
  method TransferMoney(io: Endpoint<Order>, clock: Clock, src: nat, dst: nat, amount: int) returns (r: Option<bool>)
    requires io.Valid() && io.self == 0 && 1 <= src <= io.n && 1 <= dst <= io.n
    modifies io, clock
    ensures io.Valid()
    ensures io.sent == Append(old(io.sent), Single(io.n, src, Transfer(src, dst, amount, old(clock.time) + 1)))
    ensures r == None <==> old(io.arrivals) == [] || old(io.From(dst)) == []
    ensures r == None ==> io.arrivals == [] && clock.time == old(clock.time) + 1
    ensures r.Some? ==> var m := old(io.From(dst))[0];
                        r == Some(m.Ack?) && clock.time == Sync(old(clock.time) + 1, m.time)
    ensures forall c :: 0 <= c <= io.n ==>
              io.From(c) == if r.Some? && c == dst then old(io.From(c))[1..] else old(io.From(c))
  {
    clock.Advance();
    io.Send(src, Transfer(src, dst, amount, clock.time));
    ghost var sent := io.sent;
    while io.arrivals != []
      invariant io.Valid() && io.sent == sent && clock.time == old(clock.time) + 1
      invariant forall c :: 0 <= c <= io.n ==> io.From(c) == old(io.From(c))
      invariant io.arrivals == old(io.arrivals) || (io.inbox[dst] == [] && old(io.arrivals) != [])
      decreases |io.arrivals|
    {
      var m := io.Receive(dst);
      if m.Some? {
        clock.Synchronize(m.value.time);
        return Some(m.value.Ack?);
      }
    }
    r := None;
  }

  /** That is the parent's part of the steps TransferStep and AckStep, whatever the children
      do in between. */
  lemma {:induction false} TransferIsSteps(s: State, src: nat, dst: nat, amount: int, between: seq<Step>)
    requires Wf(s) && Enabled(s, TransferStep(src, dst, amount))
    requires Runs(Apply(s, TransferStep(src, dst, amount)), between)
    requires forall k :: 0 <= k < |between| ==> between[k].ReceiveStep? || between[k].CollectStep?
    ensures var sending := Apply(s, TransferStep(src, dst, amount));
            var t := After(sending, between);
            && sending.ch(0, src) == s.ch(0, src) + [Transfer(src, dst, amount, s.clock + 1)]
            && (Enabled(t, AckStep) <==> t.ch(dst, 0) != [])
            && (t.ch(dst, 0) != [] ==>
                  var m, end := t.ch(dst, 0)[0], Apply(t, AckStep);
                  && (end.parent == Ready <==> m.Ack?) && end.clock == Sync(s.clock + 1, m.time)
                  && end.ch(dst, 0) == t.ch(dst, 0)[1..])
  {
    ParentWaits(Apply(s, TransferStep(src, dst, amount)), between);
  }

  lemma {:induction false} ParentWaits(s: State, between: seq<Step>)
    requires Wf(s) && Runs(s, between)
    requires forall k :: 0 <= k < |between| ==> between[k].ReceiveStep? || between[k].CollectStep?
    ensures After(s, between).clock == s.clock && After(s, between).parent == s.parent
    decreases |between|
  {
    if between != [] {
      assert between[0].ReceiveStep? || between[0].CollectStep?;
      ParentWaits(Apply(s, between[0]), between[1..]);
    }
  }

  class AllHistory {
    const histories: array<seq<Entry>>
    var len: nat

    constructor (cap: nat)
      ensures fresh(histories) && histories.Length == cap && len == 0
    {
      histories := new seq<Entry>[cap](_ => []);
      len := 0;
    }

    /** `parent_fill_history_callback`; the result says whether its assertion held. */
    method Fill(from: nat, history: seq<Entry>) returns (ok: bool)
      requires 1 <= from <= histories.Length
      modifies this, histories
      ensures ok == (old(len) == from - 1)
      ensures if ok then len == from && histories[..] == old(histories[..])[from - 1 := history]
              else len == old(len) && histories[..] == old(histories[..])
    {
      ok := len == from - 1;
      if ok {
        histories[from - 1] := history;
        len := len + 1;
      }
    }
  }

  // ---- the collection of the histories ----

  /** What the parent reads after DONE: BALANCE_HISTORY, or something else. */
  datatype Report = History(time: int, entries: seq<Entry>) | Unexpected(time: int)

  /** The histories of the first children, the parent's clock, and whether every message
      was of the right type; without a message the parent waits for ever. */
  datatype Gathered = Gathered(histories: seq<seq<Entry>>, clock: int, ok: Option<bool>)

  ghost predicate WfReports(inbox: Mail<Report>, arrivals: seq<Mail<Report>>, n: nat) {
    |inbox| == n + 1 && forall k :: 0 <= k < |arrivals| ==> |arrivals[k]| == n + 1
  }

  /** The first message that ever arrives from each child, in the order of ids. */
  ghost function Gathering(
      inbox: Mail<Report>, arrivals: seq<Mail<Report>>, n: nat, clock: int, got: seq<seq<Entry>>): Gathered
    requires WfReports(inbox, arrivals, n)
    decreases |arrivals|
  {
    var from := |got| + 1;
    if from > n then Gathered(got, clock, Some(true))
    else if arrivals == [] then Gathered(got, clock, None)
    else
      var mail := Append(inbox, arrivals[0]);
      if mail[from] == [] then Gathering(mail, arrivals[1..], n, clock, got)
      else
        match mail[from][0]
        case History(t, entries) => Gathering(Pop(mail, from), arrivals[1..], n, Sync(clock, t), got + [entries])
        case Unexpected(_) => Gathered(got, clock, Some(false))
  }

  function SyncAll(clock: int, times: seq<int>): int
    decreases |times|
  {
    if times == [] then clock else SyncAll(Sync(clock, times[0]), times[1..])
  }

  /** The first report of child c is this history. */
  ghost predicate Reports(inbox: Mail<Report>, arrivals: seq<Mail<Report>>, n: nat, c: nat, entries: seq<Entry>)
    requires WfReports(inbox, arrivals, n) && c <= n
  {
    var all := Stream(inbox, arrivals, c);
    all != [] && all[0].History? && all[0].entries == entries
  }

  ghost predicate Misreports(inbox: Mail<Report>, arrivals: seq<Mail<Report>>, n: nat, c: nat)
    requires WfReports(inbox, arrivals, n) && c <= n
  {
    Stream(inbox, arrivals, c) != [] && Stream(inbox, arrivals, c)[0].Unexpected?
  }

  /** The times of the first messages of children `from` to `last`. */
  ghost function Times(inbox: Mail<Report>, arrivals: seq<Mail<Report>>, n: nat, from: nat, last: nat): seq<int>
    requires WfReports(inbox, arrivals, n) && last <= n
    decreases last + 1 - from
  {
    if from > last then []
    else
      var all := Stream(inbox, arrivals, from);
      [if all == [] then 0 else all[0].time] + Times(inbox, arrivals, n, from + 1, last)
  }

  /** What a message of c says depends on the stream of c only. */
  lemma {:induction false} TimesSame(
      inbox: Mail<Report>, arrivals: seq<Mail<Report>>, inbox': Mail<Report>, arrivals': seq<Mail<Report>>,
      n: nat, from: nat, last: nat)
    requires WfReports(inbox, arrivals, n) && WfReports(inbox', arrivals', n) && last <= n
    requires SameStreams(inbox, arrivals, inbox', arrivals', n, from)
    ensures Times(inbox, arrivals, n, from, last) == Times(inbox', arrivals', n, from, last)
    decreases last + 1 - from
  {
    if from <= last {
      TimesSame(inbox, arrivals, inbox', arrivals', n, from + 1, last);
    }
  }

  ghost predicate SameStreams(
      inbox: Mail<Report>, arrivals: seq<Mail<Report>>, inbox': Mail<Report>, arrivals': seq<Mail<Report>>,
      n: nat, from: nat)
    requires WfReports(inbox, arrivals, n) && WfReports(inbox', arrivals', n)
  {
    forall c :: from <= c <= n ==> Stream(inbox, arrivals, c) == Stream(inbox', arrivals', c)
  }

  lemma PolledStreams(inbox: Mail<Report>, arrivals: seq<Mail<Report>>, n: nat, from: nat)
    requires WfReports(inbox, arrivals, n) && arrivals != [] && from <= n
    ensures var mail := Append(inbox, arrivals[0]);
            && SameStreams(inbox, arrivals, mail, arrivals[1..], n, 0)
            && (mail[from] != [] ==>
                  && Stream(inbox, arrivals, from) != [] && Stream(inbox, arrivals, from)[0] == mail[from][0]
                  && SameStreams(inbox, arrivals, Pop(mail, from), arrivals[1..], n, from + 1))
  {
    forall c | 0 <= c <= n { StreamPolled(inbox, arrivals, c); }
  }

  ghost predicate GatheredRight(inbox: Mail<Report>, arrivals: seq<Mail<Report>>, n: nat, got: nat, all: Gathered)
    requires WfReports(inbox, arrivals, n)
  {
    && got <= |all.histories| <= n
    && (forall k :: got <= k < |all.histories| ==> Reports(inbox, arrivals, n, k + 1, all.histories[k]))
    && (all.ok == Some(true) <==> |all.histories| == n)
    && (all.ok == Some(false) ==> Misreports(inbox, arrivals, n, |all.histories| + 1))
  }

  lemma {:induction false} GatheredKeep(
      inbox: Mail<Report>, arrivals: seq<Mail<Report>>, n: nat, clock: int, got: seq<seq<Entry>>)
    requires WfReports(inbox, arrivals, n)
    ensures got <= Gathering(inbox, arrivals, n, clock, got).histories
    decreases |arrivals|
  {
    var from := |got| + 1;
    if from <= n && arrivals != [] {
      var mail: Mail<Report>, rest := Append(inbox, arrivals[0]), arrivals[1..];
      if mail[from] == [] {
        GatheredKeep(mail, rest, n, clock, got);
      } else if mail[from][0].History? {
        GatheredKeep(Pop(mail, from), rest, n, Sync(clock, mail[from][0].time), got + [mail[from][0].entries]);
      }
    }
  }

  /** Every history gathered is the first report of its child, and the parent stops at the
      first message of another type. */
  lemma {:induction false} GatheredAreFirst(
      inbox: Mail<Report>, arrivals: seq<Mail<Report>>, n: nat, clock: int, got: seq<seq<Entry>>)
    requires WfReports(inbox, arrivals, n) && |got| <= n
    ensures GatheredRight(inbox, arrivals, n, |got|, Gathering(inbox, arrivals, n, clock, got))
    decreases |arrivals|
  {
    var from := |got| + 1;
    if from <= n && arrivals != [] {
      var mail: Mail<Report>, rest := Append(inbox, arrivals[0]), arrivals[1..];
      if mail[from] == [] {
        GatheredAreFirst(mail, rest, n, clock, got);
        RightIdle(inbox, arrivals, n, |got|, Gathering(mail, rest, n, clock, got));
      } else if mail[from][0].History? {
        var next, t := got + [mail[from][0].entries], Sync(clock, mail[from][0].time);
        GatheredAreFirst(Pop(mail, from), rest, n, t, next);
        GatheredKeep(Pop(mail, from), rest, n, t, next);
        RightTaken(inbox, arrivals, n, got, Gathering(Pop(mail, from), rest, n, t, next));
      } else {
        RightStopped(inbox, arrivals, n, got, clock);
      }
    } else {
      RightHere(inbox, arrivals, n, got, clock);
    }
  }

  lemma RightHere(inbox: Mail<Report>, arrivals: seq<Mail<Report>>, n: nat, got: seq<seq<Entry>>, clock: int)
    requires WfReports(inbox, arrivals, n) && |got| <= n
    ensures GatheredRight(inbox, arrivals, n, |got|, Gathered(got, clock, if |got| == n then Some(true) else None))
  {
  }

  lemma RightStopped(inbox: Mail<Report>, arrivals: seq<Mail<Report>>, n: nat, got: seq<seq<Entry>>, clock: int)
    requires WfReports(inbox, arrivals, n) && |got| < n && arrivals != []
    requires var mail := Append(inbox, arrivals[0]); mail[|got| + 1] != [] && mail[|got| + 1][0].Unexpected?
    ensures GatheredRight(inbox, arrivals, n, |got|, Gathered(got, clock, Some(false)))
  {
    PolledStreams(inbox, arrivals, n, |got| + 1);
  }

  lemma RightIdle(inbox: Mail<Report>, arrivals: seq<Mail<Report>>, n: nat, got: nat, all: Gathered)
    requires WfReports(inbox, arrivals, n) && got < n && arrivals != []
    requires GatheredRight(Append(inbox, arrivals[0]), arrivals[1..], n, got, all)
    ensures GatheredRight(inbox, arrivals, n, got, all)
  {
    PolledStreams(inbox, arrivals, n, 0);
    RightBefore(inbox, arrivals, Append(inbox, arrivals[0]), arrivals[1..], n, got, all);
  }

  lemma RightTaken(inbox: Mail<Report>, arrivals: seq<Mail<Report>>, n: nat, got: seq<seq<Entry>>, all: Gathered)
    requires WfReports(inbox, arrivals, n) && |got| < n && arrivals != []
    requires var mail, from := Append(inbox, arrivals[0]), |got| + 1;
             && mail[from] != [] && mail[from][0].History? && got + [mail[from][0].entries] <= all.histories
             && GatheredRight(Pop(mail, from), arrivals[1..], n, from, all)
    ensures GatheredRight(inbox, arrivals, n, |got|, all)
  {
    var mail: Mail<Report>, from := Append(inbox, arrivals[0]), |got| + 1;
    PolledStreams(inbox, arrivals, n, from);
    RightBefore(inbox, arrivals, Pop(mail, from), arrivals[1..], n, from, all);
    assert all.histories[|got|] == (got + [mail[from][0].entries])[|got|];
    RightFrom(inbox, arrivals, n, |got|, all);
  }

  lemma RightFrom(inbox: Mail<Report>, arrivals: seq<Mail<Report>>, n: nat, got: nat, all: Gathered)
    requires WfReports(inbox, arrivals, n) && GatheredRight(inbox, arrivals, n, got + 1, all)
    requires Reports(inbox, arrivals, n, got + 1, all.histories[got])
    ensures GatheredRight(inbox, arrivals, n, got, all)
  {
  }

  lemma RightBefore(
      inbox: Mail<Report>, arrivals: seq<Mail<Report>>, inbox': Mail<Report>, arrivals': seq<Mail<Report>>,
      n: nat, got: nat, all: Gathered)
    requires WfReports(inbox, arrivals, n) && WfReports(inbox', arrivals', n)
    requires SameStreams(inbox, arrivals, inbox', arrivals', n, got + 1)
    requires GatheredRight(inbox', arrivals', n, got, all)
    ensures GatheredRight(inbox, arrivals, n, got, all)
  {
  }

  lemma GatheredSize(inbox: Mail<Report>, arrivals: seq<Mail<Report>>, n: nat, clock: int, got: seq<seq<Entry>>)
    requires WfReports(inbox, arrivals, n) && |got| <= n
    ensures |got| <= |Gathering(inbox, arrivals, n, clock, got).histories| <= n
  {
    GatheredAreFirst(inbox, arrivals, n, clock, got);
  }

  /** The clock meets the times of the reports gathered, in the order of ids. */
  lemma {:induction false} GatheredClock(
      inbox: Mail<Report>, arrivals: seq<Mail<Report>>, n: nat, clock: int, got: seq<seq<Entry>>)
    requires WfReports(inbox, arrivals, n) && |got| <= n
    ensures var all := Gathering(inbox, arrivals, n, clock, got);
            |all.histories| <= n && all.clock == SyncAll(clock, Times(inbox, arrivals, n, |got| + 1, |all.histories|))
    decreases |arrivals|, 1
  {
    var from := |got| + 1;
    if from <= n && arrivals != [] {
      var mail: Mail<Report>, rest := Append(inbox, arrivals[0]), arrivals[1..];
      PolledStreams(inbox, arrivals, n, from);
      if mail[from] == [] {
        GatheredClock(mail, rest, n, clock, got);
        TimesSame(inbox, arrivals, mail, rest, n, from, |Gathering(mail, rest, n, clock, got).histories|);
      } else if mail[from][0].History? {
        ClockTaken(inbox, arrivals, mail, n, clock, got);
      }
    }
  }

  lemma {:induction false} ClockTaken(
      inbox: Mail<Report>, arrivals: seq<Mail<Report>>, mail: Mail<Report>, n: nat, clock: int, got: seq<seq<Entry>>)
    requires WfReports(inbox, arrivals, n) && |got| < n && arrivals != [] && mail == Append(inbox, arrivals[0])
    requires mail[|got| + 1] != [] && mail[|got| + 1][0].History?
    ensures var all := Gathering(inbox, arrivals, n, clock, got);
            |all.histories| <= n && all.clock == SyncAll(clock, Times(inbox, arrivals, n, |got| + 1, |all.histories|))
    decreases |arrivals|, 0
  {
    var from, rest := |got| + 1, arrivals[1..];
    var next, t := got + [mail[from][0].entries], Sync(clock, mail[from][0].time);
    var last := |Gathering(Pop(mail, from), rest, n, t, next).histories|;
    PolledStreams(inbox, arrivals, n, from);
    GatheredClock(Pop(mail, from), rest, n, t, next);
    GatheredSize(Pop(mail, from), rest, n, t, next);
    TimesSame(inbox, arrivals, Pop(mail, from), rest, n, from + 1, last);
    MetFirst(inbox, arrivals, n, clock, from, last);
  }

  lemma MetFirst(inbox: Mail<Report>, arrivals: seq<Mail<Report>>, n: nat, clock: int, from: nat, last: nat)
    requires WfReports(inbox, arrivals, n) && from <= last <= n && Stream(inbox, arrivals, from) != []
    ensures SyncAll(clock, Times(inbox, arrivals, n, from, last))
            == SyncAll(Sync(clock, Stream(inbox, arrivals, from)[0].time), Times(inbox, arrivals, n, from + 1, last))
  {
    assert Times(inbox, arrivals, n, from, last)[1..] == Times(inbox, arrivals, n, from + 1, last);
  }

  /** The parent does not wait for ever: once all children have reported, a poll for each of
      them is enough. */
  lemma {:induction false} GatheringEnds(
      inbox: Mail<Report>, arrivals: seq<Mail<Report>>, n: nat, clock: int, got: seq<seq<Entry>>, k: nat)
    requires WfReports(inbox, arrivals, n) && |got| <= n
    requires Heard(inbox, arrivals, n, 0, |got| + 1, k) && |arrivals| >= k + n - |got|
    ensures Gathering(inbox, arrivals, n, clock, got).ok.Some?
    decreases |arrivals|
  {
    var from := |got| + 1;
    if from <= n {
      var mail: Mail<Report>, rest, k' := Append(inbox, arrivals[0]), arrivals[1..], if k > 0 then k - 1 else 0;
      HeardNext(inbox, arrivals, n, 0, from, k);
      if mail[from] == [] {
        if k == 0 { NotHeard(inbox, arrivals, n, 0, from); }
        GatheringEnds(mail, rest, n, clock, got, k');
      } else if mail[from][0].History? {
        HeardTaken(mail, rest, n, 0, from, k');
        GatheringEnds(Pop(mail, from), rest, n, Sync(clock, mail[from][0].time), got + [mail[from][0].entries], k');
      }
    }
  }

  /** `ipc_ext_receive_all` with that callback: a blocking receive from every child in the
      order of ids, the check of the type, the clock, the callback. The callback's
      assertion holds every time. */
  method GatherHistories(io: Endpoint<Report>, clock: Clock, all: AllHistory) returns (ok: Option<bool>)
    requires io.Valid() && io.self == 0 && all.len == 0 && all.histories.Length == io.n
    modifies io, clock, all, all.histories
    ensures io.Valid() && all.len <= io.n
    ensures Gathering(old(io.inbox), old(io.arrivals), io.n, old(clock.time), [])
            == Gathered(all.histories[..all.len], clock.time, ok)
    ensures GatheredRight(old(io.inbox), old(io.arrivals), io.n, 0, Gathered(all.histories[..all.len], clock.time, ok))
    ensures ok == None ==> io.arrivals == []
  {
    GatheredAreFirst(io.inbox, io.arrivals, io.n, clock.time, []);
    ghost var run := Gathering(io.inbox, io.arrivals, io.n, clock.time, []);
    var from := 1;
    while from <= io.n
      invariant io.Valid() && 1 <= from <= io.n + 1 && all.len == from - 1
      invariant Gathering(io.inbox, io.arrivals, io.n, clock.time, all.histories[..all.len]) == run
      decreases |io.arrivals|
    {
      if io.arrivals == [] {
        return None;
      }
      var r := io.Receive(from);
      if r.Some? {
        match r.value
        case Unexpected(_) =>
          return Some(false);
        case History(t, entries) =>
          clock.Synchronize(t);
          ghost var got := all.histories[..all.len];
          var held := all.Fill(from, entries);
          assert all.histories[..all.len] == got + [entries];
          from := from + 1;
      }
    }
    ok := Some(true);
  }
}
