/** Lamport time in the fork protocol: it steers no branch, so it is laid over the runs of
    ForkProtocol. Every request, every fork handed over and every DONE has its own tick, in
    the order of ids. */
module ForkCausality {
  import opened Sums
  import opened Network
  import opened Stamps
  import opened Causality
  import opened ForkProtocol
  import opened ForkOrder

  // ---- messages with timestamps ----

  function Stamp(m: Msg, t: int): Message {
    match m
    case Request => Message.Request(t)
    case Reply => Message.Reply(t)
    case _ => Message.Done(t)
  }

  /** The kind of a stamped message. */
  function Erase(m: Message): Msg {
    match m
    case Request(_) => Msg.Request
    case Reply(_) => Msg.Reply
    case _ => Msg.Done
  }

  /** ch is st without its timestamps. */
  ghost predicate Erased(st: seq<Message>, ch: seq<Msg>) {
    |st| == |ch| && forall k :: 0 <= k < |st| ==> Erase(st[k]) == ch[k]
  }

  /** Is a request or a fork sent to child c? */
  predicate Sends(out: Mail<Msg>, c: nat) {
    c < |out| && out[c] != [] && !out[c][0].Done?
  }

  /** Ticks for requests and forks sent to children 1..c. */
  function Ticks(out: Mail<Msg>, c: nat): nat {
    if c == 0 then 0 else Ticks(out, c - 1) + if Sends(out, c) then 1 else 0
  }

  predicate Announces(out: Mail<Msg>) {
    exists c :: 0 <= c < |out| && Msg.Done in out[c]
  }

  /** What is sent, stamped from `start` on; all copies of DONE share one tick. */
  ghost function Stamped(out: Mail<Msg>, n: nat, start: int): Mail<Message> {
    seq(|out|, c requires 0 <= c < |out| =>
      seq(|out[c]|, k requires 0 <= k < |out[c]| =>
        Stamp(out[c][k], start + if out[c][k].Done? then Ticks(out, n) + 1 else Ticks(out, c))))
  }

  lemma {:induction false} TicksGrow(out: Mail<Msg>, c: nat, d: nat)
    requires c <= d
    ensures Ticks(out, c) <= Ticks(out, d)
  {
    if c < d {
      TicksGrow(out, c, d - 1);
    }
  }

  // ---- steps as events ----

  /** Messages in the fork protocol's steps: at most a request or a fork, then DONE. */
  ghost predicate Regular(out: Mail<Msg>, n: nat) {
    && |out| == n + 1 && out[0] == []
    && forall c :: 0 <= c <= n ==>
      out[c] == [] || out[c] == [Msg.Request] || out[c] == [Msg.Reply] || out[c] == [Msg.Done]
      || out[c] == [Msg.Reply, Msg.Done]
  }

  lemma OutIsRegular(s: State, step: Step)
    requires Wf(s) && Enabled(s, step)
    ensures Regular(Local(s, step).out, s.n)
  {
  }

  /** The machine shows the channels of s, with timestamps. */
  ghost predicate Shows(m: Machine, s: State)
    requires Wf(s)
  {
    forall i, j :: Pair(s.n, i, j) ==> Erased(m.ch(i, j), s.ch(i, j))
  }

  /** The clock before the first message a step sends. */
  ghost function Start(s: State, m: Machine, step: Step): int
    requires Wf(s) && Enabled(s, step) && Shows(m, s)
  {
    var clock := m.clock(step.i);
    if step.ReceiveStep? then Sync(clock, m.ch(step.from, step.i)[0].time) else clock
  }

  ghost function EventOf(s: State, m: Machine, step: Step): Event
    requires Wf(s) && Enabled(s, step) && Shows(m, s)
  {
    var out, start := Local(s, step).out, Start(s, m, step);
    var end := start + Ticks(out, s.n) + Bit(Announces(out));
    if step.ReceiveStep? then
      Event(step.i, step.from, m.ch(step.from, step.i)[0].time, Stamped(out, s.n, start), start, end)
    else Event(step.i, 0, 0, Stamped(out, s.n, start), start + 1, end)
  }

  /** Asking for nothing, entering, releasing without a request: no tick. */
  ghost predicate Silent(s: State, step: Step)
    requires Wf(s) && Enabled(s, step)
  {
    !step.ReceiveStep? && Ticks(Local(s, step).out, s.n) == 0 && !Announces(Local(s, step).out)
  }

  /** The events of a run: one for every step that ticks. */
  ghost function Events(s: State, m: Machine, steps: seq<Step>): seq<Event>
    requires Wf(s) && Runs(s, steps)
    decreases |steps|
  {
    if steps == [] || !Shows(m, s) then []
    else if Silent(s, steps[0]) then Events(Apply(s, steps[0]), m, steps[1..])
    else
      var e := EventOf(s, m, steps[0]);
      [e] + Events(Apply(s, steps[0]), Next(m, e), steps[1..])
  }

  lemma StampsAfter(out: Mail<Msg>, n: nat, start: int, b: nat, x: Message)
    requires Regular(out, n) && b <= n && x in Stamped(out, n, start)[b]
    ensures start < x.time <= start + Ticks(out, n) + Bit(Announces(out))
  {
    TicksGrow(out, 0, n);
    TicksGrow(out, b, n);
    if b > 0 { TicksGrow(out, 0, b - 1); }
  }

  lemma EventFits(s: State, m: Machine, step: Step)
    requires Wf(s) && Enabled(s, step) && Shows(m, s) && !Silent(s, step)
    ensures Fits(m, EventOf(s, m, step))
  {
    OutIsRegular(s, step);
    var out := Local(s, step).out;
    forall b, x | 0 <= b <= s.n && x in Stamped(out, s.n, Start(s, m, step))[b]
      ensures Start(s, m, step) < x.time
    {
      StampsAfter(out, s.n, Start(s, m, step), b, x);
    }
  }

  // ---- whole runs ----

  lemma ErasedAppend(st: seq<Message>, ch: seq<Msg>, st': seq<Message>, ch': seq<Msg>)
    requires Erased(st, ch) && Erased(st', ch')
    ensures Erased(st + st', ch + ch')
  {
  }

  lemma StampedErases(out: Mail<Msg>, n: nat, start: int, b: nat)
    requires Regular(out, n) && b <= n
    ensures Erased(Stamped(out, n, start)[b], out[b])
  {
  }

  lemma EventShows(s: State, m: Machine, step: Step)
    requires Wf(s) && Enabled(s, step) && Shows(m, s)
    ensures Shows(Next(m, EventOf(s, m, step)), Apply(s, step))
  {
    forall i, j | Pair(s.n, i, j)
      ensures Erased(Next(m, EventOf(s, m, step)).ch(i, j), Apply(s, step).ch(i, j))
    {
      ChannelShows(s, m, step, i, j);
    }
  }

  lemma ChannelShows(s: State, m: Machine, step: Step, i: int, j: int)
    requires Wf(s) && Enabled(s, step) && Shows(m, s) && Pair(s.n, i, j)
    ensures Erased(Next(m, EventOf(s, m, step)).ch(i, j), Apply(s, step).ch(i, j))
  {
    OutIsRegular(s, step);
    var out, start := Local(s, step).out, Start(s, m, step);
    var taken := step == ReceiveStep(j, i);
    assert Erased(m.ch(i, j), s.ch(i, j));
    var st := if taken then m.ch(i, j)[1..] else m.ch(i, j);
    var ch := if taken then s.ch(i, j)[1..] else s.ch(i, j);
    if step.i == i {
      StampedErases(out, s.n, start, j);
      ErasedAppend(st, ch, Stamped(out, s.n, start)[j], out[j]);
    }
  }

  /** A silent step takes and sends nothing. */
  lemma SilentShows(s: State, m: Machine, step: Step)
    requires Wf(s) && Enabled(s, step) && Shows(m, s) && Silent(s, step)
    ensures Shows(m, Apply(s, step))
  {
    OutIsRegular(s, step);
    var out := Local(s, step).out;
    forall i, j | Pair(s.n, i, j)
      ensures Apply(s, step).ch(i, j) == s.ch(i, j)
    {
      TicksGrow(out, j, s.n);
      assert !Sends(out, j) && Msg.Done !in out[j];
    }
  }

  lemma {:induction false} RunPlays(s: State, m: Machine, steps: seq<Step>)
    requires Wf(s) && Runs(s, steps) && Shows(m, s)
    ensures Plays(m, Events(s, m, steps))
    decreases |steps|
  {
    if steps != [] {
      var s', rest := Apply(s, steps[0]), steps[1..];
      if Silent(s, steps[0]) {
        SilentShows(s, m, steps[0]);
        RunPlays(s', m, rest);
      } else {
        var e := EventOf(s, m, steps[0]);
        EventFits(s, m, steps[0]);
        EventShows(s, m, steps[0]);
        RunPlays(s', Next(m, e), rest);
        PlaysOn(m, e, Events(s', Next(m, e), rest));
      }
    }
  }

  lemma {:induction false} EventsApart(s: State, m: Machine, steps: seq<Step>)
    requires Wf(s) && Runs(s, steps)
    ensures forall e :: e in Events(s, m, steps) ==> e.child > 0 && e.from != e.child
    decreases |steps|
  {
    if steps != [] && Shows(m, s) {
      var m' := if Silent(s, steps[0]) then m else Next(m, EventOf(s, m, steps[0]));
      EventsApart(Apply(s, steps[0]), m', steps[1..]);
    }
  }

  /** After the start barrier every clock shows n, and nothing is in transit. */
  ghost function AfterBarrier(n: nat): Machine {
    Machine((a: int, b: int) => [], (i: int) => n)
  }

  /** The clock condition: along every causal chain of the events of every run, through any
      number of children and messages, Lamport time strictly increases. */
  lemma {:induction false} ClockCondition(n: nat, steps: seq<Step>, ks: seq<nat>)
    requires Runs(Init(n), steps) && Chain(Events(Init(n), AfterBarrier(n), steps), ks) && |ks| >= 2
    ensures var t := Events(Init(n), AfterBarrier(n), steps);
            ks[|ks| - 1] < |t| && t[ks[0]].time < t[ks[|ks| - 1]].time
  {
    var m := AfterBarrier(n);
    RunPlays(Init(n), m, steps);
    EventsApart(Init(n), m, steps);
    ChainAscends(m, Events(Init(n), m, steps), ks);
  }
}
