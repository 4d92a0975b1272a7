/** The clock condition over runs of the replicated queue protocol: what happens before
    has the smaller Lamport time. */
module QueueCausality {
  import opened Network
  import opened Stamps
  import opened Causality
  import opened QueueProtocol
  import opened QueueSystem
  import opened QueueInvariant
  import opened QueueOrder

  /** A step as an event: every step ticks. */
  ghost function EventOf(s: State, step: Step): Event
    requires Wf(s) && Enabled(s, step)
  {
    var clock := s.procs[step.i].clock;
    var r := Local(s, step);
    if step.ReceiveStep? then
      var t := s.ch(step.from, step.i)[0].time;
      Event(step.i, step.from, t, r.out, Sync(clock, t), r.proc.clock)
    else Event(step.i, 0, 0, r.out, clock + 1, r.proc.clock)
  }

  ghost function Events(s: State, steps: seq<Step>): seq<Event>
    requires Wf(s) && Runs(s, steps)
    decreases |steps|
  {
    if steps == [] then [] else [EventOf(s, steps[0])] + Events(Apply(s, steps[0]), steps[1..])
  }

  lemma {:induction false} EventAt(s: State, steps: seq<Step>, k: nat)
    requires Wf(s) && Runs(s, steps) && k < |steps|
    ensures |Events(s, steps)| == |steps|
    ensures Events(s, steps)[k].child == steps[k].i > 0
    ensures Events(s, steps)[k].from == (if steps[k].ReceiveStep? then steps[k].from else 0) != steps[k].i
    ensures steps[k].ReceiveStep? ==> steps[k].from > 0
    decreases k
  {
    EventCount(s, steps);
    if k > 0 {
      EventAt(Apply(s, steps[0]), steps[1..], k - 1);
    }
  }

  lemma {:induction false} EventCount(s: State, steps: seq<Step>)
    requires Wf(s) && Runs(s, steps)
    ensures |Events(s, steps)| == |steps|
    decreases |steps|
  {
    if steps != [] {
      EventCount(Apply(s, steps[0]), steps[1..]);
    }
  }

  /** The machine shows the clocks and the channels of s. */
  ghost predicate Shows(m: Machine, s: State)
    requires Wf(s)
  {
    && (forall i :: Child(s.n, i) ==> m.clock(i) == s.procs[i].clock)
    && (forall i, j :: Pair(s.n, i, j) ==> m.ch(i, j) == s.ch(i, j))
  }

  lemma EventFits(s: State, step: Step, m: Machine)
    requires Wf(s) && Enabled(s, step) && Local(s, step).proc.phase != Crashed && Shows(m, s)
    ensures Fits(m, EventOf(s, step))
  {
    OutLength(s, step);
    match step
    case CallStep(i) => CallFits(s, i);
    case ReceiveStep(i, from) => ReceiveFits(s, i, from);
    case ReleaseStep(i) => ReleaseFits(s, i);
  }

  /** Everything a step sends is stamped from its first tick on. */
  ghost predicate Stamped(s: State, step: Step)
    requires Wf(s) && Enabled(s, step)
  {
    var e := EventOf(s, step);
    s.procs[step.i].clock < e.time <= e.end && forall b, x :: 0 <= b < |e.out| && x in e.out[b] ==> e.time <= x.time
  }

  lemma CallFits(s: State, i: int)
    requires Wf(s) && Enabled(s, CallStep(i))
    ensures Stamped(s, CallStep(i))
  {
  }

  lemma ReceiveFits(s: State, i: int, from: int)
    requires Wf(s) && Enabled(s, ReceiveStep(i, from)) && Local(s, ReceiveStep(i, from)).proc.phase != Crashed
    ensures Stamped(s, ReceiveStep(i, from))
  {
    LocalReceive(s, i, from, from);
  }

  lemma ReleaseFits(s: State, i: int)
    requires Wf(s) && Enabled(s, ReleaseStep(i)) && Local(s, ReleaseStep(i)).proc.phase != Crashed
    ensures Stamped(s, ReleaseStep(i))
  {
  }

  lemma EventShows(s: State, step: Step, m: Machine)
    requires Wf(s) && Enabled(s, step) && Shows(m, s)
    ensures Shows(Next(m, EventOf(s, step)), Apply(s, step))
  {
    forall i, j | Pair(s.n, i, j)
      ensures Next(m, EventOf(s, step)).ch(i, j) == Apply(s, step).ch(i, j)
    {
      ChannelShows(s, step, m, i, j);
    }
  }

  lemma ChannelShows(s: State, step: Step, m: Machine, i: int, j: int)
    requires Wf(s) && Enabled(s, step) && Shows(m, s) && Pair(s.n, i, j)
    ensures Next(m, EventOf(s, step)).ch(i, j) == Apply(s, step).ch(i, j)
  {
    OutLength(s, step);
  }

  lemma {:induction false} RunPlays(s: State, steps: seq<Step>, m: Machine)
    requires Inv(s) && Runs(s, steps) && Shows(m, s)
    ensures Plays(m, Events(s, steps))
    decreases |steps|
  {
    if steps != [] {
      Uncrashed(s, steps[0]);
      EventFits(s, steps[0], m);
      EventShows(s, steps[0], m);
      InvKept(s, steps[0]);
      var e := EventOf(s, steps[0]);
      RunPlays(Apply(s, steps[0]), steps[1..], Next(m, e));
      PlaysOn(m, e, Events(Apply(s, steps[0]), steps[1..]));
    }
  }

  ghost function Start(n: nat): Machine {
    Machine((a: int, b: int) => [], (i: int) => n)
  }

  lemma {:induction false} RunStarts(n: nat, steps: seq<Step>)
    requires Runs(Init(n), steps)
    ensures Starts(Start(n), Events(Init(n), steps))
  {
    InitOk(n);
    RunPlays(Init(n), steps, Start(n));
    EventCount(Init(n), steps);
    forall k | 0 <= k < |steps|
      ensures Events(Init(n), steps)[k].child > 0 && Events(Init(n), steps)[k].from != Events(Init(n), steps)[k].child
    {
      EventAt(Init(n), steps, k);
    }
  }

  /** Every message received in a run has been sent by an earlier step: what is in a
      channel is what has been sent on it and not yet received, in order. */
  lemma {:induction false} Senders(n: nat, steps: seq<Step>, l: nat) returns (k: nat)
    requires Runs(Init(n), steps) && l < |steps| && steps[l].ReceiveStep?
    ensures |Events(Init(n), steps)| == |steps| && k < l && Delivers(Events(Init(n), steps), k, l)
  {
    RunStarts(n, steps);
    EventAt(Init(n), steps, l);
    k := Sender(Start(n), Events(Init(n), steps), l);
  }

  /** The clock condition: along every causal chain of every run, through any number of
      children and messages, Lamport time strictly increases. */
  lemma {:induction false} ClockCondition(n: nat, steps: seq<Step>, ks: seq<nat>)
    requires Runs(Init(n), steps) && Chain(Events(Init(n), steps), ks) && |ks| >= 2
    ensures var t := Events(Init(n), steps);
            ks[|ks| - 1] < |t| == |steps| && t[ks[0]].time < t[ks[|ks| - 1]].time
  {
    RunStarts(n, steps);
    EventCount(Init(n), steps);
    ChainAscends(Start(n), Events(Init(n), steps), ks);
  }
}
