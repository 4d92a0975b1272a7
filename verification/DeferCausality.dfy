/** The clock condition over runs of the deferred-reply protocol: what happens before
    has the smaller Lamport time. */
module DeferCausality {
  import opened Network
  import opened Stamps
  import opened Causality
  import opened DeferProtocol
  import opened DeferSystem
  import opened DeferInvariant
  import opened DeferOrder
  import opened DeferClock

  /** A call that resumes a pending request, or a release with nothing deferred: no tick. */
  ghost predicate Silent(s: State, step: Step)
    requires Wf(s) && Enabled(s, step)
  {
    Local(s, step).proc.clock == s.procs[step.i].clock
  }

  /** A step that ticks, as an event. */
  ghost function EventOf(s: State, step: Step): Event
    requires Wf(s) && Enabled(s, step)
  {
    var clock := s.procs[step.i].clock;
    var r := Local(s, step);
    if step.ReceiveStep? then
      var t := s.ch(step.from, step.i)[0].time;
      Event(step.i, step.from, t, r.out, Sync(clock, t), r.proc.clock)
    else Event(step.i, 0, 0, r.out, clock + 1, r.proc.clock)
  }

  /** The events of a run: one for every step that ticks. */
  ghost function Events(s: State, steps: seq<Step>): seq<Event>
    requires Wf(s) && Runs(s, steps)
    decreases |steps|
  {
    if steps == [] then []
    else (if Silent(s, steps[0]) then [] else [EventOf(s, steps[0])]) + Events(Apply(s, steps[0]), steps[1..])
  }

  lemma {:induction false} EventsApart(s: State, steps: seq<Step>)
    requires Wf(s) && Runs(s, steps)
    ensures forall e :: e in Events(s, steps) ==> e.child > 0 && e.from != e.child
    decreases |steps|
  {
    if steps != [] {
      EventsApart(Apply(s, steps[0]), steps[1..]);
    }
  }

  /** The machine shows the clocks and the channels of s. */
  ghost predicate Shows(m: Machine, s: State)
    requires Wf(s)
  {
    && (forall i :: Child(s.n, i) ==> m.clock(i) == s.procs[i].clock)
    && (forall i, j :: Pair(s.n, i, j) ==> m.ch(i, j) == s.ch(i, j))
  }

  lemma EventFits(s: State, step: Step, m: Machine)
    requires Inv(s) && Enabled(s, step) && !Silent(s, step) && Shows(m, s)
    ensures Fits(m, EventOf(s, step))
  {
    Uncrashed(s, step);
    match step
    case CallStep(i) => CallFits(s, i);
    case ReceiveStep(i, from) => ReceiveFits(s, i, from);
    case ReleaseStep(i) => ReleaseFits(s, i);
  }

  /** Everything a step sends is stamped from its first tick on. */
  ghost predicate Stamped(s: State, step: Step)
    requires Wf(s) && Enabled(s, step)
  {
    var e := EventOf(s, step);
    s.procs[step.i].clock < e.time <= e.end && forall b, x :: 0 <= b < |e.out| && x in e.out[b] ==> e.time <= x.time
  }

  lemma CallFits(s: State, i: int)
    requires Wf(s) && Enabled(s, CallStep(i)) && !Silent(s, CallStep(i))
    ensures Stamped(s, CallStep(i))
  {
  }

  lemma ReceiveFits(s: State, i: int, from: int)
    requires Wf(s) && Enabled(s, ReceiveStep(i, from)) && Local(s, ReceiveStep(i, from)).proc.phase != Crashed
    ensures Stamped(s, ReceiveStep(i, from))
  {
    LocalReceive(s, i, from, from);
  }

  lemma ReleaseFits(s: State, i: int)
    requires Wf(s) && Enabled(s, ReleaseStep(i)) && Local(s, ReleaseStep(i)).proc.phase != Crashed
    requires !Silent(s, ReleaseStep(i))
    ensures Stamped(s, ReleaseStep(i))
  {
    DeferredGrows(s.procs[i].queue, i, 0, s.n);
    forall b | 1 <= b <= s.n
      ensures b != i && s.procs[i].queue[b] != 0 ==> Deferred(s.procs[i].queue, i, b) >= 1
    {
      DeferredGrows(s.procs[i].queue, i, 0, b - 1);
    }
  }

  lemma EventShows(s: State, step: Step, m: Machine)
    requires Wf(s) && Enabled(s, step) && Shows(m, s)
    ensures Shows(Next(m, EventOf(s, step)), Apply(s, step))
  {
    forall i, j | Pair(s.n, i, j)
      ensures Next(m, EventOf(s, step)).ch(i, j) == Apply(s, step).ch(i, j)
    {
      ChannelShows(s, step, m, i, j);
    }
  }

  lemma ChannelShows(s: State, step: Step, m: Machine, i: int, j: int)
    requires Wf(s) && Enabled(s, step) && Shows(m, s) && Pair(s.n, i, j)
    ensures Next(m, EventOf(s, step)).ch(i, j) == Apply(s, step).ch(i, j)
  {
    OutLength(s, step);
  }

  /** A silent step takes and sends nothing. */
  lemma SilentShows(s: State, step: Step, m: Machine)
    requires Inv(s) && Enabled(s, step) && Shows(m, s) && Silent(s, step)
    ensures !step.ReceiveStep? && Shows(m, Apply(s, step))
  {
    SilentSends(s, step);
    forall i, j | Pair(s.n, i, j)
      ensures Apply(s, step).ch(i, j) == s.ch(i, j)
    {
      QuietChannel(s, step, i, j);
    }
  }

  lemma QuietChannel(s: State, step: Step, i: int, j: int)
    requires Wf(s) && Enabled(s, step) && Pair(s.n, i, j) && !step.ReceiveStep?
    requires forall b :: Pair(s.n, step.i, b) ==> |Local(s, step).out| == s.n + 1 && Local(s, step).out[b] == []
    ensures Apply(s, step).ch(i, j) == s.ch(i, j)
  {
  }

  lemma SilentSends(s: State, step: Step)
    requires Inv(s) && Enabled(s, step) && Silent(s, step)
    ensures !step.ReceiveStep?
    ensures forall b :: Pair(s.n, step.i, b) ==> |Local(s, step).out| == s.n + 1 && Local(s, step).out[b] == []
  {
    Uncrashed(s, step);
    match step
    case CallStep(i) =>
    case ReceiveStep(i, from) => LocalReceive(s, i, from, from);
    case ReleaseStep(i) => SilentRelease(s, i);
  }

  lemma SilentRelease(s: State, i: int)
    requires Wf(s) && Enabled(s, ReleaseStep(i)) && Local(s, ReleaseStep(i)).proc.phase != Crashed
    requires Silent(s, ReleaseStep(i))
    ensures forall b :: Pair(s.n, i, b) ==>
              |Local(s, ReleaseStep(i)).out| == s.n + 1 && Local(s, ReleaseStep(i)).out[b] == []
  {
    forall b | Pair(s.n, i, b)
      ensures s.procs[i].queue[b] == 0
    {
      DeferredGrows(s.procs[i].queue, i, 0, b - 1);
      DeferredGrows(s.procs[i].queue, i, b, s.n);
    }
  }

  lemma {:induction false} RunPlays(s: State, steps: seq<Step>, m: Machine)
    requires Inv(s) && Runs(s, steps) && Shows(m, s)
    ensures Plays(m, Events(s, steps))
    decreases |steps|
  {
    if steps != [] {
      var s', rest := Apply(s, steps[0]), steps[1..];
      InvKept(s, steps[0]);
      if Silent(s, steps[0]) {
        SilentShows(s, steps[0], m);
        RunPlays(s', rest, m);
        assert Events(s, steps) == [] + Events(s', rest) == Events(s', rest);
      } else {
        EventStep(s, steps[0], m);
        RunPlays(s', rest, Next(m, EventOf(s, steps[0])));
        PlaysOn(m, EventOf(s, steps[0]), Events(s', rest));
      }
    }
  }

  lemma EventStep(s: State, step: Step, m: Machine)
    requires Inv(s) && Enabled(s, step) && !Silent(s, step) && Shows(m, s)
    ensures Fits(m, EventOf(s, step)) && Shows(Next(m, EventOf(s, step)), Apply(s, step))
  {
    EventFits(s, step, m);
    EventShows(s, step, m);
  }

  ghost function Start(n: nat): Machine {
    Machine((a: int, b: int) => [], (i: int) => n)
  }

  lemma {:induction false} RunStarts(n: nat, steps: seq<Step>)
    requires Runs(Init(n), steps)
    ensures Starts(Start(n), Events(Init(n), steps))
  {
    InitOk(n);
    RunPlays(Init(n), steps, Start(n));
    EventsApart(Init(n), steps);
  }

  /** The clock condition: along every causal chain of the events of every run, through any
      number of children and messages, Lamport time strictly increases. */
  lemma {:induction false} ClockCondition(n: nat, steps: seq<Step>, ks: seq<nat>)
    requires Runs(Init(n), steps) && Chain(Events(Init(n), steps), ks) && |ks| >= 2
    ensures var t := Events(Init(n), steps); ks[|ks| - 1] < |t| && t[ks[0]].time < t[ks[|ks| - 1]].time
  {
    RunStarts(n, steps);
    ChainAscends(Start(n), Events(Init(n), steps), ks);
  }
}
