/** The deferred-reply protocol (Ricart and Agrawala): the state of one child, its
    steps, and the global system. */
module DeferProtocol {
  import opened Network
  import opened Stamps

  /** One child. queue[c] is the pending request of child c as this child knows it (its
      own request, or one it has deferred); 0 stands for no request. Index 0 is unused. */
  datatype Proc = Proc(
    id: int, clock: int, queue: seq<int>, replies: int,
    phase: Phase, awaiting: int, iter: nat)

  ghost predicate WfProc(p: Proc, n: nat) {
    |p.queue| == n + 1 && Child(n, p.id)
  }

  datatype Result = Result(proc: Proc, out: Mail<Message>)

  function Crash(p: Proc, n: nat): Result {
    Result(p.(phase := Crashed), Nothing(n))
  }

  /** Head of `request_cs`: issue a request unless one is pending already. */
  function Call(p: Proc, n: nat): Result
    requires WfProc(p, n)
  {
    if p.queue[p.id] != 0 then Result(p.(phase := Polling), Nothing(n))
    else
      var t := p.clock + 1;
      Result(p.(clock := t, queue := p.queue[p.id := t], phase := Polling), ToChildren(n, p.id, [Request(t)]))
  }

  /** The entry test, made after every protocol message. */
  function Test(p: Proc, n: nat): Proc {
    if p.replies == n - 1 then p.(phase := Critical, replies := 0) else p
  }

  function Announced(p: Proc, n: nat, m: Message, next: Phase): Result {
    if m.Done? then Result(p.(awaiting := p.awaiting - 1, phase := next), Nothing(n)) else Crash(p, n)
  }

  function Answer(p: Proc, n: nat, to: int): Result {
    Result(p.(clock := p.clock + 1), Single(n, to, Reply(p.clock + 1)))
  }

  /** One message received inside `request_cs`. */
  function Receive(p0: Proc, n: nat, from: int, m: Message): Result
    requires WfProc(p0, n) && Child(n, from)
  {
    var p := p0.(clock := Sync(p0.clock, m.time));
    match m
    case Reply(_) => Result(Test(p.(replies := p.replies + 1), n), Nothing(n))
    case Request(t) =>
      if Less(p.queue[p.id], p.id, t, from) then
        if p.queue[from] != 0 then Crash(p, n)
        else Result(Test(p.(queue := p.queue[from := t]), n), Nothing(n))
      else
        var r := Answer(p, n, from);
        Result(Test(r.proc, n), r.out)
    case _ => Announced(p, n, m, Calling)
  }

  /** Deferred requests of children 1..c. */
  function Deferred(queue: seq<int>, self: int, c: nat): nat
    requires c < |queue|
  {
    if c == 0 then 0 else Deferred(queue, self, c - 1) + if c != self && queue[c] != 0 then 1 else 0
  }

  /** `release_cs` answers every deferred request in the order of ids, ticking the clock
      for each; then comes the next iteration or the announcement of DONE. */
  function Release(p: Proc, n: nat): Result
    requires WfProc(p, n)
  {
    if p.queue[p.id] == 0 then Crash(p, n)
    else
      var last := p.iter + 1 >= Quota(p.id);
      var t := p.clock + Deferred(p.queue, p.id, n);
      Result(p.(queue := seq(n + 1, c requires 0 <= c < n + 1 => if c == 0 then p.queue[0] else 0),
                clock := if last then t + 1 else t,
                iter := p.iter + 1,
                phase := if last then Serving else Calling),
             seq(n + 1, c requires 0 <= c < n + 1 =>
               if c == p.id || c == 0 then []
               else (if p.queue[c] != 0 then [Message.Reply(p.clock + Deferred(p.queue, p.id, c))] else [])
                    + (if last then [Done(t + 1)] else [])))
  }

  /** One message received in the driver's closing loop, inside `handle_cs_requests`. */
  function Serve(p0: Proc, n: nat, from: int, m: Message): Result
    requires WfProc(p0, n) && Child(n, from)
  {
    var p := p0.(clock := Sync(p0.clock, m.time));
    if m.Request? then Answer(p, n, from) else Announced(p, n, m, Serving)
  }

  /** After the start barrier every clock shows n. */
  function InitProc(n: nat, i: int): Proc {
    Proc(i, n, seq(n + 1, c => 0), 0, Calling, n - 1, 0)
  }

  // ---- the global system ----

  /** log records every entry into the critical section. */
  datatype State = State(n: nat, procs: seq<Proc>, ch: Channels<Message>, log: Log)

  datatype Step =
    | CallStep(i: int)
    | ReceiveStep(i: int, from: int)
    | ReleaseStep(i: int)

  ghost predicate Wf(s: State) {
    |s.procs| == s.n + 1 &&
    forall i :: 0 <= i <= s.n ==> s.procs[i].id == i && (i > 0 ==> WfProc(s.procs[i], s.n))
  }

  function Init(n: nat): State {
    State(n, seq(n + 1, i => InitProc(n, i)), (a: int, b: int) => [], [])
  }

  ghost predicate Enabled(s: State, step: Step)
    requires Wf(s)
  {
    match step
    case CallStep(i) => Child(s.n, i) && s.procs[i].phase == Calling
    case ReceiveStep(i, from) =>
      Pair(s.n, i, from) && s.ch(from, i) != [] &&
      (s.procs[i].phase == Polling || (s.procs[i].phase == Serving && s.procs[i].awaiting > 0))
    case ReleaseStep(i) => Child(s.n, i) && s.procs[i].phase == Critical
  }

  ghost function Local(s: State, step: Step): Result
    requires Wf(s) && Enabled(s, step)
  {
    var p := s.procs[step.i];
    match step
    case CallStep(i) => Call(p, s.n)
    case ReceiveStep(i, from) =>
      var m := s.ch(from, i)[0];
      if p.phase == Polling then Receive(p, s.n, from, m) else Serve(p, s.n, from, m)
    case ReleaseStep(i) => Release(p, s.n)
  }

  ghost function Apply(s: State, step: Step): (s': State)
    requires Wf(s) && Enabled(s, step)
    ensures Wf(s')
  {
    var r := Local(s, step);
    var ch := if step.ReceiveStep? then Consume(s.ch, step.from, step.i) else s.ch;
    State(s.n, s.procs[step.i := r.proc], Emit(ch, step.i, r.out),
          if step.ReceiveStep? && r.proc.phase == Critical then s.log + [(r.proc.queue[step.i], step.i)] else s.log)
  }
}
