/** The replicated request queue protocol (Lamport): the state of one child, its steps,
    and the global system. */
module QueueProtocol {
  import opened Network
  import opened Stamps

  /** One child. queue[c] is the timestamp of the pending request of child c as far as
      this child knows; 0 stands for no request. Index 0 is unused. */
  datatype Proc = Proc(
    id: int, clock: int, queue: seq<int>, replies: int,
    phase: Phase, awaiting: int, iter: nat)

  ghost predicate WfProc(p: Proc, n: nat) {
    |p.queue| == n + 1 && Child(n, p.id)
  }

  datatype Result = Result(proc: Proc, out: Mail<Message>)

  function Crash(p: Proc, n: nat): Result {
    Result(p.(phase := Crashed), Nothing(n))
  }

  /** `top_enqueued_request` over the entries of children 1..k: the scan keeps the first
      of the least timestamps, and answers 1 for an empty queue. */
  function Top(queue: seq<int>, k: nat): (top: int)
    requires 1 <= k < |queue|
    ensures 1 <= top <= k
  {
    if k == 1 then 1
    else
      var top := Top(queue, k - 1);
      if queue[k] != 0 && (queue[top] == 0 || queue[k] < queue[top]) then k else top
  }

  /** The request of i is pending and precedes every other pending request. */
  ghost predicate Least(queue: seq<int>, n: nat, i: int)
    requires |queue| == n + 1 && Child(n, i)
  {
    queue[i] != 0 && forall c :: 1 <= c <= n && c != i && queue[c] != 0 ==> Less(queue[i], i, queue[c], c)
  }

  lemma {:induction false} TopScans(queue: seq<int>, k: nat)
    requires 1 <= k < |queue|
    ensures var top := Top(queue, k);
            forall c :: 1 <= c <= k && c != top && queue[c] != 0 ==>
              queue[top] != 0 && Less(queue[top], top, queue[c], c)
    ensures queue[Top(queue, k)] == 0 ==> Top(queue, k) == 1
  {
    if k > 1 {
      TopScans(queue, k - 1);
    }
  }

  /** The scan answers i exactly when i's request is the least of the queue. */
  lemma TopIsLeast(queue: seq<int>, n: nat, i: int)
    requires |queue| == n + 1 && Child(n, i) && queue[i] != 0
    ensures Top(queue, n) == i <==> Least(queue, n, i)
  {
    TopScans(queue, n);
  }

  /** Head of `request_cs`: the clock ticks on every call; a request is issued unless
      one is pending already. */
  function Call(p: Proc, n: nat): Result
    requires WfProc(p, n)
  {
    var t := p.clock + 1;
    if p.queue[p.id] != 0 then Result(p.(clock := t, phase := Polling), Nothing(n))
    else Result(p.(clock := t, queue := p.queue[p.id := t], phase := Polling), ToChildren(n, p.id, [Request(t)]))
  }

  /** The entry test, made after every protocol message. */
  function Test(p: Proc, n: nat): Proc
    requires WfProc(p, n)
  {
    if p.replies == n - 1 && Top(p.queue, n) == p.id then p.(phase := Critical, replies := 0) else p
  }

  function Announced(p: Proc, n: nat, m: Message, next: Phase): Result {
    if m.Done? then Result(p.(awaiting := p.awaiting - 1, phase := next), Nothing(n)) else Crash(p, n)
  }

  /** A request or a release updates the queue; a request is answered at once. */
  function Update(p: Proc, n: nat, from: int, m: Message): Result
    requires WfProc(p, n) && Child(n, from) && (m.Request? || m.Release?)
  {
    if m.Request? then
      if p.queue[from] != 0 then Crash(p, n)
      else Result(p.(queue := p.queue[from := m.time], clock := p.clock + 1), Single(n, from, Reply(p.clock + 1)))
    else
      if p.queue[from] == 0 then Crash(p, n)
      else Result(p.(queue := p.queue[from := 0]), Nothing(n))
  }

  /** One message received inside `request_cs`. */
  function Receive(p0: Proc, n: nat, from: int, m: Message): Result
    requires WfProc(p0, n) && Child(n, from)
  {
    var p := p0.(clock := Sync(p0.clock, m.time));
    match m
    case Reply(_) => Result(Test(p.(replies := p.replies + 1), n), Nothing(n))
    case Done(_) => Announced(p, n, m, Calling)
    case _ =>
      var r := Update(p, n, from, m);
      if r.proc.phase == Crashed then r else Result(Test(r.proc, n), r.out)
  }

  /** `release_cs`, then the next iteration or the announcement of DONE. */
  function Release(p: Proc, n: nat): Result
    requires WfProc(p, n)
  {
    if p.queue[p.id] == 0 then Crash(p, n)
    else
      var last := p.iter + 1 >= Quota(p.id);
      var t := p.clock + 1;
      Result(p.(queue := p.queue[p.id := 0], clock := if last then t + 1 else t,
                iter := p.iter + 1, phase := if last then Serving else Calling),
             ToChildren(n, p.id, [Message.Release(t)] + if last then [Done(t + 1)] else []))
  }

  /** One message received in the driver's closing loop, inside `handle_cs_requests`. */
  function Serve(p0: Proc, n: nat, from: int, m: Message): Result
    requires WfProc(p0, n) && Child(n, from)
  {
    var p := p0.(clock := Sync(p0.clock, m.time));
    if m.Request? || m.Release? then Update(p, n, from, m) else Announced(p, n, m, Serving)
  }

  /** After the start barrier every clock shows n. */
  function InitProc(n: nat, i: int): Proc {
    Proc(i, n, seq(n + 1, c => 0), 0, Calling, n - 1, 0)
  }

  // ---- the global system ----

  /** log records every entry into the critical section. */
  datatype State = State(n: nat, procs: seq<Proc>, ch: Channels<Message>, log: Log)

  datatype Step =
    | CallStep(i: int)
    | ReceiveStep(i: int, from: int)
    | ReleaseStep(i: int)

  ghost predicate Wf(s: State) {
    |s.procs| == s.n + 1 &&
    forall i :: 0 <= i <= s.n ==> s.procs[i].id == i && (i > 0 ==> WfProc(s.procs[i], s.n))
  }

  function Init(n: nat): State {
    State(n, seq(n + 1, i => InitProc(n, i)), (a: int, b: int) => [], [])
  }

  ghost predicate Enabled(s: State, step: Step)
    requires Wf(s)
  {
    match step
    case CallStep(i) => Child(s.n, i) && s.procs[i].phase == Calling
    case ReceiveStep(i, from) =>
      Pair(s.n, i, from) && s.ch(from, i) != [] &&
      (s.procs[i].phase == Polling || (s.procs[i].phase == Serving && s.procs[i].awaiting > 0))
    case ReleaseStep(i) => Child(s.n, i) && s.procs[i].phase == Critical
  }

  ghost function Local(s: State, step: Step): Result
    requires Wf(s) && Enabled(s, step)
  {
    var p := s.procs[step.i];
    match step
    case CallStep(i) => Call(p, s.n)
    case ReceiveStep(i, from) =>
      var m := s.ch(from, i)[0];
      if p.phase == Polling then Receive(p, s.n, from, m) else Serve(p, s.n, from, m)
    case ReleaseStep(i) => Release(p, s.n)
  }

  ghost function Apply(s: State, step: Step): (s': State)
    requires Wf(s) && Enabled(s, step)
    ensures Wf(s')
  {
    var r := Local(s, step);
    var ch := if step.ReceiveStep? then Consume(s.ch, step.from, step.i) else s.ch;
    State(s.n, s.procs[step.i := r.proc], Emit(ch, step.i, r.out),
          if step.ReceiveStep? && r.proc.phase == Critical then s.log + [(r.proc.queue[step.i], step.i)] else s.log)
  }
}
