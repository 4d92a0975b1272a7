/** The fork and request-token protocol (dining philosophers on the complete graph
    of children): the state of one child, its steps, and the global system. */
module ForkProtocol {
  import opened Network

  datatype Msg = Request | Reply | Done | Other

  /** One child: the three per-peer flags of the mutex and the driver's variables.
      The rows are indexed by process id; index 0 is the parent. */
  datatype Proc = Proc(
    id: int, fork: seq<bool>, dirty: seq<bool>, token: seq<bool>,
    phase: Phase, awaiting: int, iter: nat)

  ghost predicate WfProc(p: Proc, n: nat) {
    |p.fork| == n + 1 && |p.dirty| == n + 1 && |p.token| == n + 1 && Child(n, p.id)
  }

  /** Messages a child hands to its channels in one step, one list per destination. */
  datatype Result = Result(proc: Proc, out: Mail<Msg>)

  /** Is child c asked for its fork at the head of the loop? */
  predicate Asks(p: Proc, c: int)
    requires 0 <= c < |p.fork| && 0 <= c < |p.token|
  {
    1 <= c && c != p.id && !p.fork[c] && p.token[c]
  }

  /** Head of the request loop: spend every token whose fork is missing. */
  function Ask(p: Proc, n: nat): Result
    requires WfProc(p, n)
  {
    Result(p.(token := seq(n + 1, c requires 0 <= c < n + 1 => p.token[c] && !Asks(p, c)), phase := Polling),
           seq(n + 1, c requires 0 <= c < n + 1 => if Asks(p, c) then [Request] else []))
  }

  /** The entry test: every fork is here and none of them is owed to a requester. */
  predicate CanEnter(p: Proc, n: nat)
    requires WfProc(p, n)
  {
    forall c :: 1 <= c <= n && c != p.id ==> p.fork[c] && !(p.dirty[c] && p.token[c])
  }

  function Test(p: Proc, n: nat): Proc
    requires WfProc(p, n)
  {
    p.(phase := if CanEnter(p, n) then Critical else Calling)
  }

  /** `give_up_fork`, with its assertion. */
  function GiveUp(p: Proc, n: nat, to: int): Result
    requires WfProc(p, n) && Child(n, to)
  {
    if p.fork[to] then Result(p.(fork := p.fork[to := false]), Single(n, to, Reply))
    else Result(p.(phase := Crashed), Nothing(n))
  }

  /** The driver's check of a message the mutex did not handle. */
  function Announced(p: Proc, m: Msg, next: Phase): Proc {
    if m == Done then p.(awaiting := p.awaiting - 1, phase := next) else p.(phase := Crashed)
  }

  /** One message received inside `request_cs`, and the entry test that follows. */
  function Receive(p: Proc, n: nat, from: int, m: Msg): Result
    requires WfProc(p, n) && Child(n, from)
  {
    match m
    case Reply =>
      Result(Test(p.(fork := p.fork[from := true], dirty := p.dirty[from := false]), n), Nothing(n))
    case Request =>
      var q := p.(token := p.token[from := true]);
      if q.fork[from] && q.dirty[from] then
        var r := GiveUp(q, n, from);
        Result(Test(r.proc, n), r.out)
      else
        Result(Test(q, n), Nothing(n))
    case _ =>
      Result(Announced(p, m, Calling), Nothing(n))
  }

  /** `release_cs`, then the driver's next iteration or its announcement of DONE. */
  function Release(p: Proc, n: nat): Result
    requires WfProc(p, n)
  {
    if exists c :: 1 <= c <= n && c != p.id && p.token[c] && !p.fork[c] then
      Result(p.(phase := Crashed), Nothing(n))
    else
      var last := p.iter + 1 >= Quota(p.id);
      Result(p.(fork := seq(n + 1, c requires 0 <= c < n + 1 => p.fork[c] && (c == p.id || c == 0 || !p.token[c])),
                dirty := seq(n + 1, c requires 0 <= c < n + 1 => p.dirty[c] || (1 <= c && c != p.id)),
                iter := p.iter + 1,
                phase := if last then Serving else Calling),
             seq(n + 1, c requires 0 <= c < n + 1 =>
               if c == p.id || c == 0 then []
               else (if p.token[c] then [Reply] else []) + (if last then [Done] else [])))
  }

  /** One message received in the driver's closing loop, inside `handle_cs_requests`. */
  function Serve(p: Proc, n: nat, from: int, m: Msg): Result
    requires WfProc(p, n) && Child(n, from)
  {
    if m == Request then GiveUp(p, n, from)
    else Result(Announced(p, m, Serving), Nothing(n))
  }

  /** `mutex_init` after the start barrier: the higher id of each pair holds the
      (dirty) fork, the lower id holds the request token. */
  function InitProc(n: nat, i: int): Proc {
    Proc(i, seq(n + 1, c => 1 <= c < i), seq(n + 1, c => 1 <= c < i), seq(n + 1, c => c > i),
         Calling, n - 1, 0)
  }

  // ---- the global system ----

  datatype State = State(n: nat, procs: seq<Proc>, ch: Channels<Msg>)

  datatype Step =
    | AskStep(i: int)
    | ReceiveStep(i: int, from: int)
    | EnterStep(i: int)
    | ReleaseStep(i: int)

  ghost predicate Wf(s: State) {
    |s.procs| == s.n + 1 &&
    forall i :: 0 <= i <= s.n ==> s.procs[i].id == i && (i > 0 ==> WfProc(s.procs[i], s.n))
  }

  function Init(n: nat): State {
    State(n, seq(n + 1, i => InitProc(n, i)), (a: int, b: int) => [])
  }

  ghost predicate Enabled(s: State, step: Step)
    requires Wf(s)
  {
    match step
    case AskStep(i) => Child(s.n, i) && s.procs[i].phase == Calling
    case ReceiveStep(i, from) =>
      Pair(s.n, i, from) && s.ch(from, i) != [] &&
      (s.procs[i].phase == Polling || (s.procs[i].phase == Serving && s.procs[i].awaiting > 0))
    case EnterStep(i) => Child(s.n, i) && s.procs[i].phase == Polling && CanEnter(s.procs[i], s.n)
    case ReleaseStep(i) => Child(s.n, i) && s.procs[i].phase == Critical
  }

  /** What the stepping child does. */
  ghost function Local(s: State, step: Step): Result
    requires Wf(s) && Enabled(s, step)
  {
    var p := s.procs[step.i];
    match step
    case AskStep(i) => Ask(p, s.n)
    case ReceiveStep(i, from) =>
      var m := s.ch(from, i)[0];
      if p.phase == Polling then Receive(p, s.n, from, m) else Serve(p, s.n, from, m)
    case EnterStep(i) => Result(p.(phase := Critical), Nothing(s.n))
    case ReleaseStep(i) => Release(p, s.n)
  }

  ghost function Apply(s: State, step: Step): (s': State)
    requires Wf(s) && Enabled(s, step)
    ensures Wf(s')
  {
    var r := Local(s, step);
    var ch := if step.ReceiveStep? then Consume(s.ch, step.from, step.i) else s.ch;
    State(s.n, s.procs[step.i := r.proc], Emit(ch, step.i, r.out))
  }
}
