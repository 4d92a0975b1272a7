/** The banking run at the grain of single reads and writes: a multicast writes to one
    process after the other, and the main loop reads one channel after the other. */
module BankingPolls {
  import opened Network
  import opened Banking
  import opened BankingTheorems

  /** s is the state with every message its sender has decided to send. next[a] is the
      process that a's multicast writes to next, n + 1 if a is not in one; poll[i] is the
      channel that the main loop of child i reads next. */
  datatype Fine = Fine(s: State, next: seq<int>, poll: seq<int>)

  datatype Move = Act(step: Step) | Write(a: int) | Look(i: int)

  ghost predicate FineWf(f: Fine) {
    && Wf(f.s) && |f.next| == |f.poll| == f.s.n + 1
    && forall a :: 0 <= a <= f.s.n ==> 0 <= f.next[a] <= f.s.n + 1 && 0 <= f.poll[a] <= f.s.n
  }

  /** What can be read: the last message to b is missing while a's multicast has not come
      to b. */
  ghost function Written(f: Fine, a: int, b: int): seq<Order>
    requires FineWf(f) && 0 <= a <= f.s.n && 0 <= b <= f.s.n
  {
    var ch := f.s.ch(a, b);
    if a != b && f.next[a] <= b && ch != [] then ch[..|ch| - 1] else ch
  }

  ghost predicate Idle(f: Fine, a: int)
    requires FineWf(f) && 0 <= a <= f.s.n
  {
    f.next[a] > f.s.n
  }

  ghost predicate CanMove(f: Fine, move: Move)
    requires FineWf(f)
  {
    match move
    case Write(a) => 0 <= a <= f.s.n && !Idle(f, a)
    case Look(i) =>
      Child(f.s.n, i) && f.s.accounts[i].stage == Running && Idle(f, i) &&
      (f.poll[i] == i || Written(f, f.poll[i], i) == [])
    case Act(step) =>
      Enabled(f.s, step) &&
      match step
      case TransferStep(_, _, _) => Idle(f, 0)
      case StopStep => Idle(f, 0)
      case AckStep => Idle(f, 0) && 0 <= f.s.parent.dst <= f.s.n && Written(f, f.s.parent.dst, 0) != []
      case ReceiveStep(i, from) => Idle(f, i) && f.poll[i] == from && Written(f, from, i) != []
      case CollectStep(i) =>
        var from := f.s.accounts[i].stage.next;
        Idle(f, i) && 0 <= from <= f.s.n && Written(f, from, i) != []
  }

  /** Does the step begin a multicast? */
  ghost predicate Announces(s: State, step: Step)
    requires Wf(s) && Enabled(s, step)
  {
    step == StopStep || (step.ReceiveStep? && s.ch(step.from, step.i)[0].Stop?)
  }

  function Actor(step: Step): int {
    if step.ReceiveStep? || step.CollectStep? then step.i else 0
  }

  ghost function Next(f: Fine, move: Move): (f': Fine)
    requires FineWf(f) && CanMove(f, move)
    ensures FineWf(f')
  {
    match move
    case Write(a) => f.(next := f.next[a := f.next[a] + 1])
    case Look(i) => f.(poll := f.poll[i := if f.poll[i] == f.s.n then 0 else f.poll[i] + 1])
    case Act(step) =>
      Fine(Apply(f.s, step),
           if Announces(f.s, step) then f.next[Actor(step) := 0] else f.next,
           if step.ReceiveStep? then f.poll[step.i := 0] else f.poll)
  }

  function FineInit(n: nat, start: seq<int>): Fine
    requires |start| == n + 1
  {
    Fine(Init(n, start), seq(n + 1, _ => n + 1), seq(n + 1, _ => 0))
  }

  ghost predicate FineRuns(f: Fine, moves: seq<Move>)
    requires FineWf(f)
    decreases |moves|
  {
    moves == [] || (CanMove(f, moves[0]) && FineRuns(Next(f, moves[0]), moves[1..]))
  }

  ghost function FineAfter(f: Fine, moves: seq<Move>): (f': Fine)
    requires FineWf(f) && FineRuns(f, moves)
    ensures FineWf(f') && f'.s.n == f.s.n && f'.s.start == f.s.start
    decreases |moves|
  {
    if moves == [] then f else FineAfter(Next(f, moves[0]), moves[1..])
  }

  /** The steps among the moves. */
  function Steps(moves: seq<Move>): seq<Step> {
    if moves == [] then [] else (if moves[0].Act? then [moves[0].step] else []) + Steps(moves[1..])
  }

  /** Every run at this grain is, reads that find nothing and single writes aside, a run of
      the banking protocol: whatever holds of all its reachable states holds here. */
  lemma {:induction false} FineIsCoarse(f: Fine, moves: seq<Move>)
    requires FineWf(f) && FineRuns(f, moves)
    ensures Runs(f.s, Steps(moves)) && After(f.s, Steps(moves)) == FineAfter(f, moves).s
    decreases |moves|
  {
    if moves != [] {
      var f' := Next(f, moves[0]);
      FineIsCoarse(f', moves[1..]);
      if moves[0].Act? {
        RunsStep(f.s, moves[0].step, Steps(moves[1..]));
      } else {
        assert Steps(moves) == Steps(moves[1..]);
      }
    }
  }
}
