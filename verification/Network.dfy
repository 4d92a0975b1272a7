/** What the three mutual exclusion protocols share: the driver's control points
    and one FIFO channel per ordered pair of processes. */
module Network {

  /** Control point of a child between two steps.
      Calling: about to run the head of `request_cs`; Polling: about to poll for a
      message inside `request_cs`; Critical: between `request_cs` and `release_cs`;
      Serving: past its own announcement of DONE, in the driver's closing loop;
      Crashed: an assertion or a message type check of the source has failed. */
  datatype Phase = Calling | Polling | Critical | Serving | Crashed

  /** Critical sections child `id` runs through. */
  function Quota(id: nat): nat {
    5 * id
  }

  /** ch(i, j) is the channel from i to j, oldest message first. */
  type Channels<!M> = (int, int) -> seq<M>

  ghost predicate Child(n: nat, i: int) {
    1 <= i <= n
  }

  ghost predicate Pair(n: nat, a: int, b: int) {
    Child(n, a) && Child(n, b) && a != b
  }

  /** Lists of messages by process id: what a step sends, or what waits to be received. */
  type Mail<M> = seq<seq<M>>

  function Nothing<M>(n: nat): Mail<M> {
    seq(n + 1, c => [])
  }

  function Single<M>(n: nat, to: int, m: M): Mail<M> {
    seq(n + 1, c => if c == to then [m] else [])
  }

  /** `ipc_multicast_to_children`: to every child but self. */
  function ToChildren<M>(n: nat, self: int, msgs: seq<M>): Mail<M> {
    seq(n + 1, c => if c == self || c == 0 then [] else msgs)
  }

  /** `send_multicast`: to the parent as well. */
  function ToAll<M>(n: nat, self: int, m: M): Mail<M> {
    seq(n + 1, c => if c == self then [] else [m])
  }

  /** Process i appends out[d] to its channel to every d. */
  function Emit<M(!new)>(ch: Channels<M>, i: int, out: Mail<M>): Channels<M> {
    (a: int, b: int) => if a == i && 0 <= b < |out| then ch(a, b) + out[b] else ch(a, b)
  }

  /** Process i consumes the oldest message of its channel from `from`. */
  function Consume<M(!new)>(ch: Channels<M>, from: int, i: int): Channels<M>
    requires ch(from, i) != []
  {
    var rest := ch(from, i)[1..];
    (a: int, b: int) => if a == from && b == i then rest else ch(a, b)
  }
}
