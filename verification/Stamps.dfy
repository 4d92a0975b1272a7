/** Lamport timestamps, the messages that carry them, and the order in which the two
    timestamp protocols grant the critical section. */
module Stamps {
  import opened Sums

  datatype Message = Request(time: int) | Reply(time: int) | Release(time: int) | Done(time: int)

  datatype Kind = ARequest | AReply | ARelease | ADone

  function KindOf(m: Message): Kind {
    match m
    case Request(_) => ARequest
    case Reply(_) => AReply
    case Release(_) => ARelease
    case Done(_) => ADone
  }

  /** `synchronize_time`. */
  function Sync(clock: int, received: int): int {
    (if received > clock then received else clock) + 1
  }

  /** Requests are ordered by timestamp, then by process id. */
  predicate Less(t: int, i: int, u: int, j: int) {
    t < u || (t == u && i < j)
  }

  function Count(ch: seq<Message>, k: Kind): nat {
    if ch == [] then 0 else Bit(KindOf(ch[0]) == k) + Count(ch[1..], k)
  }

  lemma {:induction false} CountConcat(ch: seq<Message>, more: seq<Message>, k: Kind)
    ensures Count(ch + more, k) == Count(ch, k) + Count(more, k)
  {
    if ch == [] {
      assert ch + more == more;
    } else {
      assert (ch + more)[1..] == ch[1..] + more;
      CountConcat(ch[1..], more, k);
    }
  }

  lemma {:induction false} CountPresent(ch: seq<Message>, m: Message)
    requires m in ch
    ensures Count(ch, KindOf(m)) > 0
  {
    if ch[0] != m {
      CountPresent(ch[1..], m);
    }
  }

  /** The log of granted requests, as (timestamp, id) pairs. */
  type Log = seq<(int, int)>

  ghost predicate Increasing(log: Log) {
    forall k, l :: 0 <= k < l < |log| ==> Less(log[k].0, log[k].1, log[l].0, log[l].1)
  }

  lemma IncreasingAppend(log: Log, t: int, i: int)
    requires Increasing(log)
    requires log == [] || Less(log[|log| - 1].0, log[|log| - 1].1, t, i)
    ensures Increasing(log + [(t, i)])
  {
    var more := log + [(t, i)];
    forall k, l | 0 <= k < l < |more|
      ensures Less(more[k].0, more[k].1, more[l].0, more[l].1)
    {
      if l == |log| && k < |log| - 1 {
        assert Less(log[k].0, log[k].1, log[|log| - 1].0, log[|log| - 1].1);
      }
    }
  }
}
