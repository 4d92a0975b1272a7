/** The message layer as one process sees it: a FIFO channel from every other process,
    polled in the order of ids, and a record of what has been sent. */
module Ipc {
  import opened Network

  datatype Option<T> = None | Some(value: T)

  /** Messages that arrive (or are sent) go to the end of each list. */
  function Append<M>(mail: Mail<M>, more: Mail<M>): (r: Mail<M>)
    requires |more| == |mail|
    ensures |r| == |mail|
  {
    seq(|mail|, c requires 0 <= c < |mail| => mail[c] + more[c])
  }

  lemma AppendNothing<M>(mail: Mail<M>, n: nat)
    requires |mail| == n + 1
    ensures Append(mail, Nothing(n)) == mail
  {
    assert forall c :: 0 <= c <= n ==> mail[c] + [] == mail[c];
  }

  lemma AppendTwice<M>(mail: Mail<M>, one: Mail<M>, two: Mail<M>)
    requires |mail| == |one| == |two|
    ensures Append(Append(mail, one), two) == Append(mail, Append(one, two))
  {
    forall c | 0 <= c < |mail|
      ensures mail[c] + one[c] + two[c] == mail[c] + (one[c] + two[c])
    {
    }
  }

  /** The least sender at or after k, other than self, with a message waiting. */
  function First<M>(mail: Mail<M>, self: nat, k: nat): (r: Option<nat>)
    requires k <= |mail|
    ensures r.Some? ==> k <= r.value < |mail| && r.value != self && mail[r.value] != []
    ensures r.Some? ==> forall c :: k <= c < r.value && c != self ==> mail[c] == []
    ensures r.None? ==> forall c :: k <= c < |mail| && c != self ==> mail[c] == []
    decreases |mail| - k
  {
    if k == |mail| then None
    else if k != self && mail[k] != [] then Some(k)
    else First(mail, self, k + 1)
  }

  function Pop<M>(mail: Mail<M>, from: nat): (r: Mail<M>)
    requires from < |mail| && mail[from] != []
    ensures |r| == |mail|
  {
    mail[from := mail[from][1..]]
  }

  /** One list for every process in the inbox and in what each poll delivers. */
  ghost predicate Boxes<M>(n: int, inbox: Mail<M>, arrivals: seq<Mail<M>>) {
    |inbox| == n + 1 && forall k :: 0 <= k < |arrivals| ==> |arrivals[k]| == n + 1
  }

  /** What the polls to come deliver from c. */
  function Delivered<M>(arrivals: seq<Mail<M>>, c: nat): seq<M>
    requires forall k :: 0 <= k < |arrivals| ==> c < |arrivals[k]|
  {
    if arrivals == [] then [] else arrivals[0][c] + Delivered(arrivals[1..], c)
  }

  /** All that is ever there to be received from c, in order. */
  function Stream<M>(inbox: Mail<M>, arrivals: seq<Mail<M>>, c: nat): seq<M>
    requires c < |inbox| && Boxes(|inbox| - 1, inbox, arrivals)
  {
    inbox[c] + Delivered(arrivals, c)
  }

  /** A poll moves messages along their streams, and takes the oldest of one. */
  lemma StreamPolled<M>(inbox: Mail<M>, arrivals: seq<Mail<M>>, c: nat)
    requires c < |inbox| && Boxes(|inbox| - 1, inbox, arrivals) && arrivals != []
    ensures var mail := Append(inbox, arrivals[0]);
            && Stream(mail, arrivals[1..], c) == Stream(inbox, arrivals, c)
            && forall from :: 0 <= from < |mail| && mail[from] != [] ==>
                 Stream(inbox, arrivals, c) ==
                 (if c == from then [mail[from][0]] else []) + Stream(Pop(mail, from), arrivals[1..], c)
  {
    var mail := Append(inbox, arrivals[0]);
    assert mail[c] + Delivered(arrivals[1..], c) == inbox[c] + (arrivals[0][c] + Delivered(arrivals[1..], c));
    forall from | 0 <= from < |mail| && mail[from] != []
      ensures Stream(inbox, arrivals, c) ==
              (if c == from then [mail[from][0]] else []) + Stream(Pop(mail, from), arrivals[1..], c)
    {
      assert c == from ==> mail[c] == [mail[from][0]] + Pop(mail, from)[c];
    }
  }

  /** Children other than self from `from` on. */
  function Others(n: nat, self: nat, from: nat): int {
    n + 1 - from - if from <= self <= n then 1 else 0
  }

  /** With the first k polls, every process but self from `from` on has been heard of. */
  ghost predicate Heard<M>(inbox: Mail<M>, arrivals: seq<Mail<M>>, n: nat, self: nat, from: nat, k: nat)
    requires Boxes(n, inbox, arrivals)
  {
    k <= |arrivals| &&
    forall c :: from <= c <= n && c != self ==> Stream(inbox, arrivals[..k], c) != []
  }

  lemma HeardNext<M>(inbox: Mail<M>, arrivals: seq<Mail<M>>, n: nat, self: nat, from: nat, k: nat)
    requires Boxes(n, inbox, arrivals) && arrivals != [] && Heard(inbox, arrivals, n, self, from, k)
    ensures var mail, k' := Append(inbox, arrivals[0]), if k > 0 then k - 1 else 0;
            Heard(mail, arrivals[1..], n, self, from, k')
  {
    var mail, k' := Append(inbox, arrivals[0]), if k > 0 then k - 1 else 0;
    forall c | from <= c <= n && c != self
      ensures Stream(mail, arrivals[1..][..k'], c) != []
    {
      assert Stream(inbox, arrivals[..k], c) != [];
      if k == 0 {
        assert inbox[c] != [] && mail[c] == inbox[c] + arrivals[0][c];
      } else {
        StreamPolled(inbox, arrivals[..k], c);
        assert arrivals[..k][1..] == arrivals[1..][..k'];
      }
    }
  }

  lemma HeardTaken<M>(mail: Mail<M>, arrivals: seq<Mail<M>>, n: nat, self: nat, from: nat, k: nat)
    requires Boxes(n, mail, arrivals) && from <= n && mail[from] != [] && Heard(mail, arrivals, n, self, from, k)
    ensures Heard(Pop(mail, from), arrivals, n, self, from + 1, k)
  {
    forall c | from + 1 <= c <= n && c != self
      ensures Stream(Pop(mail, from), arrivals[..k], c) != []
    {
      assert Stream(mail, arrivals[..k], c) != [];
    }
  }

  lemma NotHeard<M>(inbox: Mail<M>, arrivals: seq<Mail<M>>, n: nat, self: nat, from: nat)
    requires Boxes(n, inbox, arrivals) && from <= n && from != self && inbox[from] == []
    ensures !Heard(inbox, arrivals, n, self, from, 0)
  {
    assert Stream(inbox, arrivals[..0], from) == [];
  }

  /** A poll that delivers one message takes it and leaves nothing. */
  lemma DeliverOne<M>(n: nat, self: nat, from: nat, m: M)
    requires from <= n && from != self
    ensures Append(Nothing(n), Single(n, from, m)) == Single(n, from, m)
    ensures First(Single(n, from, m), self, 0) == Some(from)
    ensures Single(n, from, m)[from] == [m] && Pop(Single(n, from, m), from) == Nothing(n)
  {
    FirstSingle(n, self, from, m, 0);
    TakeOnly(n, from, m);
  }

  lemma TakeOnly<M>(n: nat, from: nat, m: M)
    requires from <= n
    ensures Append(Nothing(n), Single(n, from, m)) == Single(n, from, m)
    ensures Single(n, from, m)[from] == [m] && Pop(Single(n, from, m), from) == Nothing(n)
  {
    assert forall c :: 0 <= c <= n ==> Nothing<M>(n)[c] + Single(n, from, m)[c] == Single(n, from, m)[c];
    assert [m][1..] == [];
    assert forall c :: 0 <= c <= n ==> Pop(Single(n, from, m), from)[c] == Nothing<M>(n)[c];
    assert Pop(Single(n, from, m), from) == Nothing(n);
  }

  lemma {:induction false} FirstSingle<M>(n: nat, self: nat, from: nat, m: M, k: nat)
    requires k <= from <= n && from != self
    ensures First(Single(n, from, m), self, k) == Some(from)
    decreases from - k
  {
    if k < from {
      FirstSingle(n, self, from, m, k + 1);
    }
  }

  /** A poll that delivers nothing finds nothing. */
  lemma DeliverNone<M>(n: nat, self: nat)
    ensures Append(Nothing<M>(n), Nothing<M>(n)) == Nothing<M>(n)
    ensures First(Nothing<M>(n), self, 0) == None
  {
    assert forall c :: 0 <= c <= n ==> Nothing<M>(n)[c] == [];
  }

  /** The message layer of process self. arrivals says what the other processes will have
      delivered by each of the polls to come; when it is used up, the process is not
      scheduled any more. */
  class Endpoint<M> {
    const self: nat
    const n: nat
    var inbox: Mail<M>
    var sent: Mail<M>
    var arrivals: seq<Mail<M>>

    ghost predicate Valid()
      reads this
    {
      self <= n && |sent| == n + 1 && Boxes(n, inbox, arrivals)
    }

    /** The parent sends nothing during a run of the mutual exclusion protocols. */
    ghost predicate ParentSilent()
      requires Valid()
      reads this
    {
      inbox[0] == [] && forall k :: 0 <= k < |arrivals| ==> arrivals[k][0] == []
    }

    /** All that is there or will have been delivered from c. */
    ghost function From(c: nat): seq<M>
      requires Valid() && c <= n
      reads this
    {
      Stream(inbox, arrivals, c)
    }

    constructor (self: nat, n: nat, arrivals: seq<Mail<M>>)
      requires self <= n
      requires forall k :: 0 <= k < |arrivals| ==> |arrivals[k]| == n + 1
      ensures Valid() && this.self == self && this.n == n && this.arrivals == arrivals
      ensures inbox == seq(n + 1, _ => []) && sent == seq(n + 1, _ => [])
    {
      this.self, this.n, this.arrivals := self, n, arrivals;
      inbox, sent := seq(n + 1, _ => []), seq(n + 1, _ => []);
    }

    method Send(dst: nat, m: M)
      requires Valid() && dst <= n
      modifies this`sent
      ensures Valid()
      ensures sent == Append(old(sent), Single(n, dst, m))
      ensures forall c :: 0 <= c <= n ==> sent[c] == if c == dst then old(sent)[c] + [m] else old(sent)[c]
    {
      sent := sent[dst := sent[dst] + [m]];
      forall c | 0 <= c <= n
        ensures sent[c] == old(sent)[c] + Single(n, dst, m)[c]
      {
      }
    }

    /** `ipc_multicast_to_children`. */
    method MulticastToChildren(m: M)
      requires Valid()
      modifies this`sent
      ensures Valid()
      ensures sent == Append(old(sent), ToChildren(n, self, [m]))
      ensures forall c :: 0 <= c <= n ==>
                sent[c] == if c != 0 && c != self then old(sent)[c] + [m] else old(sent)[c]
    {
      var dst := 1;
      while dst <= n
        invariant 1 <= dst <= n + 1 && Valid()
        invariant forall c :: 0 <= c <= n ==>
                    sent[c] == old(sent)[c] + if 1 <= c < dst && c != self then [m] else []
      {
        if dst != self {
          sent := sent[dst := sent[dst] + [m]];
        }
        dst := dst + 1;
      }
      assert sent == Append(old(sent), ToChildren(n, self, [m]));
    }

    /** `send_multicast`: to the parent as well. */
    method SendMulticast(m: M)
      requires Valid()
      modifies this`sent
      ensures Valid()
      ensures sent == Append(old(sent), ToAll(n, self, m))
      ensures forall c :: 0 <= c <= n ==> sent[c] == if c != self then old(sent)[c] + [m] else old(sent)[c]
    {
      var dst := 0;
      while dst <= n
        invariant 0 <= dst <= n + 1 && Valid()
        invariant forall c :: 0 <= c <= n ==>
                    sent[c] == old(sent)[c] + if c < dst && c != self then [m] else []
      {
        if dst != self {
          sent := sent[dst := sent[dst] + [m]];
        }
        dst := dst + 1;
      }
      assert sent == Append(old(sent), ToAll(n, self, m));
    }

    /** `receive` from one process: one poll. Every list gets what the poll delivers; the
        oldest message from `from` is taken, and nothing else. */
    method Receive(from: nat) returns (r: Option<M>)
      requires Valid() && arrivals != [] && from <= n
      modifies this`inbox, this`arrivals
      ensures Valid() && arrivals == old(arrivals)[1..]
      ensures forall c :: 0 <= c <= n && c != from ==> inbox[c] == old(inbox)[c] + old(arrivals)[0][c]
      ensures var there := old(inbox)[from] + old(arrivals)[0][from];
              if there == [] then r == None && inbox[from] == []
              else r == Some(there[0]) && inbox[from] == there[1..]
      ensures forall c :: 0 <= c <= n ==>
                old(From(c)) == (if r.Some? && c == from then [r.value] else []) + From(c)
      ensures var mail := Append(old(inbox), old(arrivals)[0]);
              if mail[from] == [] then r == None && inbox == mail
              else r == Some(mail[from][0]) && inbox == Pop(mail, from)
    {
      forall c | 0 <= c <= n {
        StreamPolled(inbox, arrivals, c);
      }
      inbox := Append(inbox, arrivals[0]);
      arrivals := arrivals[1..];
      if inbox[from] == [] {
        return None;
      }
      r := Some(inbox[from][0]);
      inbox := Pop(inbox, from);
    }

    /** `ipc_receive_any`: one poll of all channels in the order of ids. Every list gets what
        the poll delivers; the oldest message of the first sender with one is taken, and
        nothing else. */
    method ReceiveAny() returns (r: Option<(nat, M)>)
      requires Valid() && arrivals != []
      modifies this`inbox, this`arrivals
      ensures Valid() && arrivals == old(arrivals)[1..]
      ensures old(ParentSilent()) ==> ParentSilent() && (r.Some? ==> r.value.0 > 0)
      ensures match r
              case None =>
                && (forall c :: 0 <= c <= n && c != self ==> inbox[c] == [])
                && (forall c :: 0 <= c <= n ==> inbox[c] == old(inbox)[c] + old(arrivals)[0][c])
              case Some((from, m)) =>
                && from <= n && from != self && old(inbox)[from] + old(arrivals)[0][from] == [m] + inbox[from]
                && (forall c :: 0 <= c < from && c != self ==> inbox[c] == [])
                && (forall c :: 0 <= c <= n && c != from ==> inbox[c] == old(inbox)[c] + old(arrivals)[0][c])
      ensures var mail := Append(old(inbox), old(arrivals)[0]);
              match First(mail, self, 0)
              case None => r == None && inbox == mail
              case Some(from) => r == Some((from, mail[from][0])) && inbox == Pop(mail, from)
    {
      inbox := Append(inbox, arrivals[0]);
      arrivals := arrivals[1..];
      ghost var mail := inbox;
      var from := 0;
      while from <= n
        invariant 0 <= from <= n + 1 && Valid() && inbox == mail
        invariant First(mail, self, 0) == First(mail, self, from)
      {
        if from != self && inbox[from] != [] {
          r := Some((from, inbox[from][0]));
          inbox := Pop(inbox, from);
          return;
        }
        from := from + 1;
      }
      r := None;
    }
  }
}
