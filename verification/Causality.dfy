/** Lamport time and causality, for any processes that keep a scalar clock and send
    stamped messages over FIFO channels. */
module Causality {
  import opened Sums
  import opened Network
  import opened Stamps

  /** What one process does between two receives: the message it begins with, if from is
      not 0, the messages it sends, and its clock at the first and after the last tick. */
  datatype Event = Event(child: int, from: int, stamp: int, out: Mail<Message>, time: int, end: int)

  datatype Machine = Machine(ch: Channels<Message>, clock: int -> int)

  /** The event can happen: it takes the oldest message of the channel, its first tick
      comes after the child's clock and the message's stamp, and it stamps what it sends no
      earlier. */
  ghost predicate Fits(m: Machine, e: Event) {
    && (e.from != 0 ==> m.ch(e.from, e.child) != [] && m.ch(e.from, e.child)[0].time == e.stamp < e.time)
    && m.clock(e.child) < e.time <= e.end
    && forall b, x :: 0 <= b < |e.out| && x in e.out[b] ==> e.time <= x.time
  }

  ghost function Next(m: Machine, e: Event): Machine {
    var ch := if e.from != 0 && m.ch(e.from, e.child) != [] then Consume(m.ch, e.from, e.child) else m.ch;
    Machine(Emit(ch, e.child, e.out), c => if c == e.child then e.end else m.clock(c))
  }

  ghost predicate Plays(m: Machine, t: seq<Event>)
    decreases |t|
  {
    t == [] || (Fits(m, t[0]) && Plays(Next(m, t[0]), t[1..]))
  }

  lemma PlaysOn(m: Machine, e: Event, rest: seq<Event>)
    requires Fits(m, e) && Plays(Next(m, e), rest)
    ensures Plays(m, [e] + rest)
  {
    assert ([e] + rest)[1..] == rest;
  }

  ghost function At(m: Machine, t: seq<Event>, k: nat): Machine
    requires k <= |t|
  {
    if k == 0 then m else Next(At(m, t, k - 1), t[k - 1])
  }

  lemma {:induction false} AtRest(m: Machine, t: seq<Event>, k: nat)
    requires k < |t|
    ensures At(m, t, k + 1) == At(Next(m, t[0]), t[1..], k)
  {
    if k > 0 {
      AtRest(m, t, k - 1);
    }
  }

  lemma {:induction false} FitsAt(m: Machine, t: seq<Event>, k: nat)
    requires Plays(m, t) && k < |t|
    ensures Fits(At(m, t, k), t[k])
    decreases k
  {
    if k > 0 {
      AtRest(m, t, k - 1);
      FitsAt(Next(m, t[0]), t[1..], k - 1);
    }
  }

  // ---- which event sent the message an event begins with ----

  function Joined(parts: seq<seq<Message>>, k: nat): seq<Message>
    requires k <= |parts|
  {
    if k == 0 then [] else Joined(parts, k - 1) + parts[k - 1]
  }

  lemma {:induction false} JoinedGrows(parts: seq<seq<Message>>, k: nat, l: nat)
    requires k <= l <= |parts|
    ensures Joined(parts, k) <= Joined(parts, l)
  {
    if k < l {
      JoinedGrows(parts, k, l - 1);
    }
  }

  /** The part that a place in the joined list comes from. */
  lemma {:induction false} PartOf(parts: seq<seq<Message>>, l: nat, g: nat) returns (k: nat)
    requires l <= |parts| && g < |Joined(parts, l)|
    ensures k < l && |Joined(parts, k)| <= g < |Joined(parts, k + 1)| && parts[k] != []
  {
    if |Joined(parts, l - 1)| <= g {
      k := l - 1;
    } else {
      k := PartOf(parts, l - 1, g);
    }
  }

  lemma InPart(parts: seq<seq<Message>>, k: nat, l: nat, g: nat)
    requires k < l <= |parts| && |Joined(parts, k)| <= g < |Joined(parts, k + 1)|
    ensures g < |Joined(parts, l)| && Joined(parts, l)[g] in parts[k]
  {
    JoinedGrows(parts, k + 1, l);
    assert Joined(parts, l)[g] == Joined(parts, k + 1)[g] == parts[k][g - |Joined(parts, k)|];
  }

  /** What each event sends from i to j. */
  function Outs(t: seq<Event>, i: int, j: nat): seq<seq<Message>> {
    seq(|t|, k requires 0 <= k < |t| => if t[k].child == i && j < |t[k].out| then t[k].out[j] else [])
  }

  /** Everything the first k events have sent from i to j, in order. */
  function Sent(t: seq<Event>, i: int, j: nat, k: nat): seq<Message>
    requires k <= |t|
  {
    Joined(Outs(t, i, j), k)
  }

  /** How much of it the first k events have received. */
  function Got(t: seq<Event>, i: int, j: nat, k: nat): nat
    requires k <= |t|
  {
    if k == 0 then 0 else Got(t, i, j, k - 1) + Bit(t[k - 1].from == i && t[k - 1].child == j)
  }

  lemma ChannelNext(m: Machine, e: Event, i: int, j: nat)
    requires Fits(m, e) && i != 0 && i != j
    ensures Next(m, e).ch(i, j) ==
            (if e.from == i && e.child == j then m.ch(i, j)[1..] else m.ch(i, j))
            + (if e.child == i && j < |e.out| then e.out[j] else [])
    ensures e.from == i && e.child == j ==> m.ch(i, j) != []
  {
  }

  lemma Fifo(sent: seq<Message>, got: nat, received: bool, more: seq<Message>)
    requires if received then got < |sent| else got <= |sent|
    ensures (if received then sent[got..][1..] else sent[got..]) + more == (sent + more)[got + Bit(received)..]
  {
  }

  /** Channels are FIFO: what is in transit is what has been sent and not yet received. */
  lemma {:induction false} InTransit(m: Machine, t: seq<Event>, i: int, j: nat, k: nat)
    requires Plays(m, t) && k <= |t| && i != 0 && i != j && m.ch(i, j) == []
    ensures Got(t, i, j, k) <= |Sent(t, i, j, k)|
    ensures At(m, t, k).ch(i, j) == Sent(t, i, j, k)[Got(t, i, j, k)..]
  {
    if k > 0 {
      InTransit(m, t, i, j, k - 1);
      FitsAt(m, t, k - 1);
      InTransitNext(At(m, t, k - 1), t, i, j, k - 1);
    }
  }

  lemma InTransitNext(m: Machine, t: seq<Event>, i: int, j: nat, k: nat)
    requires k < |t| && i != 0 && i != j && Fits(m, t[k])
    requires Got(t, i, j, k) <= |Sent(t, i, j, k)| && m.ch(i, j) == Sent(t, i, j, k)[Got(t, i, j, k)..]
    ensures Got(t, i, j, k + 1) <= |Sent(t, i, j, k + 1)|
    ensures Next(m, t[k]).ch(i, j) == Sent(t, i, j, k + 1)[Got(t, i, j, k + 1)..]
  {
    ChannelNext(m, t[k], i, j);
    Fifo(Sent(t, i, j, k), Got(t, i, j, k), t[k].from == i && t[k].child == j, Outs(t, i, j)[k]);
  }

  /** Event l begins with a message that event k has sent: the numbers agree. */
  ghost predicate Delivers(t: seq<Event>, k: nat, l: nat)
    requires k < |t| && l < |t|
  {
    && k < l && t[l].from != 0 && t[l].from == t[k].child && t[l].child >= 0
    && |Sent(t, t[k].child, t[l].child, k)| <= Got(t, t[k].child, t[l].child, l)
       < |Sent(t, t[k].child, t[l].child, k + 1)|
  }

  /** Nothing is in transit at first, and nobody sends to itself. */
  ghost predicate Starts(m: Machine, t: seq<Event>) {
    && Plays(m, t)
    && (forall i, j :: m.ch(i, j) == [])
    && (forall k :: 0 <= k < |t| ==> t[k].child > 0 && t[k].from != t[k].child)
  }

  lemma Delivered(m: Machine, t: seq<Event>, k: nat, l: nat)
    requires Starts(m, t) && k < |t| && l < |t| && Delivers(t, k, l)
    ensures t[k].time < t[l].time
  {
    var i, j := t[k].child, t[l].child;
    InTransit(m, t, i, j, l);
    InPart(Outs(t, i, j), k, l, Got(t, i, j, l));
    FitsAt(m, t, k);
    FitsAt(m, t, l);
  }

  /** Every message received has been sent by an earlier event. */
  lemma Sender(m: Machine, t: seq<Event>, l: nat) returns (k: nat)
    requires Starts(m, t) && l < |t| && t[l].from != 0
    ensures k < l && Delivers(t, k, l)
  {
    var i, j := t[l].from, t[l].child;
    InTransit(m, t, i, j, l);
    FitsAt(m, t, l);
    k := PartOf(Outs(t, i, j), l, Got(t, i, j, l));
  }

  // ---- the clock condition ----

  lemma {:induction false} ClockGrows(m: Machine, t: seq<Event>, i: int, k: nat, l: nat)
    requires Plays(m, t) && k <= l <= |t|
    ensures At(m, t, k).clock(i) <= At(m, t, l).clock(i)
  {
    if k < l {
      ClockGrows(m, t, i, k, l - 1);
      FitsAt(m, t, l - 1);
    }
  }

  /** Event k directly precedes event l: an earlier one of the same child, or the one that
      sent what l receives. */
  ghost predicate Directly(t: seq<Event>, k: nat, l: nat)
    requires k < |t| && l < |t|
  {
    (k < l && t[k].child == t[l].child) || Delivers(t, k, l)
  }

  lemma DirectlyLater(m: Machine, t: seq<Event>, k: nat, l: nat)
    requires Starts(m, t) && k < |t| && l < |t| && Directly(t, k, l)
    ensures t[k].time < t[l].time
  {
    if Delivers(t, k, l) {
      Delivered(m, t, k, l);
    } else {
      FitsAt(m, t, k);
      ClockGrows(m, t, t[k].child, k + 1, l);
      FitsAt(m, t, l);
    }
  }

  /** A causal chain of events. */
  ghost predicate Chain(t: seq<Event>, ks: seq<nat>) {
    && ks != [] && ks[0] < |t|
    && (|ks| > 1 ==> ks[1] < |t| && Directly(t, ks[0], ks[1]) && Chain(t, ks[1..]))
  }

  /** The clock condition: along every causal chain, through any number of processes and
      messages, Lamport time strictly increases. */
  lemma {:induction false} ChainAscends(m: Machine, t: seq<Event>, ks: seq<nat>)
    requires Starts(m, t) && Chain(t, ks) && |ks| >= 2
    ensures ks[|ks| - 1] < |t| && t[ks[0]].time < t[ks[|ks| - 1]].time
  {
    DirectlyLater(m, t, ks[0], ks[1]);
    if |ks| > 2 {
      ChainAscends(m, t, ks[1..]);
    }
  }
}
