/** One process of a run and the polls it makes: whatever may be delivered by each poll, the
    process gets to where the run takes it, provided it finds its messages in that order. */
module Schedule {
  import opened Network
  import opened Ipc

  /** What a step of a process begins with. */
  datatype Poll<M> = NoPoll | FindsNothing | Takes(from: nat, m: M)

  /** A step of the run, as the stepping process sees it. */
  datatype Event<P, M> = Event(before: P, poll: Poll<M>, after: P, out: Mail<M>)

  /** look: the channel that a poll takes from; idles: a poll that finds nothing changes
      nothing; own: the process can take this step; ahead: the number of polls without
      which it is not scheduled at all. */
  datatype Process<!P, !M> = Process(
    n: nat, ahead: nat, look: (P, Mail<M>) -> Option<nat>, idles: P -> bool, own: Event<P, M> -> bool)

  /** What becomes of a process, given its unread messages, the polls to come and what it has
      sent. */
  type Fate<!P, !M, L> = (P, Mail<M>, seq<Mail<M>>, Mail<M>) -> L

  lemma BoxesJoined<M>(n: nat, one: seq<Mail<M>>, two: seq<Mail<M>>)
    requires forall k :: 0 <= k < |one + two| ==> |(one + two)[k]| == n + 1
    ensures Boxes(n, Nothing<M>(n), one) && Boxes(n, Nothing<M>(n), two)
  {
    forall k | 0 <= k < |two|
      ensures |two[k]| == n + 1
    {
      assert two[k] == (one + two)[|one| + k];
    }
    forall k | 0 <= k < |one|
      ensures |one[k]| == n + 1
    {
      assert one[k] == (one + two)[k];
    }
  }

  ghost predicate Chain<P, M>(pr: Process<P, M>, p: P, es: seq<Event<P, M>>)
    decreases |es|
  {
    es == [] || (es[0].before == p && pr.own(es[0]) && |es[0].out| == pr.n + 1 && Chain(pr, es[0].after, es[1..]))
  }

  ghost function Final<P, M>(p: P, es: seq<Event<P, M>>): P
    decreases |es|
  {
    if es == [] then p else Final(es[0].after, es[1..])
  }

  /** What the process has sent after these steps, if it had sent `sent` before. */
  ghost function SentOver<P, M>(es: seq<Event<P, M>>, sent: Mail<M>): Mail<M>
    requires forall k :: 0 <= k < |es| ==> |es[k].out| == |sent|
    decreases |es|
  {
    if es == [] then sent else SentOver(es[1..], Append(sent, es[0].out))
  }

  /** What these steps send to d. */
  ghost function OutTo<P, M>(es: seq<Event<P, M>>, d: nat): seq<M>
    requires forall k :: 0 <= k < |es| ==> d < |es[k].out|
    decreases |es|
  {
    if es == [] then [] else es[0].out[d] + OutTo(es[1..], d)
  }

  lemma {:induction false} SentIsOut<P, M>(es: seq<Event<P, M>>, sent: Mail<M>, d: nat)
    requires d < |sent| && forall k :: 0 <= k < |es| ==> |es[k].out| == |sent|
    ensures |SentOver(es, sent)| == |sent| && SentOver(es, sent)[d] == sent[d] + OutTo(es, d)
    decreases |es|
  {
    if es != [] {
      SentIsOut(es[1..], Append(sent, es[0].out), d);
    }
  }

  /** The messages taken from c. */
  ghost function TakenFrom<P, M>(es: seq<Event<P, M>>, c: nat): seq<M>
    decreases |es|
  {
    if es == [] then []
    else (if es[0].poll.Takes? && es[0].poll.from == c then [es[0].poll.m] else []) + TakenFrom(es[1..], c)
  }

  lemma ChainOn<P, M>(pr: Process<P, M>, e: Event<P, M>, es: seq<Event<P, M>>)
    requires pr.own(e) && |e.out| == pr.n + 1 && Chain(pr, e.after, es)
    ensures Chain(pr, e.before, [e] + es) && Final(e.before, [e] + es) == Final(e.after, es)
  {
    assert ([e] + es)[1..] == es;
  }

  lemma {:induction false} ChainOut<P, M>(pr: Process<P, M>, p: P, es: seq<Event<P, M>>)
    requires Chain(pr, p, es)
    ensures forall k :: 0 <= k < |es| ==> |es[k].out| == pr.n + 1
    decreases |es|
  {
    if es != [] {
      ChainOut(pr, es[0].after, es[1..]);
      forall k | 0 <= k < |es|
        ensures |es[k].out| == pr.n + 1
      {
        assert k > 0 ==> es[k] == es[1..][k - 1];
      }
    }
  }

  // ---- schedules ----

  /** The poll that finds `mail` is the one the event begins with. */
  ghost predicate Due<P, M>(pr: Process<P, M>, e: Event<P, M>, mail: Mail<M>) {
    match e.poll
    case NoPoll => false
    case FindsNothing => pr.look(e.before, mail) == None
    case Takes(from, m) =>
      pr.look(e.before, mail) == Some(from) && from < |mail| && mail[from] != [] && mail[from][0] == m
  }

  ghost function Remaining<P, M>(e: Event<P, M>, mail: Mail<M>): (r: Mail<M>)
    requires e.poll.Takes? ==> e.poll.from < |mail| && mail[e.poll.from] != []
    ensures |r| == |mail|
  {
    if e.poll.Takes? then Pop(mail, e.poll.from) else mail
  }

  /** The schedule leads the process through the steps es: each of its polls is the next
      one of es, or finds nothing while the process idles. Any number of messages may be
      delivered by a poll, and any number of polls may find nothing. */
  ghost predicate Fits<P, M>(
      pr: Process<P, M>, p: P, es: seq<Event<P, M>>, inbox: Mail<M>, arrivals: seq<Mail<M>>)
    requires Boxes(pr.n, inbox, arrivals)
    decreases |es| + |arrivals|
  {
    if es != [] && es[0].poll.NoPoll? then Fits(pr, es[0].after, es[1..], inbox, arrivals)
    else if arrivals == [] then es == []
    else
      var mail := Append(inbox, arrivals[0]);
      if es != [] && Due(pr, es[0], mail) then
        Fits(pr, es[0].after, es[1..], Remaining(es[0], mail), arrivals[1..])
      else pr.idles(p) && pr.look(p, mail) == None && Fits(pr, p, es, mail, arrivals[1..])
  }

  /** What is left of every stream: nothing is lost, doubled or reordered. */
  ghost function Unread<P, M>(es: seq<Event<P, M>>, inbox: Mail<M>, arrivals: seq<Mail<M>>): (r: Mail<M>)
    requires Boxes(|inbox| - 1, inbox, arrivals)
    ensures |r| == |inbox|
  {
    seq(|inbox|, c requires 0 <= c < |inbox| => Past(Stream(inbox, arrivals, c), |TakenFrom(es, c)|))
  }

  function Past<M>(s: seq<M>, k: nat): seq<M> {
    if k <= |s| then s[k..] else []
  }

  // ---- the fate of a process ----

  /** A step without a poll does not change the fate, if what it sends is recorded. */
  ghost predicate KeepsQuiet<P(!new), M(!new), L>(fate: Fate<P, M, L>, pr: Process<P, M>) {
    forall e, inbox, arrivals, sent :: Quiet(pr, e, inbox, arrivals, sent) ==>
      fate(e.before, inbox, arrivals, sent) == fate(e.after, inbox, arrivals, Append(sent, e.out))
  }

  ghost predicate Quiet<P, M>(
      pr: Process<P, M>, e: Event<P, M>, inbox: Mail<M>, arrivals: seq<Mail<M>>, sent: Mail<M>) {
    && pr.own(e) && e.poll.NoPoll? && |e.out| == |sent| == pr.n + 1
    && Boxes(pr.n, inbox, arrivals) && |arrivals| >= pr.ahead
  }

  /** Nor does a step with a poll. */
  ghost predicate KeepsDue<P(!new), M(!new), L>(fate: Fate<P, M, L>, pr: Process<P, M>) {
    forall e, inbox, arrivals, sent :: Polled(pr, e, inbox, arrivals, sent) ==>
      fate(e.before, inbox, arrivals, sent)
      == fate(e.after, Remaining(e, Append(inbox, arrivals[0])), arrivals[1..], Append(sent, e.out))
  }

  ghost predicate Polled<P, M>(
      pr: Process<P, M>, e: Event<P, M>, inbox: Mail<M>, arrivals: seq<Mail<M>>, sent: Mail<M>) {
    && pr.own(e) && |e.out| == |sent| == pr.n + 1
    && Boxes(pr.n, inbox, arrivals) && arrivals != [] && Due(pr, e, Append(inbox, arrivals[0]))
  }

  /** Nor does a poll that finds nothing. */
  ghost predicate KeepsIdle<P(!new), M(!new), L>(fate: Fate<P, M, L>, pr: Process<P, M>) {
    forall p, inbox, arrivals, sent :: Idle(pr, p, inbox, arrivals, sent) ==>
      fate(p, inbox, arrivals, sent) == fate(p, Append(inbox, arrivals[0]), arrivals[1..], sent)
  }

  ghost predicate Idle<P, M>(
      pr: Process<P, M>, p: P, inbox: Mail<M>, arrivals: seq<Mail<M>>, sent: Mail<M>) {
    && pr.idles(p) && |sent| == pr.n + 1
    && Boxes(pr.n, inbox, arrivals) && arrivals != [] && pr.look(p, Append(inbox, arrivals[0])) == None
  }

  ghost predicate Obeys<P(!new), M(!new), L>(fate: Fate<P, M, L>, pr: Process<P, M>) {
    KeepsQuiet(fate, pr) && KeepsDue(fate, pr) && KeepsIdle(fate, pr)
  }

  lemma QuietStep<P(!new), M(!new), L>(
      fate: Fate<P, M, L>, pr: Process<P, M>, e: Event<P, M>, inbox: Mail<M>, arrivals: seq<Mail<M>>, sent: Mail<M>)
    requires Obeys(fate, pr) && Quiet(pr, e, inbox, arrivals, sent)
    ensures fate(e.before, inbox, arrivals, sent) == fate(e.after, inbox, arrivals, Append(sent, e.out))
  {
  }

  lemma DueStep<P(!new), M(!new), L>(
      fate: Fate<P, M, L>, pr: Process<P, M>, e: Event<P, M>, inbox: Mail<M>, arrivals: seq<Mail<M>>, sent: Mail<M>)
    requires Obeys(fate, pr) && Polled(pr, e, inbox, arrivals, sent)
    ensures fate(e.before, inbox, arrivals, sent)
            == fate(e.after, Remaining(e, Append(inbox, arrivals[0])), arrivals[1..], Append(sent, e.out))
  {
  }

  lemma IdleStep<P(!new), M(!new), L>(
      fate: Fate<P, M, L>, pr: Process<P, M>, p: P, inbox: Mail<M>, arrivals: seq<Mail<M>>, sent: Mail<M>)
    requires Obeys(fate, pr) && Idle(pr, p, inbox, arrivals, sent)
    ensures fate(p, inbox, arrivals, sent) == fate(p, Append(inbox, arrivals[0]), arrivals[1..], sent)
  {
  }

  lemma UnreadPolled<P, M>(es: seq<Event<P, M>>, inbox: Mail<M>, arrivals: seq<Mail<M>>)
    requires Boxes(|inbox| - 1, inbox, arrivals) && arrivals != []
    ensures Unread(es, Append(inbox, arrivals[0]), arrivals[1..]) == Unread(es, inbox, arrivals)
  {
    forall c | 0 <= c < |inbox| {
      StreamPolled(inbox, arrivals, c);
    }
  }

  lemma UnreadTaken<P, M>(es: seq<Event<P, M>>, inbox: Mail<M>, arrivals: seq<Mail<M>>)
    requires Boxes(|inbox| - 1, inbox, arrivals) && arrivals != [] && es != [] && !es[0].poll.NoPoll?
    requires var mail := Append(inbox, arrivals[0]);
             es[0].poll.Takes? ==> es[0].poll.from < |mail| && mail[es[0].poll.from] != []
    ensures Unread(es[1..], Remaining(es[0], Append(inbox, arrivals[0])), arrivals[1..]) == Unread(es, inbox, arrivals)
  {
    forall c | 0 <= c < |inbox| {
      UnreadTakenAt(es, inbox, arrivals, c);
    }
  }

  lemma UnreadTakenAt<P, M>(es: seq<Event<P, M>>, inbox: Mail<M>, arrivals: seq<Mail<M>>, c: nat)
    requires Boxes(|inbox| - 1, inbox, arrivals) && arrivals != [] && es != [] && !es[0].poll.NoPoll?
    requires c < |inbox|
    requires var mail := Append(inbox, arrivals[0]);
             es[0].poll.Takes? ==> es[0].poll.from < |mail| && mail[es[0].poll.from] != []
    ensures Unread(es[1..], Remaining(es[0], Append(inbox, arrivals[0])), arrivals[1..])[c]
            == Unread(es, inbox, arrivals)[c]
  {
    StreamPolled(inbox, arrivals, c);
    var rest := Remaining(es[0], Append(inbox, arrivals[0]));
    if es[0].poll.Takes? && es[0].poll.from == c {
      var m := Append(inbox, arrivals[0])[c][0];
      assert Stream(inbox, arrivals, c) == [m] + Stream(rest, arrivals[1..], c);
      assert TakenFrom(es, c) == [es[0].poll.m] + TakenFrom(es[1..], c);
      PastFirst(m, Stream(rest, arrivals[1..], c), |TakenFrom(es[1..], c)|);
    } else {
      assert Stream(inbox, arrivals, c) == Stream(rest, arrivals[1..], c);
      assert TakenFrom(es, c) == TakenFrom(es[1..], c);
    }
  }

  lemma PastFirst<M>(m: M, s: seq<M>, k: nat)
    ensures Past([m] + s, 1 + k) == Past(s, k)
  {
  }

  /** Whatever the fate of a process is, a schedule that leads through the steps es brings it
      to their end, with what es leaves unread and what es sends. */
  lemma {:induction false} Follow<P(!new), M(!new), L>(
      fate: Fate<P, M, L>, pr: Process<P, M>, p: P, es: seq<Event<P, M>>,
      inbox: Mail<M>, arrivals: seq<Mail<M>>, more: seq<Mail<M>>, sent: Mail<M>)
    requires Obeys(fate, pr) && Chain(pr, p, es)
    requires Boxes(pr.n, inbox, arrivals + more) && |more| >= pr.ahead && |sent| == pr.n + 1
    requires Boxes(pr.n, inbox, arrivals) && Fits(pr, p, es, inbox, arrivals)
    ensures (forall k :: 0 <= k < |es| ==> |es[k].out| == |sent|)
    ensures fate(p, inbox, arrivals + more, sent)
            == fate(Final(p, es), Unread(es, inbox, arrivals), more, SentOver(es, sent))
    decreases |es| + |arrivals|
  {
    ChainOut(pr, p, es);
    if es != [] && es[0].poll.NoPoll? {
      QuietStep(fate, pr, es[0], inbox, arrivals + more, sent);
      Follow(fate, pr, es[0].after, es[1..], inbox, arrivals, more, Append(sent, es[0].out));
      assert Unread(es, inbox, arrivals) == Unread(es[1..], inbox, arrivals);
    } else if arrivals == [] {
      assert arrivals + more == more;
      assert Unread(es, inbox, arrivals) == inbox by {
        assert forall c :: 0 <= c < |inbox| ==> Unread(es, inbox, arrivals)[c] == inbox[c];
      }
    } else {
      FollowPoll(fate, pr, p, es, inbox, arrivals, more, sent);
    }
  }

  lemma {:induction false} FollowPoll<P(!new), M(!new), L>(
      fate: Fate<P, M, L>, pr: Process<P, M>, p: P, es: seq<Event<P, M>>,
      inbox: Mail<M>, arrivals: seq<Mail<M>>, more: seq<Mail<M>>, sent: Mail<M>)
    requires Obeys(fate, pr) && Chain(pr, p, es) && (es != [] ==> !es[0].poll.NoPoll?) && arrivals != []
    requires Boxes(pr.n, inbox, arrivals + more) && |more| >= pr.ahead && |sent| == pr.n + 1
    requires Boxes(pr.n, inbox, arrivals) && Fits(pr, p, es, inbox, arrivals)
    ensures (forall k :: 0 <= k < |es| ==> |es[k].out| == |sent|)
    ensures fate(p, inbox, arrivals + more, sent)
            == fate(Final(p, es), Unread(es, inbox, arrivals), more, SentOver(es, sent))
    decreases |es| + |arrivals|, 0
  {
    ChainOut(pr, p, es);
    var mail := Append(inbox, arrivals[0]);
    assert (arrivals + more)[1..] == arrivals[1..] + more;
    if es != [] && Due(pr, es[0], mail) {
      DueStep(fate, pr, es[0], inbox, arrivals + more, sent);
      UnreadTaken(es, inbox, arrivals);
      Follow(fate, pr, es[0].after, es[1..], Remaining(es[0], mail), arrivals[1..], more, Append(sent, es[0].out));
    } else {
      IdleStep(fate, pr, p, inbox, arrivals + more, sent);
      UnreadPolled(es, inbox, arrivals);
      Follow(fate, pr, p, es, mail, arrivals[1..], more, sent);
    }
  }

  // ---- there is such a schedule ----

  /** One poll for every poll of es, delivering what it takes. */
  ghost function Script<P, M>(n: nat, es: seq<Event<P, M>>): seq<Mail<M>>
    decreases |es|
  {
    if es == [] then []
    else (if es[0].poll.NoPoll? then [] else [Just(n, es[0].poll)]) + Script(n, es[1..])
  }

  ghost function Just<M>(n: nat, poll: Poll<M>): (r: Mail<M>)
    ensures |r| == n + 1
  {
    if poll.Takes? then Single(n, poll.from, poll.m) else Nothing(n)
  }

  lemma {:induction false} ScriptBoxes<P, M>(n: nat, es: seq<Event<P, M>>)
    ensures Boxes(n, Nothing(n), Script(n, es))
    decreases |es|
  {
    if es != [] {
      ScriptBoxes(n, es[1..]);
    }
  }

  /** Every step that polls would begin with its poll if nothing else were there. */
  ghost predicate Attends<P(!new), M(!new)>(pr: Process<P, M>) {
    forall e :: pr.own(e) && !e.poll.NoPoll? ==> Due(pr, e, Just(pr.n, e.poll))
  }

  lemma {:induction false} ScriptFits<P(!new), M(!new)>(pr: Process<P, M>, p: P, es: seq<Event<P, M>>)
    requires Attends(pr) && Chain(pr, p, es)
    ensures Boxes(pr.n, Nothing(pr.n), Script(pr.n, es))
    ensures Fits(pr, p, es, Nothing(pr.n), Script(pr.n, es))
    decreases |es|
  {
    ScriptBoxes(pr.n, es);
    if es != [] {
      ScriptFits(pr, es[0].after, es[1..]);
      if es[0].poll.NoPoll? {
        assert Script(pr.n, es) == Script(pr.n, es[1..]);
      } else {
        JustOne(pr, es[0]);
        assert Script(pr.n, es)[1..] == Script(pr.n, es[1..]);
      }
    }
  }

  lemma JustOne<P(!new), M(!new)>(pr: Process<P, M>, e: Event<P, M>)
    requires Attends(pr) && pr.own(e) && !e.poll.NoPoll?
    ensures var mail := Append(Nothing(pr.n), Just(pr.n, e.poll));
            mail == Just(pr.n, e.poll) && Due(pr, e, mail) && Remaining(e, mail) == Nothing(pr.n)
  {
    assert Due(pr, e, Just(pr.n, e.poll));
    if e.poll.Takes? {
      TakeOnly(pr.n, e.poll.from, e.poll.m);
    } else {
      AppendNothing(Nothing<M>(pr.n), pr.n);
    }
  }

  // ---- a run of many processes ----

  /** A step of process child. */
  datatype Move<P, M> = Move(child: int, event: Event<P, M>)

  /** The steps of process i. */
  ghost function Of<P, M>(moves: seq<Move<P, M>>, i: int): seq<Event<P, M>> {
    if moves == [] then []
    else (if moves[0].child == i then [moves[0].event] else []) + Of(moves[1..], i)
  }

  ghost predicate Possible<P, M(!new)>(n: nat, ch: Channels<M>, move: Move<P, M>) {
    && |move.event.out| == n + 1
    && match move.event.poll
       case Takes(from, m) => ch(from, move.child) != [] && ch(from, move.child)[0] == m
       case _ => true
  }

  ghost function Next<P, M(!new)>(n: nat, ch: Channels<M>, move: Move<P, M>): Channels<M>
    requires Possible(n, ch, move)
  {
    Emit(if move.event.poll.Takes? then Consume(ch, move.event.poll.from, move.child) else ch,
         move.child, move.event.out)
  }

  ghost predicate Plays<P, M(!new)>(n: nat, ch: Channels<M>, moves: seq<Move<P, M>>)
    decreases |moves|
  {
    moves == [] || (Possible(n, ch, moves[0]) && Plays(n, Next(n, ch, moves[0]), moves[1..]))
  }

  ghost function Leaves<P, M(!new)>(n: nat, ch: Channels<M>, moves: seq<Move<P, M>>): Channels<M>
    requires Plays(n, ch, moves)
    decreases |moves|
  {
    if moves == [] then ch else Leaves(n, Next(n, ch, moves[0]), moves[1..])
  }

  ghost predicate Same<M(!new)>(one: Channels<M>, two: Channels<M>) {
    forall a, b :: one(a, b) == two(a, b)
  }

  lemma {:induction false} SamePlays<P, M(!new)>(n: nat, one: Channels<M>, two: Channels<M>, moves: seq<Move<P, M>>)
    requires Same(one, two) && Plays(n, one, moves)
    ensures Plays(n, two, moves) && Same(Leaves(n, one, moves), Leaves(n, two, moves))
    decreases |moves|
  {
    if moves != [] {
      SamePlays(n, Next(n, one, moves[0]), Next(n, two, moves[0]), moves[1..]);
    }
  }

  lemma {:induction false} PlaysOut<P, M(!new)>(n: nat, ch: Channels<M>, moves: seq<Move<P, M>>, i: int)
    requires Plays(n, ch, moves)
    ensures forall k :: 0 <= k < |Of(moves, i)| ==> |Of(moves, i)[k].out| == n + 1
    decreases |moves|
  {
    if moves != [] {
      PlaysOut(n, Next(n, ch, moves[0]), moves[1..], i);
    }
  }

  lemma OutNext<P, M(!new)>(n: nat, ch: Channels<M>, moves: seq<Move<P, M>>, i: int, d: nat)
    requires Plays(n, ch, moves) && moves != [] && d <= n
    ensures (forall k :: 0 <= k < |Of(moves, i)| ==> |Of(moves, i)[k].out| == n + 1)
    ensures (forall k :: 0 <= k < |Of(moves[1..], i)| ==> |Of(moves[1..], i)[k].out| == n + 1)
    ensures OutTo(Of(moves, i), d)
            == (if moves[0].child == i then moves[0].event.out[d] else []) + OutTo(Of(moves[1..], i), d)
  {
    PlaysOut(n, ch, moves, i);
    PlaysOut(n, Next(n, ch, moves[0]), moves[1..], i);
    if moves[0].child == i {
      assert Of(moves, i)[1..] == Of(moves[1..], i);
    } else {
      assert Of(moves, i) == Of(moves[1..], i);
    }
  }

  lemma TakenNext<P, M>(moves: seq<Move<P, M>>, i: nat, d: int)
    requires moves != []
    ensures var e := moves[0].event;
            TakenFrom(Of(moves, d), i)
            == (if moves[0].child == d && e.poll.Takes? && e.poll.from == i then [e.poll.m] else [])
               + TakenFrom(Of(moves[1..], d), i)
  {
    if moves[0].child == d {
      assert Of(moves, d)[1..] == Of(moves[1..], d);
    } else {
      assert Of(moves, d) == Of(moves[1..], d);
    }
  }

  /** What i sends to d is what d takes from i, and then what is in the channel. */
  lemma {:induction false} OutIsTaken<P, M(!new)>(n: nat, ch: Channels<M>, moves: seq<Move<P, M>>, i: nat, d: nat)
    requires Plays(n, ch, moves) && i != d && d <= n
    ensures (forall k :: 0 <= k < |Of(moves, i)| ==> |Of(moves, i)[k].out| == n + 1)
    ensures ch(i, d) + OutTo(Of(moves, i), d) == TakenFrom(Of(moves, d), i) + Leaves(n, ch, moves)(i, d)
    decreases |moves|
  {
    PlaysOut(n, ch, moves, i);
    if moves != [] {
      var e, next, rest := moves[0].event, Next(n, ch, moves[0]), moves[1..];
      OutIsTaken(n, next, rest, i, d);
      OutNext(n, ch, moves, i, d);
      TakenNext(moves, i, d);
      var out := if moves[0].child == i then e.out[d] else [];
      var taken := if moves[0].child == d && e.poll.Takes? && e.poll.from == i then [e.poll.m] else [];
      assert taken + next(i, d) == ch(i, d) + out;
      Regroup(taken, ch(i, d), next(i, d), out, OutTo(Of(rest, i), d), TakenFrom(Of(rest, d), i),
              Leaves(n, ch, moves)(i, d));
    }
  }

  lemma Regroup<M>(taken: seq<M>, before: seq<M>, after: seq<M>, out: seq<M>, outs: seq<M>, takes: seq<M>, end: seq<M>)
    requires taken + after == before + out && after + outs == takes + end
    ensures before + (out + outs) == taken + takes + end
  {
    assert before + (out + outs) == (before + out) + outs == (taken + after) + outs == taken + (after + outs);
  }
}
