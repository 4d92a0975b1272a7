# Distributed mutual exclusion and Lamport-clock banking: a verified model

The repository runs a parent and up to fifteen child processes that talk over pipes. This
project models its four real protocols and proves what they are for:

- **pa6**, forks and request tokens (dining philosophers on the complete graph),
- **pa4**, a replicated queue of timestamped requests (Lamport),
- **pa5**, deferred replies (Ricart-Agrawala style),
- the driver that runs any of the three (`5 * id` critical sections, then service to the
  others until every DONE has arrived), and
- **pa3**, a banking run whose children keep a history of their balance by Lamport time;
  with it the simpler history by physical time of **pa2**.

## How the model is built

*Two levels.* For each protocol there is one set of per-child functions (`ForkProtocol`,
`DeferProtocol`, `QueueProtocol`, `Banking`): a head of `request_cs`, one received message,
`release_cs`, one message of the closing loop. The global state is n children (any n) and
one FIFO list of messages per ordered pair; its steps apply these functions to one child.
All theorems are about every state of every run. Beside them, `ForkMutex`, `DeferMutex`,
`QueueMutex`, `ChildDriver`, `BankChild`, `BankParent`, `PhysicalHistory`, `LamportTime` and
`Ipc` hold the program in its own form: classes with arrays and loops. Their methods are
proved to compute those same functions, and `ChildDriver`, `DeferDriver` and `ForkDriver`
show that whole calls are made of the protocol's steps. `QueueProjection`, `DeferProjection`,
`ForkProjection` and `BankingProjection` close the circle, for the three drivers and for the
program's banking child: for every run of the global system, every child and every schedule of
deliveries under which the child finds its messages in the order of the run, the program brings
the child to the same state, having sent the same. A poll may deliver any number of messages or
none, and there is such a schedule for every run. The argument is given once, for any process
that polls (`Schedule`).

*Why the steps may be coarse.* A child receives nothing during a multicast, inside the
critical section, or between `release_cs` and the next `request_cs`; so a step may run from
one receive to the next. A poll that finds nothing changes nothing, and in pa6 (where every
iteration asks and tests) that is proved (`ForkMutex.IdleIteration`). In the global system the
channel to receive from is chosen freely, which includes the lowest-id-first polling. For pa3,
where the order of polls and writes decides how long a history gets, `BankingPolls` takes a
step per channel read and per destination written, and `FineIsCoarse` proves that its runs
are runs of the coarse system.

*The environment of the imperative code.* An `Endpoint` is given a finite script of what
the other processes will have delivered by each poll. A call returns `Suspended` only once it
has used that up: the process is not scheduled any more. Assertions and message type checks are
outcomes (`Aborted`, `Crashed`, `Faulted`), never preconditions.

*Proof structure.* The invariants of the mutual exclusion protocols speak of one pair of
children and the two channels between them (an *edge*); each step is shown to keep one edge
at a time and then lifted. Counts over whole runs (messages, ticks of the clock) are sums over
all pairs whose change under a step is computed edge by edge (`Sums`).

## What the proofs turned up

- With a single child, pa4 and pa5 never enter the critical section: the entry condition
  is tested only after a received message. `StuckFinishedUnlessAlone` proves that this is the
  only exception; pa6 completes for every n.
- In pa6 the conjunct `fork_dirty[c] && has_request[c]` of the entry test never decides: a
  request that finds a dirty fork is answered at once (`ForkOrder.EntryTestIsForks`).
- In pa3 a child still in its main loop can consume and ignore a peer's DONE, and then waits
  for it for ever (`BankingLongest.DoneCanBeDropped` is such a run). A run that cannot be
  continued has all histories if and only if no main loop has taken a DONE
  (`BankingLength.AllReportUnlessLost`).
- Every DONE taken early also makes the clocks run ahead. With n children and k transfers the
  longest history has 6k + 3n + 4 + n(n-1)/2 entries, and a run reaches it; with the n
  transfers of `bank_robbery` and up to 15 children that is at most 244, so the 256 entries
  and the unsigned byte for the length suffice. This is proved where it is decided, at the
  grain of single reads and writes (`BankingPolls`).
- pa2's history is right if and only if STOP arrives after time 0 and the transfers received
  at time 0 cancel out.

## Model

| member | source | states |
|---|---|---|
| ForkSafety.InvKept | pa6/mutex.c:30-133 | every step keeps, for each pair, the invariant on forks, dirty marks, tokens and both channels |
| ForkOrder.MutualExclusion | pa6/mutex.c:77-87 | no two children are ever past the entry test together |
| ForkOrder.ForkAndTokenConservation | pa6/mutex.c:30-46 | one fork per pair over both ends and both channels, at most one request token, exactly one while neither child has finished |
| ForkTokens.TokenUntilAnswered | pa6/mutex.c:106-118 | exactly one token per pair until a finished child of the pair answers a request, none from then on, and that happens once at most |
| ForkTokens.TokensUnderStep | pa6/mutex.c:30-46 | no other step changes the number of a pair's tokens |
| ForkOrder.ForkAheadOfRequest | pa6/mutex.c:39-45 | a request in flight finds the fork at its target or ahead of it in the same channel |
| ForkOrder.NoCrash | pa6/mutex.c:30-46 | the assertions of `request_fork` and `give_up_fork` and the check for DONE never fail |
| ForkOrder.EntryTestIsForks | pa6/mutex.c:77-85 | in every reachable state the entry test comes down to holding all forks |
| ForkOrder.PrecedenceUnderStep | pa6/mutex.c:91-104 | a release moves the releasing child to last place; every other step leaves the precedence of every pair as it was |
| ForkOrder.InitialOrder | pa6/mutex.c:126-130 | the initial placement of the forks is the order of ids |
| ForkOrder.PrecedenceIsTotalOrder | pa6/mutex.c:48-104 | in every reachable state precedence is a strict total order |
| ForkProgress.StuckIffFinished | pa6/mutex.c:48-118 | no step is possible exactly when every child has finished with all channels empty |
| ForkProgress.ExitLeavesNothing | pa4/child.c:40-46 | a child that leaves the closing loop has heard every DONE, and nothing is in flight to it |
| ForkProgress.ExitIsFinal | pa4/child.c:40-52 | nor does anything arrive for it later, in any continuation |
| ForkTermination.MeasureDecreases | pa6/mutex.c:48-118 | every step decreases a measure of sections left, requests left and messages in flight |
| ForkTheorems.EveryMaximalRunCompletes | pa6/mutex.c:48-118 | every run has at most 30n^3 + 4n^2 + 2n steps and can be continued until all children have done their 5 * id sections |
| ForkTheorems.BoundedBypass | pa6/mutex.c:65-71 | from the moment q handles p's request until p next enters, q enters at most once |
| ForkCost.MessageCost | pa6/mutex.c:53-101 | at most 2(n-1) requests and forks per critical section begun |
| ForkTokens.OneRequestPerSection | pa6/mutex.c:53-58 | a child sends each peer at most one request per critical section begun |
| ForkMutex.IdleIteration | pa6/mutex.c:52-88 | an iteration that receives nothing and does not enter leaves nothing to ask for in the next |
| ForkMutex.ReleaseSends | pa4/child.c:32-38 | a release of the protocol is `release_cs`, followed by DONE after the last section |
| ForkMutex.Mutex.constructor | pa6/mutex.c:120-133 | the arrays of the initial fork placement |
| ForkMutex.Mutex.RequestFork | pa6/mutex.c:30-37 | one token given up and one request sent, or the failed assertion |
| ForkMutex.Mutex.GiveUpFork | pa6/mutex.c:39-46 | one fork given up and sent, or the failed assertion |
| ForkMutex.Mutex.AskForks | pa6/mutex.c:53-58 | the asking loop computes the protocol's ask step |
| ForkMutex.Mutex.CanEnterCs | pa6/mutex.c:77-85 | the loop with its early exit computes the protocol's entry test |
| ForkMutex.Mutex.Process | pa6/mutex.c:62-74 | a fork arrives clean; a request is noted and answered at once exactly by a dirty fork |
| ForkMutex.Mutex.RequestCs | pa6/mutex.c:48-89 | a call is the protocol's steps up to its outcome, whatever arrives, and goes on for as long as it is scheduled |
| ForkMutex.Mutex.ReleaseCs | pa6/mutex.c:91-104 | the array loop computes the release of the protocol, and fails exactly when that does |
| ForkMutex.Mutex.HandleCsRequests | pa6/mutex.c:106-118 | the serving loop is the protocol's steps, and returns only on a message other than a request |
| ForkProjection.Projection | pa4/child.c:13-53 | whatever is delivered by which poll: a child that finds its messages in the order of a run of the global system is brought by its driver to where the run brings it, with the same messages sent, and the rest of every stream unread; polls that find nothing change nothing unless the entry test succeeds |
| ForkProjection.Schedulable | pa1/ipcio.c:170-176 | every run has such a schedule for every child |
| ForkProjection.SentIsTaken | pa1/ipcio.c:20-36 | what a child has sent to another is what that one has taken from it and then what is in the channel |
| ForkDriver.FailsExactly | pa4/child.c:21-46 | a child is stopped by exactly a foreign message, and in the closing loop by a fork or a request for a fork that is not there; any other message is handled and it goes on |
| ForkCausality.ClockCondition | pa3/time.c:9-16 | with a tick for every request, fork and DONE sent, Lamport time strictly increases along every causal chain of every run of pa6 |
| ForkCausality.SilentShows | pa6/mutex.c:52-104 | a step that does not tick neither takes nor sends a message |
| ForkDriver.CallIsDrive | pa6/mutex.c:48-89 | a call and what follows its return is the child's life under the steps of the global system, up to asking again for nothing |
| ForkDriver.ServeIsDrive | pa6/mutex.c:106-118 | so is a call in the closing loop |
| ForkDriver.CallProgress | pa6/mutex.c:48-89 | a call that returns has used up a poll and never fails an assertion; one that does not return has used them all; it enters as soon as the entry test succeeds, so a call left waiting has failed it after its last poll |
| ForkDriver.ReleaseIsDrive | pa6/mutex.c:91-104 | so is a release, with DONE after the last one |
| QueueProtocol.TopIsLeast | pa4/mutex.c:131-143 | the scan answers i exactly if i's pending request is the least by (timestamp, id) |
| QueueSafety.AgreeConcat | pa4/mutex.c:149-157 | agreement of a replica up to messages in flight is kept by whatever is appended |
| QueueInvariant.InvKept | pa4/mutex.c:45-119 | every step keeps the invariant on pairs, counters and the log of entries |
| QueueInvariant.EntryIsLeast | pa4/mutex.c:77-79 | a child that enters precedes every pending request, and every other clock has passed its request |
| QueueOrder.MutualExclusion | pa4/mutex.c:45-98 | no two children are in the critical section together |
| QueueOrder.OrderedGrants | pa4/mutex.c:77-79 | entries of a run strictly increase in (request timestamp, id) |
| QueueOrder.NoCrash | pa4/mutex.c:149-157 | the assertions of `enqueue_request` and `release_request` and the check for DONE never fail |
| QueueOrder.ReplicaAgreement | pa4/mutex.c:64-72 | folding the requests and releases in flight from i to j over j's entry for i gives i's own entry |
| QueueOrder.ReplyAccounting | pa4/mutex.c:50-63 | for an outstanding request and a peer exactly one of: request in flight, reply in flight, reply counted; the counter is the number of peers counted, also after a DONE |
| QueueOrder.CountedIsReceived | pa4/mutex.c:62-83 | a peer counts from the receipt of its reply until the release, whatever interrupts the call |
| QueueOrder.CriticalIsLeast | pa4/mutex.c:77-79 | whoever is inside precedes every pending request of the others |
| QueueOrder.StuckFinishedUnlessAlone | pa4/mutex.c:57-84 | a reachable state without steps is finished if and only if n is not 1 |
| QueueOrder.LoneChildWaits | pa4/mutex.c:57-81 | a single child waits for ever in its first call |
| QueueOrder.ExitLeavesNothing | pa4/child.c:40-46 | a child that leaves the closing loop has heard every DONE, and nothing is in flight to it |
| QueueOrder.ExitIsFinal | pa4/child.c:40-52 | nor does anything arrive for it later, in any continuation |
| QueueCost.ExactMessageCost | pa4/mutex.c:50-94 | a finished run has sent exactly 3(n-1) messages per critical section |
| QueueClock.TicksAreCharged | pa3/time.c:9-16 | every tick of a step is paid from the ticks left at that state |
| QueueClock.ClockBound | pa3/time.c:9-16 | clocks and timestamps never exceed n plus the ticks used so far |
| QueueClock.NoTimestampOverflow | pa1/ipc.h:19 | with n <= 14 a 16-bit timestamp never wraps |
| QueueClock.EveryMaximalRunCompletes | pa4/child.c:19-46 | run length bound, and a run that cannot be continued has completed all 5 * id sections unless n is 1 |
| Causality.InTransit | pa1/ipcio.c:15 | what is in a channel is what has been sent on it and not yet received, in order |
| Causality.ChainAscends | pa3/time.c:9-16 | for any processes with such clocks and channels: Lamport time strictly increases along every causal chain |
| QueueCausality.Senders | pa4/mutex.c:57-60 | every message received in a run was sent by an earlier step |
| QueueCausality.ClockCondition | pa3/time.c:9-16 | the same along every causal chain of steps of every run of pa4 |
| QueueProjection.Projection | pa4/child.c:13-53 | whatever is delivered by which poll: a child that finds its messages in the order of a run of the global system is brought by its driver to where the run brings it, with the same messages sent, and the rest of every stream unread |
| QueueProjection.Schedulable | pa1/ipcio.c:170-176 | every run has such a schedule for every child |
| QueueProjection.SentIsTaken | pa1/ipcio.c:20-36 | what a child has sent to another is what that one has taken from it and then what is in the channel |
| QueueMutex.CallOnlyReplies | pa4/mutex.c:57-84 | a call, resumed or not, sends nothing but replies after its head and leaves the own entry alone |
| QueueMutex.CallProgress | pa4/mutex.c:57-84 | a call that returns because of a message has received one, and one that does not return has used up every poll |
| QueueMutex.ReleaseSends | pa4/child.c:32-38 | a release of the protocol is `release_cs`, followed by DONE after the last section |
| QueueMutex.Mutex.constructor | pa4/mutex.c:121-127 | an empty queue and counter |
| QueueMutex.Mutex.TopEnqueuedRequest | pa4/mutex.c:131-143 | the loop finds the own id exactly if the own request is the least |
| QueueMutex.Mutex.EnqueueRequest | pa4/mutex.c:149-152 | one entry set, or the failed assertion |
| QueueMutex.Mutex.ReleaseRequest | pa4/mutex.c:154-157 | one entry cleared, or the failed assertion |
| QueueMutex.Mutex.UpdateQueue | pa4/mutex.c:64-72 | both branches for requests and releases compute the protocol's update |
| QueueMutex.Mutex.IssueRequest | pa4/mutex.c:47-55 | the clock ticks on every call; a request with that time is entered and sent to every other child if none is pending, and otherwise nothing |
| QueueMutex.Mutex.Process | pa4/mutex.c:60-73 | one message handled as in the protocol |
| QueueMutex.Mutex.RequestCs | pa4/mutex.c:45-85 | a call is the protocol's steps up to its outcome, whatever arrives, and polls for as long as it is scheduled |
| QueueMutex.Mutex.ReleaseCs | pa4/mutex.c:87-98 | own entry cleared, one release to every other child |
| QueueMutex.Mutex.HandleCsRequests | pa4/mutex.c:100-119 | the serving loop is the protocol's steps, never returns on a request or a release, and polls for as long as it is scheduled |
| DeferInvariant.InvKept | pa5/mutex.c:47-129 | every step keeps the invariant on pairs, counters and the log of entries |
| DeferInvariant.EntryIsLeast | pa5/mutex.c:71-89 | a child that enters precedes every pending request, although late messages were compared with newer own requests |
| DeferOrder.MutualExclusion | pa5/mutex.c:62-113 | no two children are in the critical section together |
| DeferOrder.OrderedGrants | pa5/mutex.c:73-89 | entries of a run strictly increase in (request timestamp, id) |
| DeferOrder.NoCrash | pa5/mutex.c:163-171 | the assertions of the queue and the check for DONE never fail |
| DeferOrder.ReplyAccounting | pa5/mutex.c:47-93 | for an outstanding request and a peer exactly one of: request in flight, deferred, reply in flight, reply counted; the counter is the number of peers counted |
| DeferOrder.CountedIsReceived | pa5/mutex.c:71-93 | a peer counts from the receipt of its reply until the release, whatever interrupts the call |
| DeferOrder.StuckFinishedUnlessAlone | pa5/mutex.c:66-94 | a reachable state without steps is finished if and only if n is not 1 |
| DeferOrder.LoneChildWaits | pa5/mutex.c:66-91 | a single child waits for ever in its first call |
| DeferOrder.ExitLeavesNothing | pa4/child.c:40-46 | a child that leaves the closing loop has heard every DONE, and nothing is in flight to it |
| DeferOrder.ExitIsFinal | pa4/child.c:40-52 | nor does anything arrive for it later, in any continuation |
| DeferCost.ExactMessageCost | pa5/mutex.c:55-109 | a finished run has sent exactly 2(n-1) messages per critical section |
| DeferClock.TicksAreCharged | pa3/time.c:9-16 | conservation: the ticks of a step are exactly what it takes from the ticks left |
| DeferClock.ClockBound | pa3/time.c:9-16 | clocks and timestamps never exceed n plus the ticks used so far |
| DeferClock.NoTimestampOverflow | pa1/ipc.h:19 | with n <= 15 the clock stays at most 26040, so a 16-bit timestamp never wraps |
| DeferClock.EveryMaximalRunCompletes | pa4/child.c:19-46 | run length bound, and a run that cannot be continued has completed all 5 * id sections unless n is 1 |
| DeferCausality.ClockCondition | pa3/time.c:9-16 | Lamport time strictly increases along every causal chain of the steps that tick |
| DeferCausality.SilentShows | pa5/mutex.c:97-113 | a step that does not tick neither takes nor sends a message |
| DeferMutex.CallOnlyReplies | pa5/mutex.c:66-91 | a call, resumed or not, sends nothing but replies after its head and leaves the own entry alone |
| DeferMutex.CallProgress | pa5/mutex.c:66-91 | a call that returns because of a message has received one, and one that does not return has used up every poll |
| DeferMutex.ReleaseSends | pa4/child.c:32-38 | a release of the protocol is `release_cs`, followed by DONE after the last section |
| DeferMutex.Mutex.EnqueueOwnRequest | pa5/mutex.c:47-60 | the pending request is kept without a tick, or a new one is sent to everyone |
| DeferMutex.Mutex.Process | pa5/mutex.c:69-83 | the comparison that defers or answers computes the protocol's receive step |
| DeferMutex.Mutex.RequestCs | pa5/mutex.c:62-95 | a call is the protocol's steps up to its outcome, whatever arrives, and polls for as long as it is scheduled |
| DeferMutex.Mutex.ReleaseCs | pa5/mutex.c:97-113 | the loop answers every deferred request, and empties the queue |
| DeferMutex.RepliesTick | pa5/mutex.c:102-110 | these replies carry consecutive times in the order of ids |
| DeferMutex.Mutex.HandleCsRequests | pa5/mutex.c:115-129 | the serving loop is the protocol's steps, and returns only on a message other than a request |
| DeferProjection.Projection | pa4/child.c:13-53 | the same for the runs of pa5 |
| DeferProjection.Schedulable | pa1/ipcio.c:170-176 | every run of pa5 has such a schedule for every child |
| DeferProjection.SentIsTaken | pa1/ipcio.c:20-36 | what a child has sent to another is what that one has taken from it and then what is in the channel |
| DeferDriver.FailsExactly | pa4/child.c:21-46 | a child is stopped by exactly a release, a second request to be deferred, and in the closing loop a reply; any other message is handled and it goes on |
| DeferDriver.CallIsDrive | pa5/mutex.c:62-95 | a call and what follows its return is the child's life under the steps of the global system |
| DeferDriver.ReleaseIsDrive | pa5/mutex.c:97-113 | so is a release, with DONE after the last one |
| ChildDriver.CallIsDrive | pa4/child.c:21-26 | a call and what follows its return is the child's life under the steps of the global system |
| ChildDriver.ReleaseIsDrive | pa4/child.c:32-38 | so is a release, with DONE after the last one |
| ChildDriver.FailsExactly | pa4/child.c:21-46 | a child is stopped by exactly a second request, a release without a request, and in the closing loop a reply; any other message is handled and it goes on |
| ChildDriver.Iterate | pa4/child.c:20-35 | one iteration, with calls resumed after every DONE |
| ChildDriver.Close | pa4/child.c:40-46 | the closing loop |
| ChildDriver.ChildEntry | pa4/child.c:13-53 | behind the start barrier the driver's run is the life the protocol's steps give the child, and if it completes it has sent what `CompletedLife` says |
| ChildDriver.CompletedLife | pa4/child.c:19-46 | a completed child has passed 5 * id times and sent every other child as many requests and releases, and one DONE, however often it was interrupted |
| LamportTime.Clock.Synchronize | pa3/time.c:13-16 | past both the local and the received time, and one tick past one of them |
| StartBarrier.AwaitAllStarted | pa3/ipcext.c:35-62 | one message per child in the order of ids, its type checked, the clock synchronised |
| StartBarrier.SyncStarted | pa4/child.c:55-65 | the first tick, STARTED to every process with it, and that wait |
| StartBarrier.BarrierTime | pa3/ipcext.c:35-62 | in a run the type check never fails, and who gets through leaves at time n (a child) or n + 1 (the parent) |
| StartBarrier.BarrierOpens | pa1/ipcio.c:156-168 | the wait ends well only if the first message of every other child is STARTED and badly only if one is not; once all have been heard of, with whatever poll, one more poll for each is enough for it to end |
| Ipc.First | pa1/ipcio.c:170-176 | the least sender with a message waiting |
| Ipc.Endpoint.ReceiveAny | pa1/ipcio.c:170-176 | every list gets what the poll delivers; then the oldest message of the least sender with one waiting is taken, and nothing else |
| Ipc.Endpoint.Receive | pa1/ipcio.c:27-36 | the same for one sender: what is left is all there was without its first message |
| Ipc.Endpoint.MulticastToChildren | pa1/ipcio.c:178-185 | one copy to every child but the sender |
| BankingSafety.ReceiveKeepsAccount | pa3/child.c:23-61 | whatever arrives, entry k is for time k and shows the balance as of time k |
| BankingSafety.SourceKeeps | pa3/child.c:39-50 | the source handles the order one tick after the parent's clock and records the amount as pending at that time and the next, the stamp of the money; nothing else is in flight |
| BankingSafety.TargetKeeps | pa3/child.c:51-59 | the destination receives the money at exactly its stamp plus one |
| BankingTheorems.InvKept | pa3/child.c:15-76 | every step keeps the histories, the place of the money and the total at every time |
| BankingTheorems.Conservation | pa3/child.c:23-60 | at every time recorded by all children, balances plus pending money are the initial total, in every state of every run |
| BankingTheorems.HistoryMeaning | pa3/child.c:10-13 | no gap and no overwriting, and each entry is the initial balance plus the changes received by then |
| BankingTheorems.NothingBreaks | pa3/parent.c:22-25 | the parent's assertion and the children's type checks never fail |
| BankingLength.HistoryLength | pa3/child.c:64-69 | if all report after k transfers, all histories have length 2n + 4 + 6k |
| BankingLength.HistoryFits | pa2/bank_robbery.c:13-20 | if all report, the histories of up to 15 children with n transfers have at most 124 entries |
| BankingBound.HistoryBound | pa3/child.c:10-13 | in every state of every run of the coarse system, a history has at most 6k + 3n + 2 + n(n+1)/2 entries |
| BankingPolls.FineIsCoarse | pa1/ipcio.c:37-64 | a run that writes to one destination and reads one channel at a time is a run of the coarse system, idle reads and single writes aside |
| BankingTight.BeforeStop | pa3/parent.c:42-45 | until its STOP is written a child can only have taken DONEs of smaller ids, which bounds its clock |
| BankingTight.TightKept | pa3/child.c:22-69 | every read, write and step keeps the bounds on clocks, stamps and histories |
| BankingTight.HistoryBoundWithPolls | pa3/child.c:10-13 | with STOP written and channels read in the order of ids, a history has at most 6k + 3n + 4 + n(n-1)/2 entries |
| BankingTight.HistoryAlwaysFits | pa2/banking.h:47-52 | with n transfers and n <= 15 that is at most 244: no write past the array, no wrap of the length |
| BankingLongest.BoundIsReached | pa3/child.c:22-69 | for two children or more and any number of transfers there is a run, read by read, in which child 1 records that many entries |
| BankingLength.DroppedForever | pa3/child.c:22-34 | a DONE lost in the main loop stays lost |
| BankingLength.DroppedNeverReports | pa3/child.c:64-75 | who has lost one never sends its history |
| BankingLongest.DoneCanBeDropped | pa3/child.c:22-34 | for two children or more there is a run, read by read, in which child 2 takes the DONE of child 1 before STOP is written to it |
| BankingLength.LossDrops | pa3/child.c:22-34 | a main loop that takes a DONE loses it |
| BankingLength.RunKeepsEnd | pa3/child.c:22-75 | a run that loses no DONE keeps every clock, channel and length exact; any other ends with a DONE lost |
| BankingLength.AllReportUnlessLost | pa3/child.c:22-75 | a run that cannot be continued has all histories if and only if no step of it takes a DONE in a main loop |
| BankChild.RecordsAtEnd | pa3/child.c:40-46 | both entries of a withdrawal are recorded at the end of the history |
| BankChild.BalanceHistory.Record | pa3/child.c:10-13 | stored at the entry's time, length one more, unless the array is full |
| BankChild.BalanceHistory.FillTo | pa3/child.c:27-29 | the loop computes the filled history, and fails exactly when it does not fit |
| BankChild.Child.HandleTransfer | pa3/child.c:34-60 | both ends of a transfer as in the protocol |
| BankChild.Child.SyncDone | pa3/child.c:64-75 | the collection of DONE messages in the order of ids, then the report |
| BankingProjection.Projection | pa3/child.c:15-76 | whatever is delivered by which poll: a child that finds its messages in the order of a run of the banking system is brought to the balance, clock and history the run gives it, with the same messages sent, unless its history does not fit the array |
| BankingProjection.Schedulable | pa1/ipcio.c:49-57 | every run has such a schedule for every child, one poll for each message it takes |
| BankingProjection.SentIsTaken | pa1/ipcio.c:20-36 | what a process, the parent included, has sent to another is what that one has taken from it and then what is in the channel |
| BankChild.FaultsExactly | pa3/ipcext.c:49-57 | a child that collects fails on exactly the messages that are not DONE |
| BankChild.LiveKeeps | pa3/child.c:15-76 | in any environment, a child that ends without a failed check has a right history |
| BankChild.ChildEntry | pa3/child.c:15-76 | behind the start barrier, the history sent is the one the protocol's steps give, entry by entry right |
| BankParent.TransferMoney | pa3/parent.c:10-28 | one order to the source; the first message that is there or arrives from the destination decides the assertion and the clock, and nothing else is taken; without one the parent waits for ever |
| BankParent.TransferIsSteps | pa3/parent.c:10-28 | that is what TransferStep and AckStep make of the parent, whatever the children do in between |
| BankParent.AllHistory.Fill | pa3/parent.c:30-35 | one history stored, or the failed assertion |
| BankParent.GatherHistories | pa3/ipcext.c:35-62 | history k is the first report of child k, and the parent stops at the first message of another type; the callback's assertion holds every time |
| BankParent.GatheredClock | pa3/ipcext.c:58 | the clock has met the times of these reports in the order of ids |
| BankParent.GatheringEnds | pa1/ipcio.c:156-168 | once all children have reported, with whatever poll, one more poll for each is enough |
| PhysicalHistory.BalanceIsFlow | pa2/child.c:32-50 | the balance at any time is the initial one, less the transfers received by then that name the child as source, plus those that name it as destination only |
| PhysicalHistory.SendsAre | pa2/child.c:35-50 | the child sends on to d all the money that is to go there, one acknowledgement for every deposit, and nothing else |
| PhysicalHistory.FilledBetween | pa2/child.c:18-23 | filling up to the next time of receipt keeps every entry right |
| PhysicalHistory.ReceivedBetween | pa2/child.c:32-50 | a message received at that time changes no earlier entry |
| PhysicalHistory.ChildEntry | pa2/child.c:15-52 | forwards and acknowledgements are sent in order, and the history is right if and only if STOP comes after time 0 and the transfers received at time 0 cancel out |
| PhysicalHistory.WrongAtTimeZero | pa2/child.c:15-40 | one transfer received at time 0 makes the history wrong |

## Left out

- Pipes, byte-level reads and writes, non-blocking flags, failing sends and receives: replaced by reliable FIFO lists.
- fork, wait, getopt, argument parsing, `sleep(1)`, logging, printing, payload text, `s_magic`.
- The run without `--mutexl`: it makes no exclusion claim.
- The parents of pa4, pa5 and pa6: they send nothing between the barrier and the end of a run, and messages to them are not recorded.
- Sending to one destination after another in the global systems of pa4, pa5 and pa6: a multicast is one step there, one loop in `Ipc`. A message that has not been written yet appears as one its receiver has not polled yet.
- STARTED messages in the global systems: the barrier is modelled by itself (`StartBarrier`), and the systems start behind it.
- Lamport time in the states of `ForkProtocol`: it steers no branch of pa6, and `ForkCausality` lays it over the runs. No bound on it is stated.
- `top_enqueued_request` of pa5: not called there; the function is modelled once, in pa4.
- The imperative driver runs over pa4's mutex only; for pa5 and pa6 the lemmas of `DeferDriver` and `ForkDriver` relate calls and releases to the driver's steps.
- Child c's entries stand at index c and the arrays have n + 1 places, where pa4 and pa5 use index c - 1 of a fixed array whose other places stay empty.
- A call that ends with a failed assertion: what it had sent before the failing message is recorded, a partly finished `release_cs` is not.
- QueueClock.NoTimestampOverflow: proved for n <= 14, because the bound counts every tick of the run and for n = 15 exceeds the 16-bit range; whether some run of pa4 with 15 children reaches it is left open.
- The wrap-around of 16-bit balances and amounts: money is unbounded.
- Transfers from a child to itself in pa3's global system: `bank_robbery` makes none.
- BALANCE_HISTORY messages in pa3's global system: a child's last step marks it as reported.
- PhysicalHistory.ChildEntry: asks for an array with room for the time of STOP, where the source would write past its end (in pa3 that case is the outcome `Overrun`), and ends before the exchange of DONE and the report.
- Conservation in pa2, which records no money in transit.
- The output of `print_history`.
