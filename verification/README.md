# Verified model of actix-async's channel, oneshot and actor scheduler

actix-async runs actors on a concurrency substrate of its own: a lock-free segmented queue, an
intrusive wait list, a channel built from the two, a oneshot, and a run loop that mixes concurrent
tasks with exclusive messages. This project models these parts in Dafny and proves what they promise
over all runs: for state machines, over every interleaving of any number of threads, one shared
access per step; for objects that one owner changes in place, as heap classes whose methods are
proved against a specification on values.

Run `dafny verify dfyconfig.toml`.

## The parts

**Segmented queue** (`PackedIndex`, `Queue*`). `QueueModel` is the program of `unbounded.rs` cut at
every shared access: any number of pushes, pops and closes, spurious failures of the weak
compare-exchange, blocks allocated in advance and lost, the head's mark, the READ/DESTROY hand-off.
Faults (a freed block touched or freed twice, a value read before it is written) are explicit
outcomes. `QueueInvariant` states the inductive invariant, rely-guarantee style: `QueueFrames` says
what a step of one thread leaves to the others, `QueueSteps`, `QueuePushSteps`, `QueueInstallSteps`,
`QueuePopSteps` and `QueueReclaimSteps` take the program points one by one. `QueueTheorems` draws
the conclusions (the queue refines a closable first-in first-out sequence; no fault; one reclaimer,
and every drained block is freed), `QueueAlone` says what an operation comes to when no other is in
progress, and `QueueDrop` proves the destructor's loop.

**Wait list** (`ListenerSpec`, `Listener`). `ListenerSpec` is the list as a value: waiters in
registration order, the notified ones a prefix. `Listener` is the heap: doubly linked entries, the
`start` cursor, the cached entry, the counters, `Event` with the published summary, `EventListener`.
Each method is proved against its counterpart on values.

**Channel** (`Channel*`). Send futures, direct sends, closers and receivers step one shared access
at a time over the abstract queue and two wait lists. The counter is a 64-bit word. Receivers are
never forgotten; messages arrive in order, once each; a send pushes exactly if it comes to `Ok`
(`ChannelOutcomes`); the counter is conserved; senders are not forgotten unless a send future acts on
a stale count, and `ChannelExact` says exactly which steps those are. `ChannelPolls` says exactly
what an undisturbed poll of a send future comes to, on an open channel and on a closed one, and
`ChannelReceives` the same of a receiver. `ChannelClosing` shows that closing tells every parked
sender, and `ChannelLimits` gives three short runs in which the code keeps a sender waiting.

**Oneshot** (`Oneshot`). The two parties and the four-bit word, over all interleavings.

**Actor** (`TaskQueue`, `RunLoop*`, `Sources`, `Request`). `TaskQueue` is the slab and the wake queue
as objects, with `poll_task` as a method; `RunLoop` is the loop of `ContextFuture::run` between
suspension points, with its mailbox; `RunLoopTheorems` has its guarantees and says what a stop does
to the backlog and to the tasks in flight, `RunLoopOffers` what each poll of the select takes and
completes, and `RunLoopRuns` gives three short runs; `Sources` is one
pass over the timers or the streams, in place; `Request` puts the requester's future, a send future
of the channel, the handler and the oneshot together.

## Where the code does not do what one might expect

- `SendFuture::poll` does not load `in_queue` again after it has begun to listen, so a receiver that
  makes room in between wakes nobody: `ChannelLimits.SenderCanBeForgotten` is such a run,
  `ChannelExact.ForgottenExactly` characterises the steps that cause it, and
  `ChannelTheorems.UndisturbedNeverRaces` shows that schedules in which nobody else steps while a
  send future decides are safe.
- A direct send (`do_send`) reserves nothing, but counting its message off takes one from the counter.
  After one that is received on a quiet channel the counter is 2^64 - 1, and the next send parks on an
  empty open channel (`ChannelLimits.DirectSendStarves` is a run). An undisturbed
  poll on an open channel comes to `Ok` if and only if the counter is below the capacity
  (`ChannelPolls.OpenPollExactly`); on an empty one with nothing reserved or being taken it parks if
  and only if 0 < d <= 2^64 - capacity, where d is the number of direct sends modulo 2^64
  (`ChannelPolls.StarvedExactly`). `ChannelTheorems.NoDeadlock` says that this is the
  only way for a sender and a receiver to wait for each other when no sender has been forgotten.
- Closing the channel notifies every sender (`ChannelClosing.ClosingTellsSenders`), but one that still
  sees a full counter parks again: an undisturbed poll on a closed channel comes to `Closed` if and
  only if the counter is below the capacity (`ChannelPolls.ClosedPollExactly`;
  `ChannelLimits.ClosedSenderParksAgain` is a run). The reservation of a send that comes to `Closed`
  is never given back, so that no more than the capacity and the number of direct sends ever do
  (`ChannelPolls.ClosedAnswersBounded`).
- The documentation of `Context::stop` (context.rs:127-128) says that all remaining messages are
  drained. A stop asked for while no select is pending leaves the whole backlog
  (`RunLoopTheorems.StopIsFinal`; `RunLoopRuns.BacklogLeft` is a run). One asked for by a task whose
  select stays pending is overridden exactly if that select then finds the closed mailbox empty, or a
  stop message without grace in front; the tasks in flight are dropped, and at most one message of
  the backlog is accepted (`RunLoopTheorems.StopOverriddenExactly`;
  `RunLoopRuns.GracefulStopOverridden` is a run). One asked for during `on_start` only closes the mailbox
  (`RunLoopTheorems.StopOnStart`): unless a stop is asked for again, the backlog is accepted, and then
  the loop is left abruptly (`RunLoopTheorems.UnaskedExitDrains`; `RunLoopRuns.StartStopDrops` is a
  run).
- A value accepted by `OneshotSender::send` stays in the cell, never dropped, exactly when the
  receiver is dropped without taking it (`Oneshot.FateOfTheValue`; `Oneshot.AcceptedValueCanLeak` is a
  run).
- A task's waker keeps the waker under which the actor first polled it and is never renewed; a wake
  tells a later poll of the actor if and only if that is the same (`TaskQueue.ToldExactlyIfFirst`;
  `TaskQueue.SecondParentNotTold` is a run).

## Assumptions

Sequential consistency; each shared access and each section under a lock is one step. Indices of the
queue are unbounded, and a freed block's name is not used again: the only compare-exchanges on
pointers are from null, so reuse could not be mistaken for the old block. Wakers, values, messages and
task identities are opaque. What futures, timers, streams and other threads do is left to the events
or to a function that answers each poll, over which the statements are universally quantified.

## Model

| member | source | states |
|---|---|---|
| PackedIndex.PackRoundTrip | actix-async/src/util/async_channel/unbounded.rs:30-39 | an index word and its lap, offset and mark determine each other |
| PackedIndex.WordOperations | actix-async/src/util/async_channel/unbounded.rs:250-269 | adding one shifted unit moves to the next position and keeps the mark; the comparisons of shifted words are those of positions and laps |
| PackedIndex.OrdNumbersPositions | actix-async/src/util/async_channel/unbounded.rs:161-171 | the 31 usable positions of every 32-position lap are numbered consecutively and in order |
| QueueTheorems.Reachable | actix-async/src/util/async_channel/unbounded.rs:150-335 | the invariant holds after every sequence of events of any number of pushes, pops and closes |
| QueueTheorems.NoFault | actix-async/src/util/async_channel/unbounded.rs:209-223 | no thread touches or frees a freed block, or reads a slot before its WRITE bit |
| QueueTheorems.RefinesFifo | actix-async/src/util/async_channel/unbounded.rs:150-335 | every step is a step of a closable first-in first-out sequence: items enter at the back of an open queue at the winning tail exchange and leave at the front at the winning head exchange |
| QueueTheorems.FollowsFifo | actix-async/src/util/async_channel/unbounded.rs:150-335 | over a whole run the actions read off the program points are a legal run of the abstract queue from empty and open, ending with the values pushed and not claimed |
| QueueTheorems.Responses | actix-async/src/util/async_channel/unbounded.rs:254-265 | what an operation reports is right when it reports it: a successful push entered its value once, a failed one entered nothing and the queue is closed, a pop returns the value of its own position, Empty and Closed mean the queue is empty and open, or empty and closed, at that load |
| QueueTheorems.ClosedForGood | actix-async/src/util/async_channel/unbounded.rs:327-335 | after a close the mark stays and no value is ever pushed again, in any continuation |
| QueueTheorems.PrefixDelivered | actix-async/src/util/async_channel/unbounded.rs:281-315 | returned values are pushed values position by position, distinct positions have distinct numbers, and every claimed position is returned or held by exactly one pop |
| QueueTheorems.FreedBlockIsUnused | actix-async/src/util/async_channel/unbounded.rs:96-113 | a freed block lies behind the head, all its 31 values have been returned and no thread reads, writes or reclaims it |
| QueueTheorems.OneReclaimer | actix-async/src/util/async_channel/unbounded.rs:306-312 | at most one thread at a time is responsible for reclaiming a block |
| QueueTheorems.ReclaimedInTheEnd | actix-async/src/util/async_channel/unbounded.rs:96-113 | once nobody reads or reclaims a block behind the head it has been freed: the DESTROY hand-off never loses the responsibility |
| QueueTheorems.HeadMarkSound | actix-async/src/util/async_channel/unbounded.rs:266-269 | when the head's mark is set the tail is in a later block |
| QueueAlone.LoneOperationReturns | actix-async/src/util/async_channel/unbounded.rs:150-325 | in every run with one operation in progress, wherever it has come to, that operation returns within 75 undisturbed steps, with the answer that is due: no wait loop is left spinning |
| QueueAlone.PushExactly | actix-async/src/util/async_channel/unbounded.rs:150-230 | an undisturbed push on a quiet queue succeeds, its value at the back, if and only if the queue is open; otherwise it gives the value back |
| QueueAlone.PopExactly | actix-async/src/util/async_channel/unbounded.rs:233-325 | an undisturbed pop on a quiet queue takes the front if there is one, and otherwise tells whether the queue is closed |
| QueueDrop.Unbounded.Drop | actix-async/src/util/async_channel/unbounded.rs:338-374 | the destructor terminates, drops exactly the values pushed and not popped, in order, and gives back exactly the blocks not yet freed, each once |
| QueueDrop.LifetimeConservation | actix-async/src/util/async_channel/unbounded.rs:338-374 | with no operation in progress what the destructor needs holds, speculative blocks included, also when nothing was ever pushed; and the returned values are exactly those before the head |
| QueueDrop.QuiescentShape | actix-async/src/util/async_channel/unbounded.rs:338-374 | with no operation in progress the blocks not freed are exactly those from the head's lap to the tail's, linked in order |
| ListenerSpec.FastPathExact | actix-async/src/util/async_channel/listener.rs:71-82 | the lock-free check skips `notify(n)` if and only if going through the lock would leave the list as it is, and then it would wake nobody |
| ListenerSpec.NotifyPrefix | actix-async/src/util/async_channel/listener.rs:384-413 | `notify(n)` leaves max(old, min(n, len)) notified, a longer prefix in registration order, and changes no other waiter; every newly notified waiter that was polled is woken |
| ListenerSpec.WakersExactly | actix-async/src/util/async_channel/listener.rs:384-413 | the wakers used are those of the newly notified waiters that were polled, of nobody else, each once and in registration order |
| ListenerSpec.NotifyMorePrefix | actix-async/src/util/async_channel/listener.rs:416-440 | `notify_additional(n)` notifies the next n waiters, or all the rest, and changes no other |
| ListenerSpec.CancelPassesOn | actix-async/src/util/async_channel/listener.rs:217-234 | a dropped listener's notification is not lost: an additional one goes to the next waiter, another one to the first if no waiter is notified any more; the other waiters keep their order |
| ListenerSpec.OperationsKeepWellFormed | actix-async/src/util/async_channel/listener.rs:304-413 | every list operation keeps the notified waiters exactly the first `notified`, and the waiters distinct |
| Listener.List.Insert | actix-async/src/util/async_channel/listener.rs:305-339 | the heap list stays linked both ways and gains one waiter at the end, in the cached entry exactly if that is free |
| Listener.List.Remove | actix-async/src/util/async_channel/listener.rs:341-381 | the entry leaves the heap list, the others keep their order, cursor and counters follow, its state is returned |
| Listener.List.Notify | actix-async/src/util/async_channel/listener.rs:384-413 | the notification loop computes `notify` on the value and wakes exactly the newly notified, in order |
| Listener.List.NotifyAdditional | actix-async/src/util/async_channel/listener.rs:416-440 | the loop notifies n more waiters, or all the rest |
| Listener.EventListener.Poll | actix-async/src/util/async_channel/listener.rs:181-214 | a notified listener completes and leaves the list, any other leaves its latest waker |
| Listener.EventListener.Drop | actix-async/src/util/async_channel/listener.rs:217-234 | a dropped listener leaves the list and passes an unused notification on |
| Listener.Event.Notify | actix-async/src/util/async_channel/listener.rs:71-82 | skipping the lock or not, list and woken waiters end up as after `notify(n)` under the lock |
| Listener.Event.Listen | actix-async/src/util/async_channel/listener.rs:58-68 | listening appends a waiter and republishes the summary |
| ChannelSteps.Reachable | actix-async/src/util/async_channel/mod.rs:35-331 | the channel's invariant holds after every interleaving of send futures, direct sends, closers and receivers |
| ChannelTheorems.ReceiverNotForgotten | actix-async/src/util/async_channel/mod.rs:293-330 | a parked receiver is listed; notified means woken since its last poll began; un-notified means the queue is empty and open or someone is between its push or close and its notify |
| ChannelMessages.MessagesInOrder | actix-async/src/util/async_channel/mod.rs:260-270 | over a whole run what receivers have taken, followed by what is queued, is what open-channel pushes put in; that the queue itself is first-in first-out is QueueTheorems.FollowsFifo |
| ChannelMessages.YieldsWhatItTook | actix-async/src/util/async_channel/mod.rs:293-315 | over a whole run the messages a receiver's polls yielded, followed by the one it still has in hand, are exactly those it took from the queue, in that order |
| ChannelMessages.EndsOnlyAtTheEnd | actix-async/src/util/async_channel/mod.rs:309-313 | a receiver's poll answers the end of the stream only if it found the queue empty and closed |
| ChannelReceives.ReceivesExactly | actix-async/src/util/async_channel/mod.rs:293-330 | an undisturbed poll of a receiver that does not listen or has been notified, in any reachable state, yields the front of the queue if there is one, the end if there is none and the channel is closed, and parks, listed, otherwise; one that listens without a notification stays parked |
| ChannelReceives.SettledReceivesExactly | actix-async/src/util/async_channel/mod.rs:293-330 | unless somebody is between a push or a close and its notify, every undisturbed poll, parked before or not, yields the front, or else the end, or else parks |
| ChannelReceives.AnswersAndRests | actix-async/src/util/async_channel/mod.rs:304-313 | a poll that answers ends without a listener |
| ChannelClosing.ClosingTellsSenders | actix-async/src/util/async_channel/mod.rs:35-48 | in every run, when the channel is closed, each send future that is parked is notified and woken, at the latest when the closer has passed the senders' event, and stays so until it is polled or dropped |
| ChannelClosing.ElseOneAtATime | actix-async/src/util/async_channel/mod.rs:260-270 | no step but a close's leaves more senders notified than there were, or than one |
| ChannelClosing.OthersEndExactly | actix-async/src/util/async_channel/mod.rs:35-89 | undisturbed, a close closes the channel and a direct send pushes its message exactly if the channel is open, and both end, whatever step they have reached |
| ChannelOutcomes.PushedExactlyOnOk | actix-async/src/util/async_channel/mod.rs:156-217 | in every run a send future has pushed its message exactly once if its poll came to Ok, and not at all if it came to Closed, is pending or was not polled; no agent pushes twice |
| ChannelOutcomes.PushesOwnMessage | actix-async/src/util/async_channel/mod.rs:159-173 | what an agent has pushed is the message it was made with |
| ChannelOutcomes.DroppedUnsent | actix-async/src/util/async_channel/mod.rs:145-149 | a send future dropped before it completed, or after Closed, has pushed nothing and never will |
| ChannelTheorems.CapacityConserved | actix-async/src/util/async_channel/mod.rs:51-53 | the counter equals items + reservations + items taken and not yet counted off + rejected reservations - direct sends, modulo the word; together they never exceed the capacity plus the direct sends; without direct sends the counter is exact |
| ChannelTheorems.SenderNotForgotten | actix-async/src/util/async_channel/mod.rs:156-217 | with or without direct sends, closed or open, if no stale decision was made: a parked sender is listed, notified means woken, and if there is room a sender is notified or someone is about to notify one |
| ChannelTheorems.UndisturbedNeverRaces | actix-async/src/util/async_channel/mod.rs:162-193 | a schedule in which only the deciding send future steps while it decides never has a stale decision |
| ChannelTheorems.NoDeadlock | actix-async/src/util/async_channel/mod.rs:156-331 | when every agent rests, no stale decision was made, and a receiver sleeps beside a parked sender: the queue is empty and open, the counter is as the direct sends left it, and either it admits no sender, exactly if they took it to where no reservation fits, or a sender holds a notification |
| ChannelExact.ForgottenExactly | actix-async/src/util/async_channel/mod.rs:195-215 | in every run a step leaves waiting senders beside free room with nobody notified or about to notify if and only if a send future, on a count that is no longer full, begins to listen alone or uses up the only notification |
| ChannelPolls.PollExactly | actix-async/src/util/async_channel/mod.rs:156-217 | in every reachable state an undisturbed poll of a new or parked send future, notified or not, completes if and only if the counter is below the capacity, with Ok and the message pushed on an open channel, Closed on a closed one; otherwise it parks with nothing pushed |
| ChannelPolls.OpenPollExactly | actix-async/src/util/async_channel/mod.rs:156-217 | on an open channel it comes to Ok, its message pushed, if and only if the counter is below the capacity |
| ChannelPolls.StarvedExactly | actix-async/src/util/async_channel/mod.rs:84-88 | on an empty open channel with nothing reserved or being taken it parks if and only if the direct sends have taken the counter to where no reservation fits |
| ChannelPolls.ClosedPollExactly | actix-async/src/util/async_channel/mod.rs:156-217 | on a closed channel an undisturbed poll of a new or parked send future comes to Closed if and only if the counter is below the capacity, else it parks; it pushes nothing |
| ChannelPolls.ClosedAnswersBounded | actix-async/src/util/async_channel/mod.rs:172-183 | no more sends than the capacity plus the direct sends ever come to Closed |
| ChannelLimits.SenderCanBeForgotten | actix-async/src/util/async_channel/mod.rs:162-215 | a concrete run that ends with a sender parked beside a free place and nobody about to wake it |
| ChannelLimits.ClosedSenderParksAgain | actix-async/src/util/async_channel/mod.rs:36-48 | a concrete run in which a sender woken by close parks again on the closed channel, the case that ClosedPollExactly describes |
| ChannelLimits.DirectSendStarves | actix-async/src/util/async_channel/mod.rs:260-270 | a concrete run in which a direct send is received and the next send parks on the empty open channel |
| Oneshot.WordOperations | actix-async/src/util/async_oneshot.rs:118-131 | testing a mask reads one bit of the word, or-ing one in sets that bit only |
| Oneshot.Reachable | actix-async/src/util/async_oneshot.rs:139-241 | the oneshot's invariant holds after every interleaving |
| Oneshot.TakenAtMostOnce | actix-async/src/util/async_oneshot.rs:77-88 | unless polled again after it yielded the value, no cell is read before it is written and the value is taken at most once, by one side |
| Oneshot.ResultsAreTrue | actix-async/src/util/async_oneshot.rs:193-206 | the receiver yields Ok only with the value sent, and Closed only if the sender was dropped unsent |
| Oneshot.NoLostWake | actix-async/src/util/async_oneshot.rs:211-226 | if the last poll was pending and the sender has finished since, the waker of that poll was woken |
| Oneshot.NextPollCompletes | actix-async/src/util/async_oneshot.rs:193-216 | once the sender has finished, the next poll completes, with the value exactly if one was accepted |
| Oneshot.FateOfTheValue | actix-async/src/util/async_oneshot.rs:95-110 | when both sides are done a sent value was taken exactly once, except that an accepted value is left in the cell if and only if the receiver was dropped without a result |
| Oneshot.OutcomeExactly | actix-async/src/util/async_oneshot.rs:150-165 | over all interleavings a sent value is given back, once, if and only if the receiver set the closed bit before the sender published the value; otherwise it is accepted |
| Oneshot.WasPublished | actix-async/src/util/async_oneshot.rs:77-88 | a value that came to an outcome was published at some step of the run, to which Oneshot.OutcomeExactly applies |
| Oneshot.SendExactly | actix-async/src/util/async_oneshot.rs:150-165 | an undisturbed send gives the value back if and only if the receiver has closed the word; otherwise it is accepted and a waiting receiver woken |
| Oneshot.SenderDropExactly | actix-async/src/util/async_oneshot.rs:168-180 | an undisturbed drop of a sender closes the word and wakes a waiting receiver |
| Oneshot.PollExactly | actix-async/src/util/async_oneshot.rs:209-227 | an undisturbed poll yields the value if it is published, Closed if the sender has gone without one, and is pending with its waker left otherwise |
| Oneshot.ReceiverDropExactly | actix-async/src/util/async_oneshot.rs:229-241 | an undisturbed drop of the receiver closes the word if and only if no poll has completed and neither bit is set |
| Oneshot.AcceptedValueCanLeak | actix-async/src/util/async_oneshot.rs:229-241 | a concrete run in which an accepted value is taken by nobody |
| Oneshot.PollAfterValueTakesAgain | actix-async/src/util/async_oneshot.rs:193-206 | a poll after the value was yielded takes it a second time |
| TaskQueue.TaskRef.PollTask | actix-async/src/context_future.rs:137-181 | at most as many turns as tasks; the slab, queue and polls are those of that many turns; a pending result with the lock free leaves no task that was never polled or was woken since its last poll began, and one that leaves a task runnable means that a waker holds the lock and is still to wake its parent |
| TaskQueue.TaskRef.AddTask | actix-async/src/context_future.rs:132-135 | a new task is runnable and its slot queued |
| TaskQueue.TaskRef.WakeByRef | actix-async/src/waker.rs:29-39 | a waker, stale or not, queues its slot, and makes exactly its own task runnable |
| TaskQueue.TurnsKeep | actix-async/src/context_future.rs:144-172 | through any number of turns, with any wakes in between, every runnable task's slot is on the queue, whatever stale or repeated slots it holds |
| TaskQueue.WakeAllKeeps | actix-async/src/waker.rs:60-62 | wakes append their slots in order and take no runnable task away |
| TaskQueue.GoneExactlyWhenDone | actix-async/src/context_future.rs:158-163 | after any number of turns a task is gone if and only if one of its polls was ready |
| TaskQueue.DoneNeverPolledAgain | actix-async/src/context_future.rs:144-163 | a task that was ready is never polled again, whatever stale or repeated slots are queued |
| TaskQueue.QueueConserved | actix-async/src/waker.rs:60-62 | the queue is what was on it followed by the slot of every waker used since, in order, less the slots taken off in front |
| TaskQueue.QueuedIsPolled | actix-async/src/context_future.rs:144-163 | the task whose slot is at place p of the queue is polled within p + 1 turns |
| TaskQueue.WakersStay | actix-async/src/context_future.rs:145-155 | through any number of turns a task keeps the waker it has; a first poll gives it one for its own slot under the actor's own waker |
| TaskQueue.WakeReaches | actix-async/src/waker.rs:29-39 | using a polled task's waker queues its slot, makes it runnable and uses the waker of the actor's poll in which the task was first polled |
| TaskQueue.ToldExactlyIfFirst | actix-async/src/context_future.rs:146-154 | after a poll of the actor, using a task's waker tells the waker of that poll if and only if the task was first polled under the same |
| TaskQueue.SecondParentNotTold | actix-async/src/waker.rs:29-39 | a concrete run in which a task polled under a second waker of the actor still tells only the first |
| RunLoopInvariant.Reachable | actix-async/src/context_future.rs:223-320 | the run loop's invariant holds after every sequence of events |
| RunLoopTheorems.ExclusiveBarrier | actix-async/src/context_future.rs:238-254 | while an exclusive message runs nothing is in flight, nothing was accepted after it, and everything accepted before it has completed |
| RunLoopTheorems.NothingTakenWhilePending | actix-async/src/context_future.rs:257-278 | while an exclusive message waits, no step takes anything from mailbox, streams or timers, and it stays the only one |
| RunLoopOffers.TakesTheOffer | actix-async/src/context_future.rs:345-373 | every step accepts exactly the offer of the first ready source in the order mailbox, tasks, streams, timers: a concurrent message becomes a task, an exclusive one waits, a stop message is noted; a ready `poll_task` accepts nothing |
| RunLoopOffers.AcceptsTheOffers | actix-async/src/context_future.rs:287-303 | over a whole run what was accepted is what was offered, in order, each as the kind it was; only concurrent messages are in flight beside others, and only exclusive ones wait |
| RunLoopOffers.CompletesExactly | actix-async/src/context_future.rs:345-373 | a poll leaves the select pending if and only if the mailbox has nothing and is open, tasks are left for another turn and nothing is offered; a closed mailbox ends the loop early, ready tasks yield |
| RunLoopOffers.TaskEndsExactly | actix-async/src/context_future.rs:137-181 | a task in flight completes exactly when a turn within the bound polls it and finds it ready, is dropped exactly when the loop is left early, and otherwise stays |
| RunLoopOffers.HandlerStopIsFinal | actix-async/src/context_future.rs:291-295 | a handler called by the select that asks for a stop ends the loop gracefully: nothing is accepted after its message |
| RunLoopOffers.RunsOnExactly | actix-async/src/context_future.rs:238-285 | from every point between suspensions the loop comes to the waiting exclusive message if nothing is in flight, or to a select that asks the mailbox unless a message waits or the hint is reached, the tasks if there are any, and the sources unless a message waits, or, asked to stop, to resolving or dropping its tasks |
| RunLoopOffers.LeavesExactly | actix-async/src/context_future.rs:308-319 | a loop that is left handles the exclusive message that still waits, which is never dropped, then `on_stop`, and ends |
| RunLoopOffers.AlwaysAsksSomething | actix-async/src/context_future.rs:257-278 | a select never waits for nothing: it asks the tasks or the sources |
| RunLoopOffers.MailboxExactly | actix-async/src/context_future.rs:257-261 | everything sent while the mailbox was open has been put into it, in order; the loop stops looking exactly when it has asked in vain, until its listener is notified or a stop closes the mailbox |
| RunLoopTheorems.MailboxBounded | actix-async/src/context_future.rs:257-263 | tasks from the mailbox never exceed the size hint, and fewer than that many messages are taken in a row while tasks wait to be polled |
| RunLoopTheorems.NothingLost | actix-async/src/context_future.rs:287-315 | every accepted message is at any time in flight or waiting, completed, or dropped, and only one of these |
| RunLoopTheorems.GracefulExit | actix-async/src/context_future.rs:244-250 | the exit is abrupt exactly if the last select found the mailbox closed or took a stop message without grace; a graceful one has completed every accepted message before `on_stop` |
| RunLoopTheorems.OneStopMessage | actix-async/src/context_future.rs:297-319 | at most one stop message is taken in a run, and its responder fires once, after `on_stop` |
| RunLoopTheorems.MailInOrder | actix-async/src/context_future.rs:257-263 | what was put into the mailbox is accepted in that order, once each, or is still queued |
| RunLoopTheorems.StopIsFinal | actix-async/src/context.rs:127-132 | a graceful stop asked for while no select is pending is final: the loop is left gracefully, accepts nothing more and leaves the backlog as it is |
| RunLoopTheorems.StopInTasks | actix-async/src/context_future.rs:137-181 | a stop asked for in a select is final unless fewer turns were taken than there were tasks and a task is left, so that the select stays pending |
| RunLoopTheorems.StopOverriddenExactly | actix-async/src/context_future.rs:287-303 | a stop asked for in a select that stays pending is overridden, and exactly the tasks in flight dropped, if and only if the poll that completes it looks into the mailbox and finds it empty or a stop message without grace in front; the front message is accepted exactly if that poll looks and finds one, no other is |
| RunLoopTheorems.StopStaysPending | actix-async/src/context_future.rs:345-373 | a poll that does not complete such a select accepts nothing and keeps the stop asked for |
| RunLoopTheorems.StopOnStart | actix-async/src/context_future.rs:231-232 | a stop during `on_start` closes the mailbox and changes nothing else of the loop |
| RunLoopTheorems.UnaskedExitDrains | actix-async/src/context_future.rs:302-302 | without a stop asked for since it began the loop is left only when the mailbox is closed and everything ever put into it was accepted, and drops exactly the tasks in flight when the mailbox was found closed |
| RunLoopRuns.GracefulStopOverridden | actix-async/src/context_future.rs:302-302 | a concrete run with two tasks in which the stop asked for by one ends abruptly and drops both |
| RunLoopRuns.BacklogLeft | actix-async/src/context.rs:127-132 | a concrete run in which a stop by an exclusive handler leaves a queued message unhandled |
| RunLoopRuns.StartStopDrops | actix-async/src/context_future.rs:231-232 | a concrete run in which a stop during `on_start` lets the queued message be accepted and then drops its task |
| Sources.PassPolls | actix-async/src/context_future.rs:68-109 | a pass polls no entry twice, and a pending pass polls every one |
| Sources.PassSettles | actix-async/src/context_future.rs:68-109 | after a pass exactly those entries polled are gone that were cancelled, whose stream ended, or whose delayed message was due; the others polled are kept, the rest is untouched |
| Sources.PassExplains | actix-async/src/message.rs:187-248 | the message a pass yields is that of the last entry polled: a timer's own, whose time was up, or a stream's next item, not cancelled; every entry polled before it, and every one in a pending pass, had none to yield |
| Sources.FutureCache.PollAt | actix-async/src/context_future.rs:92-104 | polls one entry, once, and no other; it goes exactly if it is over |
| Sources.FutureCache.PollFuture | actix-async/src/context_future.rs:87-109 | the loop with `swap_remove` computes the pass in place: its result, its entries, and which entries were polled, in order |
| Sources.StreamCache.PollStream | actix-async/src/context_future.rs:68-85 | the loop computes the pass in place: its result, its entries, and which entries were polled, in order; a stream that yields stays |
| Sources.FutureMessage.Poll | actix-async/src/message.rs:190-204 | a delayed message ends without one if cancelled, yields it exactly if its time is up, and is pending otherwise, in which case it stays, and forgets a handle that was dropped; it polls its handle only while that has not resolved |
| Sources.StreamMessage.PollNext | actix-async/src/message.rs:310-330 | an interval yields its message exactly if its time is up, a stream exactly its next item, is over exactly if the stream ends, and pending otherwise; cancelled, either ends; it polls its handle only while that has not resolved |
| Request.Reachable | actix-async/src/request.rs:104-162 | the invariant of requester, channel, handler and oneshot holds after every interleaving |
| Request.OutcomeTellsWhere | actix-async/src/request.rs:111-161 | SendTimeout: the channel never got the message, no handler runs; ReceiveTimeout: it got it once; an answer: it got it once, and the handler ran once to its end with that result; Closed: no handler has come to its end or will; timeouts only where configured |
| Request.StageTellsWhere | actix-async/src/request.rs:114-134 | while the first stage is pending the request has pushed nothing into the channel; from the second on it has pushed its message exactly once |
| Request.HandlerGetsOwnMessage | actix-async/src/handler.rs:141-152 | a handler is started only on the request's own message, delivered at its place in the mailbox's order |
| Request.AtMostOnce | actix-async/src/handler.rs:141-171 | a request gets one outcome, its message enters the channel at most once and is handled to the end at most once |
| Request.SkippedOnlyIfAbandoned | actix-async/src/handler.rs:154-171 | a handler is skipped only if the request was dropped without an answer |
| Request.SkipsExactly | actix-async/src/handler.rs:154-171 | the handler's future skips the handler if and only if the requester's end of the oneshot is gone when it starts |
| Request.PollEndsExactly | actix-async/src/request.rs:111-161 | a poll in the first stage ends with SendTimeout exactly if one is configured and has elapsed while the send waits for room, with Closed exactly if the send was refused; in the second with what the oneshot gave, or, while that is pending, with ReceiveTimeout exactly if one is configured and has elapsed |
| Request.PlaceHolderNeverSeen | actix-async/src/request.rs:111-161 | the poll never finds the placeholder at the top of its loop |
| Request.AnswerWakes | actix-async/src/request.rs:144-157 | a request still waiting when the other side is through has been woken |

## Left out

- The lock-free queue, the channel, the oneshot, the request and the run loop are state machines on
  values rather than objects changed in place: their methods interleave at every shared access,
  which a single-threaded heap method cannot express. The destructor, the wait list, the task queue
  and the source caches are objects.
- Weak memory orderings and fences, cache padding, spinning, the `unsafe` cells, overflow of the
  queue's index words.
- Termination of the queue's operations while others take steps: a retry or wait loop may go on for as
  long as they do. QueueAlone.LoneOperationReturns is about the operation that runs on alone.
- The lazy allocation of an event's inner state: the events of the model have it from the start. An
  unallocated event publishes nothing to notify, as the model's initial summary does.
- Freeing the memory of a removed list entry.
- A list of more than `usize::MAX` waiters: listening then does nothing in the channel machine.
- The counts of senders and receivers, and upgrading a weak sender: a close may happen at any time.
- ChannelTheorems.SenderNotForgotten: has the proviso that no item is counted off while a send future
  acts on having seen the counter full; without it the statement is false, and
  ChannelExact.ForgottenExactly gives the exact steps.
- ChannelTheorems.CapacityConserved: the capacity alone is no bound in runs with direct sends, which
  push without reserving; the capacity plus their number is.
- ChannelTheorems.NoDeadlock: has the same proviso as ChannelTheorems.SenderNotForgotten.
- Oneshot.TakenAtMostOnce: has the proviso that the receiver is not polled again after it yielded
  the value; `Oneshot.PollAfterValueTakesAgain` shows that every such poll takes it again.
- Oneshot.NoLostWake: the sender reads the waker cell in one step; a torn read of a waker that the
  receiver is overwriting is not modelled.
- RunLoopTheorems.StopIsFinal: a stop message does not close the mailbox, so that others may still add
  to the backlog.
- TaskQueue.TaskRef.AddTask: which vacant slot the slab picks is a parameter; the slab crate is not
  part of this model.
- RunLoopTheorems.MailboxBounded: says nothing about tasks from streams and timers, which the size
  hint does not gate.
- RunLoopTheorems.GracefulExit: speaks of accepted messages; RunLoopTheorems.StopIsFinal says what
  becomes of those still in the mailbox.
- Resetting an interval's timer and waking the task for it; the clock is the answer `elapsed`.
- In `Request`, the synchronous part of `Handler::handle` that runs before its future is first polled.
- Supervisor and worker, address and recipient wrappers, type erasure, macros, runtimes.
