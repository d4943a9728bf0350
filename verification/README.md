# A reactor's promises, in Dafny

This project models a small TCP server library built as a reactor: event loops that poll descriptors and run functors
queued by other threads, connections with an output backlog and a half-close, timers, growable byte buffers, an HTTP
request parser and an asynchronous log. Each class of the library that changes in place is a Dafny class whose methods
are proved against a specification on values, and the promises of the library are proved about those specifications,
over all inputs, all runs or all interleavings.

The kernel is an environment under contracts: `write` takes a prefix of what it is offered and nothing once the write
side is shut down; `readv` fills its vectors in order; `poll` reports nothing on negative descriptors; `epoll_wait`
reports descriptors of its set; a poller reports input only on channels that listen for it, and never a hang-up together
with urgent data but without ordinary input (`OneCloseADispatch` tells what would happen then: the connection model
excludes that double close, since its `Readable` needs a channel that still reads); a hang-up is reported on any channel
the poller watches, also with an empty mask; an eventfd counts up to 2^64 - 2; the clock never goes back; a timerfd fires
once at its deadline. User callbacks are arbitrary sequences of the public calls.

| file | what it holds |
|---|---|
| Bytes.dfy, Decimals.dfy | searches, copying, decimal text |
| Buffer.dfy | the growable buffer as a byte queue |
| Channel.dfy | interest masks, dispatch order |
| PollerViews.dfy, PollPoller.dfy, EpollPoller.dfy | the two pollers, and their comparison over whole runs |
| EventLoop.dfy | the loop as a machine of interleaved steps, and the object |
| ConnectionModel.dfy, ConnectionHistory.dfy, HalfClose.dfy, CloseCount.dfy, TcpConnection.dfy | one connection: the model, what its runs tell, its shutdown, its closes, the object |
| ServerModel.dfy, ServerLifecycle.dfy, TcpServer.dfy | all connections of a server over its loops, and the object |
| TimerModel.dfy, TimerQueue.dfy | timers: the model with its histories, and the object |
| HttpRequest.dfy, HttpContext.dfy, HttpProperties.dfy | the request parser, chunk independence, round trips |
| LogStream.dfy, AsyncLogging.dfy | fixed buffers, integer printing, the double-buffered log |

The results about runs speak of what was asked and what the kernel answered, read off the steps of the run: `Pushed`,
`Writes`, `QuitWhileLooping` and `QueuedEarly` for the loop, and `Told` and `Queued` for a connection. That the states
remember just this is proved (`HistoriesTold`, `CounterTold`, `RunTold`, `QueueOfRun`).

Main results, with the exact conditions where a promise does not hold unconditionally:

- No wakeup is lost in any interleaving, unless the loop thread itself queued before `loop()` (`NoLostWakeup`).
- A `quit()` counts exactly when it is called after `loop()` began (`QuitExactly`), and then at most one more batch is
  run, whatever the interleaving (`QuitEndsTheLoop`).
- The bytes `write` took, followed by the backlog, are the messages of the sends that found the connection open
  (`BytesConserved`); each callback is queued exactly when it is due, and the queue is first in, first out (`QueueTold`,
  `QueueOfRun`).
- With calls in the loop thread the write side is shut down at most once, after everything was delivered
  (`HalfCloseInLoop`). A call from another thread tests the phase, sets it and queues its functor in separate steps, and
  with such calls, interrupted anywhere: bytes can be accepted after the FIN exactly when a non-empty send is queued or
  about to be and the connection is open or can be opened again by a late set (`NothingAfterFin`); there is at most one
  FIN more than calls of `shutdown()` that passed their test, and a further one can come exactly when such a call is
  still to be carried out and not stuck behind a channel nobody watches (`FurtherFin`); racing calls do send any number
  of them (`RacingShutdowns`).
- The close callback is made once, and once more for each call that set the phase after a close; with epoll, which
  watches a channel silenced twice, once more again for each (`ClosesBounded`, and `LateCallsClose` meets the bound).
  Another close can come exactly when the connection is not disconnected, or a call is between its test and its set, or
  the kernel watches the channel (`AnotherClose`).
- Every connection of a server goes through the connection model, so that all of this holds of it
  (`ConnectionsAreModels`), and no loop ever gets stuck (`NoTaskStuck`). Every connection that no late call revives after
  its close lives its life in order, with one life-cycle functor in flight at most, whatever becomes of the others
  (`LifeCycle`); a revived one may be closed and removed twice (`LateCallRemovesTwice`).
- Both pollers watch the same descriptors with the same non-empty masks (`PollersAgree`); they differ on empty masks in
  exactly the cases of `WatchedSetsDiffer`.
- Any cutting of the input gives the parser the same result (`ChunkIndependence`), except for its return value, whose
  dependence on the cut is stated in `TwoChunks`.
- Over all runs of a timer queue no timer runs early, repeating runs are spaced (`NeverEarlyAndSpaced`), a one-shot runs
  and is deleted once (`OneShotsRunAndDieOnce`), and no timer is lost or changed (`NoTimerLost`). After each batch its
  repeating timers are in the set again, an interval after a time read since, and the timerfd is armed in time.
- Every log line that can fit a buffer is kept, whole and in order.

Where the code and its apparent intention differ, the code is followed: `faultError` is never set, so a message refused
with EPIPE is still put in the backlog; `FixedBuffer::length()` is the capacity, so whole buffers go to the log file;
`PollPoller::removeChannel` leaves a stale index, so a removed channel must not come back; a header line without a colon
ends the headers; `connectEstablished` is not guarded.

## Model

| member | source | states |
|---|---|---|
| Buffers.Buffer.Append | include/Buffer.h:94-109 | appending concatenates, whether the storage grows, slides down or already has room; the indices stay ordered and the size within max(8 + initial, 2 * peak + 7) |
| Buffers.Buffer.MakeSpace | include/Buffer.h:127-142 | growing and in-place compaction both make the room asked for and keep the contents |
| Buffers.Buffer.EnsureWritableBytes | include/Buffer.h:103-110 | reserving room keeps the contents and counts towards the peak |
| Buffers.Buffer.Retrieve | include/Buffer.h:51-67 | retrieving drops a prefix, or everything when asked for too much |
| Buffers.Buffer.RetrieveAsString | include/Buffer.h:43-49 | what is returned and what remains are the old contents |
| Buffers.Buffer.FindCRLF | include/Buffer.h:76-80 | the loop finds the first CRLF of the readable bytes |
| Buffers.Buffer.ReadFd | src/net/Buffer.cc:11-46 | the scatter read appends exactly the bytes received, through the extra buffer when needed; an error changes nothing |
| Channels.Dispatch | src/net/Channel.cc:60-96 | which callbacks a dispatch makes, each once and in the order close, error, read, write |
| Channels.Channel.EnableWriting | include/Channel.h:33 | the mask gains the write interest and nothing else changes |
| Channels.Channel.DisableWriting | include/Channel.h:34 | the mask loses the write interest and nothing else changes |
| PollerViews.PollersAgree | src/net/poller/PollPoller.cc:39-87 | after any run the slots hold the abstract interest map and both pollers watch the same descriptors with the same non-empty masks |
| PollerViews.EmptyMaskWatched | src/net/poller/EpollPoller.cc:35-64 | exactly when each poller watches a descriptor with an empty mask, from the history of its updates |
| PollerViews.WatchedSetsDiffer | src/net/poller/EpollPoller.cc:35-101 | exactly when the watched sets differ: after two or more empty updates in a row, by parity |
| PollerViews.SilencedTwice | src/net/poller/EpollPoller.cc:39-51 | a run in which epoll watches a silenced descriptor and poll does not |
| PollPollers.AddSlot | src/net/poller/PollPoller.cc:41-51 | a registered channel gets the last slot; slots, indices and map stay in bijection and the view makes its step |
| PollPollers.RewriteSlot | src/net/poller/PollPoller.cc:52-63 | an update rewrites one slot, with `-fd - 1` for an empty mask, and keeps the bijection |
| PollPollers.SwapOutSlot | src/net/poller/PollPoller.cc:76-86 | swapping with the last slot removes one descriptor and keeps the bijection |
| PollPollers.DropLastSlot | src/net/poller/PollPoller.cc:71-75 | removing the last slot needs no swap |
| PollPollers.ReadyFdsExact | src/net/poller/PollPoller.cc:89-103 | the ready slots are the monitored descriptors with something to report, once each |
| PollPollers.NothingReadyAfter | src/net/poller/PollPoller.cc:91-96 | once as many slots were ready as poll reported, no later slot is: the early exit loses nothing |
| PollPollers.MarkedExact | src/net/poller/PollPoller.cc:91-101 | walking the slots up to the early exit tells each ready descriptor its events, and no other |
| PollPollers.PollPoller.ChangeInterest | include/Channel.h:31-35 | after every change of a channel's mask the poller's recorded interest is that mask, for all channels |
| PollPollers.PollPoller.UpdateChannel | src/net/poller/PollPoller.cc:39-64 | the object keeps the representation and makes the specified step |
| PollPollers.PollPoller.RemoveChannel | src/net/poller/PollPoller.cc:66-87 | the object keeps the representation, forgets the descriptor, and leaves the channel's stale index |
| PollPollers.PollPoller.FillActiveChannels | src/net/poller/PollPoller.cc:89-103 | no lookup misses; every ready channel gets its events and becomes active |
| PollPollers.PollPoller.Poll | src/net/poller/PollPoller.cc:15-37 | the active channels are exactly those reported, once each, registered and monitored |
| EpollPollers.EpollPoller.ChangeInterest | include/Channel.h:31-35 | after every change of a channel's mask the kernel's set holds that mask, and every channel that wants anything |
| EpollPollers.EpollPoller.UpdateChannel | src/net/poller/EpollPoller.cc:35-64 | no epoll_ctl fails, the mark is kAdded exactly when the kernel has the descriptor, and the kernel's set makes the specified step |
| EpollPollers.EpollPoller.RemoveChannel | src/net/poller/EpollPoller.cc:90-101 | no epoll_ctl fails, the channel is new again and the kernel has forgotten it |
| EpollPollers.EpollPoller.Update | src/net/poller/EpollPoller.cc:66-88 | a refused epoll_ctl is recorded as a failure and changes nothing |
| EpollPollers.EpollPoller.Poll | src/net/poller/EpollPoller.cc:103-143 | every pointer handed back is a channel registered now, once each; a full event list doubles |
| EventLoopMachine.StepKeepsInv | src/net/EventLoop.cc:67-165 | each atomic step of each thread keeps the loop's invariant |
| EventLoopMachine.NoLostWakeup | src/net/EventLoop.cc:111-122 | after any steps: blocked in poll with no wakeup posted or owed, functors are pending if and only if the loop thread queued some before loop() |
| EventLoopMachine.HistoriesTold | src/net/EventLoop.cc:111-122 | in every run everything pushed by any thread, in order, and nothing else, is queued |
| EventLoopMachine.CounterTold | src/net/EventLoop.cc:46-65 | in every run the eventfd holds the number of writes since it was last read, up to its limit |
| EventLoopMachine.NoLostQuit | src/net/EventLoop.cc:89-97 | a quit() made while looping is never slept through |
| EventLoopMachine.QuitExactly | src/net/EventLoop.cc:67-97 | once loop() has begun the flag is up, and the next test stops the loop, if and only if the steps contain a quit() after the start |
| EventLoopMachine.QuitEndsTheLoop | src/net/EventLoop.cc:67-97 | in every run after steps with a quit() while looping the loop swaps and runs at most one more batch |
| EventLoopMachine.FunctorsConserved | src/net/EventLoop.cc:111-165 | after any steps what all threads pushed is what was executed, the batch and the pending, in order; each runs at most once |
| EventLoopMachine.OneCallRunsTheBatch | src/net/EventLoop.cc:149-165 | one doPendingFunctors runs exactly what was pending at the swap, whoever queues meanwhile |
| EventLoopMachine.EveryIterationDelivers | src/net/EventLoop.cc:74-85 | what was queued when the loop was in poll has run when it is there again or has stopped |
| EventLoopMachine.PostedWakeupDelivers | src/net/EventLoop.cc:57-85 | in every run from a posted wakeup poll stays ready to return until it does, and the next swap takes all that was pending |
| EventLoopMachine.PostedWakeupPath | src/net/EventLoop.cc:57-65 | there is such a run, and it takes exactly what was pending |
| EventLoopMachine.EarlyQueueSleeps | src/net/EventLoop.cc:118-121 | a run that loses a functor queued by the loop thread before loop() |
| EventLoopMachine.EarlyQuitIsOverwritten | src/net/EventLoop.cc:69-70 | a run in which a quit() before loop() has no effect |
| EventLoops.EventLoop.QueueFromThread | src/net/EventLoop.cc:111-122 | the functor is always appended and the wakeup always posted: the push step and the write step |
| EventLoops.EventLoop.QueueFromLoop | src/net/EventLoop.cc:111-122 | in the loop thread the write is made only while functors are called |
| EventLoops.EventLoop.RunInLoop | src/net/EventLoop.cc:99-109 | at once in the loop thread, queued with a wakeup from another |
| EventLoops.EventLoop.HandleRead | src/net/EventLoop.cc:57-65 | the read takes the whole count |
| EventLoops.EventLoop.QuitFromThread | src/net/EventLoop.cc:89-97 | the flag is up and a wakeup posted |
| EventLoops.EventLoop.DoPendingFunctors | src/net/EventLoop.cc:149-165 | the loop runs the swapped batch; what is queued meanwhile waits, with a wakeup posted |
| ConnectionModel.StepKeepsInv | src/net/TcpConnection.cc:58-266 | every operation, and every single step of a call from another thread, keeps taken ++ backlog == accepted and the rest of the invariant |
| ConnectionHistory.BytesConserved | src/net/TcpConnection.cc:96-148 | in every run the bytes write took, then the backlog, are the messages of the sends that found the connection open, whole and in order; the channel writes exactly when there is a backlog, until a late call revives the phase |
| ConnectionHistory.OpTold | src/net/TcpConnection.cc:58-266 | what each operation accepts, gives to the kernel, shuts down, closes and revives, and the phase it leaves, from what it finds and what write answers |
| ConnectionHistory.RunTold | src/net/TcpConnection.cc:58-266 | in every run the connection's histories are the sums of what its operations did |
| ConnectionHistory.QueueTold | src/net/TcpConnection.cc:111-147 | each operation queues its call, the high-water callback exactly when the backlog crosses the mark upwards, and the write-complete callback exactly when write took all there was |
| ConnectionHistory.QueueOfRun | src/net/TcpConnection.cc:96-256 | in every run the queue is what was queued without as many of the oldest as were run |
| ConnectionHistory.CallsTold | src/net/TcpConnection.cc:74-89 | a call of another thread that passes its test is in flight until it is queued |
| ConnectionModel.WatchedAsPolled | src/net/poller/EpollPoller.cc:35-64 | whether the kernel watches the connection's channel after an update is what the pollers' specifications say |
| ConnectionModel.OneCloseADispatch | src/net/Channel.cc:62-86 | a dispatch closes at most once unless a hang-up comes with urgent data, no input and an end of file |
| HalfClose.FinOnlyWhenDrained | src/net/TcpConnection.cc:159-165 | the write side is shut down only when all accepted bytes are delivered or the connection was disconnected before |
| HalfClose.HalfCloseInLoop | src/net/TcpConnection.cc:150-165 | with loop-thread calls: at most one FIN in a run, nothing accepted after it, and after a shutdown() that found the connection established it is out exactly when the backlog is empty |
| HalfClose.ShutdownTakesEffect | src/net/TcpConnection.cc:150-165 | shutdown() leaves the established phase, and the FIN is out at once if and only if nothing is waiting |
| HalfClose.ForceCloseTakesEffect | src/net/TcpConnection.cc:167-174 | forceClose() from either open phase leaves it, queues the close, and no later send is taken |
| HalfClose.NothingAfterFin | src/net/TcpConnection.cc:74-89 | with calls from any thread, interrupted between their steps: no byte is accepted after a FIN if and only if no non-empty send is queued or about to be, or the connection is disconnected and no late call can set its phase back |
| HalfClose.FurtherFin | src/net/TcpConnection.cc:150-165 | with calls from any thread, interrupted between their steps: at most one FIN more than calls of shutdown() that passed their test; after the first a further one can come if and only if such a call is still to be carried out and not every one is stuck: queued, with no forced close ahead, on a channel that writes and is not watched |
| HalfClose.RacingShutdowns | src/net/TcpConnection.cc:150-157 | runs in which n racing calls of shutdown() send n FINs, for every n |
| CloseCount.ClosesBounded | src/net/TcpConnection.cc:258-266 | in every run: one close, one more for each late call, with epoll two more for each, and one for a removal from the poller before the close |
| CloseCount.AnotherClose | src/net/TcpConnection.cc:167-182 | another close can come if and only if the connection is not disconnected, or a call of another thread is between its test and its set, or the kernel watches the channel |
| CloseCount.LateCallsClose | src/net/TcpConnection.cc:167-182 | runs in which n late calls make 1 + 2n closes with epoll, and 1 + n with poll, for every n |
| CloseCount.DroppedClosesTwice | src/net/TcpConnection.cc:193-202 | a run in which a removal from epoll before the forced close makes a second close |
| ConnectionModel.CrossCallRuns | src/net/TcpConnection.cc:150-174 | a call that nothing interrupts is a run of its steps |
| HalfClose.SendTestedBeforeShutdown | src/net/TcpConnection.cc:74-89 | a run in which a message that tested the phase before shutdown() is accepted after the FIN and never delivered |
| HalfClose.ShutdownWhileDraining | src/net/TcpConnection.cc:240-243 | a run with two FINs |
| TcpConnections.TcpConnection.SendInLoop | src/net/TcpConnection.cc:96-148 | the direct write and the backlog make the model's step |
| TcpConnections.TcpConnection.AppendToBacklog | src/net/TcpConnection.cc:135-147 | the rest goes behind the backlog, the channel writes, the high-water callback is queued on crossing only |
| TcpConnections.TcpConnection.Send | src/net/TcpConnection.cc:58-66 | a message is taken only while connected |
| TcpConnections.TcpConnection.SendBuffer | src/net/TcpConnection.cc:74-82 | the buffer is sent and emptied |
| TcpConnections.TcpConnection.SendBufferFromThread | src/net/TcpConnection.cc:83-87 | from another thread the bytes are queued by value and the buffer is emptied |
| TcpConnections.TcpConnection.Shutdown | src/net/TcpConnection.cc:150-165 | in the loop thread: the phase changes and the FIN goes out unless bytes are waiting |
| TcpConnections.TcpConnection.ShutdownFromThread | src/net/TcpConnection.cc:150-157 | from another thread: the phase changes and the rest is queued |
| TcpConnections.TcpConnection.ForceClose | src/net/TcpConnection.cc:167-174 | in the loop thread the forced close is queued, from either open phase |
| TcpConnections.TcpConnection.ForceCloseFromThread | src/net/TcpConnection.cc:167-174 | from another thread: the same, in the steps of the model |
| TcpConnections.TcpConnection.SetDisconnecting | src/net/TcpConnection.cc:171 | the phase is set whatever it has become since the test |
| TcpConnections.TcpConnection.ForceCloseInLoop | src/net/TcpConnection.cc:176-182 | it closes unless closed already |
| TcpConnections.TcpConnection.ConnectEstablished | src/net/TcpConnection.cc:184-191 | connected and reading, whatever the state before |
| TcpConnections.TcpConnection.ConnectDestroyed | src/net/TcpConnection.cc:193-202 | a connection still established is disconnected and silenced; whatever the phase, the channel is watched no more |
| TcpConnections.TcpConnection.HandleRead | src/net/TcpConnection.cc:204-222 | input is appended; the end of file closes, in any state; an error does neither |
| TcpConnections.TcpConnection.HandleWrite | src/net/TcpConnection.cc:224-256 | the backlog gives up what write took; when drained, writing stops and a waiting shutdown is done |
| TcpConnections.TcpConnection.HandleClose | src/net/TcpConnection.cc:258-266 | disconnected and silent, and the server is told |
| ServerModel.NameReads | src/net/TcpServer.cc:60-63 | a name is the server's, '-', its address and port, '#' and the id, which reads back |
| ServerModel.NamesDistinct | src/net/TcpServer.cc:60-63 | distinct ids print distinct names, and the 64-byte buffer is large enough |
| ServerLifecycle.StepKeepsInv | src/net/TcpServer.cc:57-98 | every step of every loop, and every operation on a connection, keeps the queues, the map and each connection in step |
| ServerLifecycle.LifeCycle | src/net/TcpServer.cc:57-98 | for every connection never revived by a late call: created, established, closed, removed, destroyed, in order; one functor in flight at most; the map or a functor owns a registered connection |
| ServerLifecycle.ConnectionsAreModels | src/net/TcpServer.cc:57-98 | every connection of a server is one the connection model can reach; its trail has one close for each close callback |
| ServerLifecycle.NoTaskStuck | src/net/TcpServer.cc:82-97 | the functor at the head of a queue always finds its connection in a state it can run on |
| ServerLifecycle.QueuesAreFifo | src/net/TcpServer.cc:82-98 | each step adds functors behind those waiting, and only a loop's run takes out, its oldest |
| ServerLifecycle.LateCallRemovesTwice | src/net/TcpServer.cc:85-98 | a run in which a late forceClose() makes a connection be closed and removed twice |
| ServerLifecycle.LifeOnlyGrows | src/net/TcpConnection.cc:184-202 | along any run the stages a connection went through are only added to, and its loop stays |
| ServerLifecycle.NamesNeverCollide | src/net/TcpServer.cc:60-75 | a new connection never takes another's name |
| ServerLifecycle.QuiescentState | src/net/TcpServer.cc:85-98 | with empty queues each connection never revived is established, mapped and watched, or destroyed and gone |
| TcpServers.TcpServer.GetNextLoop | src/net/EventLoopThreadPoll.cc:37-50 | round robin over the pool, or the base loop |
| TcpServers.TcpServer.NewConnection | src/net/TcpServer.cc:57-83 | the objects, the map of references and the queues make the model's accept step |
| TcpServers.TcpServer.AddConnection | src/net/TcpServer.cc:59-75 | a new object enters the map under its name; no other object or entry changes |
| TcpServers.TcpServer.Act | src/net/TcpConnection.cc:150-266 | an event, a call or a step of a call on a connection object: its functor joins its loop's queue and its close callback crosses to the base loop |
| TcpServers.TcpServer.Become | src/net/TcpServer.cc:85-88 | what an operation of a connection means for the queues, the map and the base loop |
| TcpServers.TcpServer.RemoveConnectionInLoop | src/net/TcpServer.cc:90-98 | erased from the map, and connectDestroyed is queued in the connection's loop |
| TcpServers.TcpServer.RunTask | src/net/TcpServer.cc:82-97 | a loop runs its oldest functor on the connection object the functor holds |
| TimerModel.InsertSorted | src/timer/TimeQueue.cc:142-154 | insertion keeps the set ordered |
| TimerModel.TakeExpiredExact | src/timer/TimeQueue.cc:131-140 | exactly the entries due by now are taken, earliest first |
| TimerModel.AddKeepsInv | src/timer/TimeQueue.cc:44-58 | adding a timer, also during a batch, keeps the invariant |
| TimerModel.TakeKeepsInv | src/timer/TimeQueue.cc:131-140 | taking the expired batch keeps every timer owned once, by the set or the batch |
| TimerModel.RunKeepsInv | src/timer/TimeQueue.cc:121-126 | running one timer keeps the invariant: it is not early and not too soon after its last run |
| TimerModel.FinishKeepsInv | src/timer/TimeQueue.cc:90-106 | restarting or deleting one timer keeps the invariant, keys included |
| TimerModel.StepKeepsInv | src/timer/TimeQueue.cc:90-154 | every step of a queue, in a batch or between two, keeps the invariant |
| TimerModel.NeverEarlyAndSpaced | src/timer/TimeQueue.cc:114-129 | in every run of the queue no timer ever ran before its expiration, nor before it was asked for, and two runs of a timer are at least its interval apart |
| TimerModel.NoTimerLost | src/timer/TimeQueue.cc:90-140 | in every run a timer ever added is alive, as it was asked for, under one address, in the set or the batch, if and only if it is not deleted; a repeating timer is alive for ever |
| TimerModel.OneShotsRunAndDieOnce | src/timer/TimeQueue.cc:94-106 | in every run, between batches, a timer is deleted exactly when it is a one-shot that has run; it ran once and is deleted once; all timers alive are in the set |
| TimerQueues.DelayExact | src/timer/TimeQueue.cc:77-83 | the seconds and nanoseconds are exact, normalised and never zero |
| TimerQueues.TimerQueue.ResetTimerfd | src/timer/TimeQueue.cc:71-88 | the deadline is the expiration, or 100us from now if that is later |
| TimerQueues.TimerQueue.InsertEntry | src/timer/TimeQueue.cc:142-154 | the entry goes to its place, and it is reported whether it is the earliest |
| TimerQueues.TimerQueue.AddTimerInLoop | src/timer/TimeQueue.cc:50-58 | the timer is added; the timerfd is armed for it if it is the earliest, also inside a batch, and left alone otherwise; so it stays armed in time |
| TimerQueues.TimerQueue.GetExpired | src/timer/TimeQueue.cc:131-140 | the loop splits off what the model takes |
| TimerQueues.TimerQueue.RunExpired | src/timer/TimeQueue.cc:121-126 | the batch is run once each and in order; all the callbacks ask for is added, in order |
| TimerQueues.FinishedNext | src/timer/TimeQueue.cc:94-106 | finishing one more timer of the batch restarts or deletes that one and touches no other |
| TimerQueues.TimerQueue.Reset | src/timer/TimeQueue.cc:90-112 | each repeating timer is in the set again, due an interval after a time read meanwhile; each one-shot is gone and deleted, in order; no other timer changes; the timerfd is armed for the earliest left |
| TimerQueues.TimerQueue.FinishOne | src/timer/Timer.cc:3-13 | the whole new state: a repeating timer is due at the current time plus its interval and inserted again, a one-shot is deleted |
| TimerQueues.TimerQueue.HandleRead | src/timer/TimeQueue.cc:114-129 | exactly the timers due at the time read are run, once each and in order; afterwards the repeating ones are in the set again, the one-shots deleted, all others as they were, what the callbacks asked for added, and the timerfd armed in time |
| HttpRequests.MethodTokens | include/HttpRequest.h:24-53 | each of the five tokens names its method, and any other text none |
| HttpRequests.MethodRoundTrip | include/HttpRequest.h:24-80 | a supported method's text is read back to it; the text of no method is refused |
| HttpRequests.TrimPadded | include/HttpRequest.h:95-103 | white space around a trimmed value disappears |
| HttpRequests.TrimExactly | include/HttpRequest.h:95-103 | any of the six white-space characters around a value that neither starts nor ends with one disappears, and nothing else |
| HttpRequests.TrimIsTrimmed | include/HttpRequest.h:95-103 | trimming removes white space at the ends and nothing else |
| HttpRequests.HttpRequest.AddHeader | include/HttpRequest.h:91-105 | the trimming loops record the field with its trimmed value |
| HttpProperties.AddedHeaderIsFound | include/HttpRequest.h:91-115 | after a header line is added its field reads as the trimmed value, and every other field as before |
| HttpContexts.HttpContext.ProcessRequestLine | src/http/HttpContext.cc:4-47 | the method computes the meaning of a request line, with the traces of a refused one |
| HttpContexts.HttpContext.ParseRequest | src/http/HttpContext.cc:50-107 | the loop terminates and computes `Parse` on the buffer's bytes |
| HttpContexts.HttpContext.Reset | include/HttpContext.h:28-33 | the context is as new |
| HttpProperties.RefusedLineIdempotent | src/http/HttpContext.cc:61-71 | reading a refused line again changes nothing more |
| HttpProperties.HeadersEnd | src/http/HttpContext.cc:78-94 | a line without a colon ends the headers, blank or not; any other is a header and the next line is read |
| HttpProperties.RefusedMethodTraces | src/http/HttpContext.cc:4-14 | a line without a blank changes nothing; an unknown token resets the method |
| HttpProperties.RefusedVersionTraces | src/http/HttpContext.cc:14-47 | a line refused for its version leaves the method, the path and the query |
| HttpProperties.TwoChunks | src/http/HttpContext.cc:50-107 | parsing in two calls gives the state, request and unread bytes of one; exactly when the return values agree |
| HttpProperties.CutBehindRequestLine | src/http/HttpContext.cc:50-107 | a cut at which the return values differ |
| HttpProperties.CompleteStaysComplete | src/http/HttpContext.cc:88-93 | bytes after a complete request stay unread |
| HttpProperties.ChunkIndependence | src/http/HttpContext.cc:50-107 | any cutting into any number of chunks gives the result of one call |
| HttpProperties.RequestLineRoundTrip | src/http/HttpContext.cc:4-47 | a rendered request line is read back |
| HttpProperties.AcceptedLineIsRendering | src/http/HttpContext.cc:4-47 | an accepted line is the rendering of what was read; path ++ query is the request-target |
| HttpProperties.HeaderRoundTrip | src/http/HttpContext.cc:83-87 | a rendered header with any optional white space is read back |
| HttpProperties.RequestRoundTrip | src/http/HttpContext.cc:50-107 | a rendered request is read back exactly and following bytes stay unread |
| HttpProperties.DistinctHeaders | include/HttpRequest.h:104 | with distinct names the map holds exactly the rendered fields |
| Decimals.TextReadsBack | src/log/LogStream.cc:17-25 | the text of any integer reads back; it is decimal notation without a leading zero, behind a sign exactly for negative numbers |
| Decimals.TextOf64Bits | src/log/LogStream.cc:10 | every 64-bit value takes at most twenty characters |
| LogStreams.TableDigit | src/log/LogStream.cc:4-20 | the table gives the digit for remainders of either sign under truncating division |
| LogStreams.NextDigit | src/log/LogStream.cc:17-21 | one turn of the digit loop emits the lowest digit and leaves the rest |
| LogStreams.LogStream.FormatInteger | src/log/LogStream.cc:7-31 | any value of any 64-bit type is printed as its decimal text inside the 48-byte guard; without the room nothing is printed |
| LogStreams.ReverseRange | src/log/LogStream.cc:28 | the in-place reversal |
| LogStreams.FixedBuffer.Append | include/LogStream.h:17-24 | all of a text or nothing is appended |
| LogStreams.FixedBuffer.Add | include/LogStream.h:31 | characters already written become used |
| AsyncLoggings.AsyncLogging.Append | src/log/AsyncLogging.cc:23-44 | a line shorter than a buffer is kept whole behind all earlier ones; longer ones are dropped; a buffer is queued exactly when the line does not fit the current one; the current buffer is never missing |
| AsyncLoggings.AsyncLogging.NextCurrent | src/log/AsyncLogging.cc:30-40 | the full buffer is queued and an empty one takes its place |
| AsyncLoggings.AsyncLogging.WriterTurn | src/log/AsyncLogging.cc:56-90 | after a turn everything appended is in the file, in order, behind what was there before; both spares are refilled |
| AsyncLoggings.AsyncLogging.TakeQueue | src/log/AsyncLogging.cc:61-67 | a missing next buffer implies a second buffer to recycle |
| AsyncLoggings.AsyncLogging.WriteOut | src/log/AsyncLogging.cc:69-72 | whole buffers are appended to the file, each with its lines as its used prefix |
| AsyncLoggings.AsyncLogging.RefillSpares | src/log/AsyncLogging.cc:73-89 | every refill finds a buffer, and recycled buffers start empty |

## Left out

- AsyncLoggings.AsyncLogging: the buffers behind its unique pointers are values, which such pointers never share; the aliasing of storage is not modelled, and `stop()` does not drain the tail, so nothing is claimed about it.
- Timers live in a map from addresses to timers that stands for the heap; `delete` removes an entry.
- ServerModel: reference counts are represented by the map and the queued functors.
- Loop bodies that never end: the `while` loops of the event loop and of the log writer appear as the machine's steps and as single turns.
- Channels.Channel.EnableWriting: does not model the call into the poller, which `ChangeInterest` of each poller makes after the change of the mask.
- Channels.Channel.DisableWriting: does not model the call into the poller either.
- With poll(2), what an update of a channel does after its removal, when it writes through a stale index, is not modelled: the connection model takes such a channel as not watched.
- The connection's phase is read and written without a lock; each single read and each single write is atomic here.
- The cross-thread `send(const std::string&)`, which binds a raw pointer, and `send(const void*, int)`, which ignores its length; the by-value path is modelled.
- `Channel::tie` and reference counting as such; destructors; the shutdown races of TcpServer and TcpClient.
- `Buffer::swap`, `unwrite`, `findEOL` and the second `findCRLF`: easy members.
- Entering `parseRequest` after the request is complete, where the original loops for ever.
- `HttpServer`, which makes a new context for every message, `HttpResponse`, `Connector`, `TcpClient`, `ThreadPool`, `LogFile`, `Acceptor` and the socket wrappers.
- Widths: byte counts, times and timer arithmetic are unbounded; the eventfd counter, connection ids and printed integers have their real ranges.
- Timer intervals are whole microseconds instead of doubles.
- Errors of `poll` and `epoll_wait` themselves, which leave the active list empty.
- Floating-point and pointer printing.
