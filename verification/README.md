# BeNet verification

A Dafny model of BeNet, a multi-reactor TCP library: its event loops and their functor queues, the cross-loop life of a
connection, the connection's output path and half-close, the timer queue, the byte buffer, the channels with their
epoll poller, and the round-robin thread pool.

Each part comes in two modules, the connection in three. The `Spec` module is a state machine (or a value with
operations) whose steps are the atomic steps of the code: every load, store, compare-and-swap, locked section and system
call that another thread can see. System calls, clocks, user callbacks and the scheduling of threads are free choices,
given as the parameters of the steps, so a theorem about every run covers every interleaving and every result the kernel
may report. The `Impl` module is a class with the fields of the C++ object; its methods follow the C++ code and are
proved to take exactly the steps of the machine, so what holds in every run of the machine holds of the object. A method
of the connection returns where the code calls back, and the calls that follow are what the callback does, so one call
can come after another in every order the code allows; a connection may also act on its own, on any thread, between the
calls of the server that holds it (`Acted`). `WholeLife` takes one through all five stages in the objects.

| file | what it models |
|---|---|
| `byte_codec.dfy` | integers in network byte order (Appendix B of RFC 791), for either host order |
| `buffer.dfy` | the three-region buffer: compaction, growth, prepend, scatter read |
| `timer_queue.dfy` | the ordered timer set, the one-shot timerfd, batches whose callbacks re-enter the queue |
| `event_loop.dfy` | the functor queue, the eventfd, the phases of the loop, Stop |
| `connection.dfy` | one connection under its loop thread and any number of other threads; half-close (section 3.6 of RFC 9293) |
| `connection_runs.dfy` | what its runs guarantee about queued functors, messages from other threads and read control |
| `connection_object.dfy` | the connection object |
| `tcp_server.dfy` | all connections over all loops, composed from the full connections of `connection.dfy` |
| `tcp_server_object.dfy` | the server object with its connection objects |
| `poller.dfy` | channels, the poller's map and the kernel's epoll table |
| `thread_pool.dfy` | the choice of the next loop |

The central results:

- No timer, wakeup or quit request is ever lost; a timer nobody cancels runs in the first batch past its expiration, and
  comes back one interval later exactly if it repeats; no functor runs twice or out of order.
- Every byte of an accepted message is accounted for, in order, ShutdownWrite follows the last byte and does come, and
  the connection's notifications come once and in order, under every race of Send, Shutdown and ForceClose.
- A connection goes through its five stages in order on whichever loop it lives, and the server's map or a lifecycle
  functor owns it for as long as the poller, a list of polled channels or a running handler holds a raw pointer into
  it, unless read control comes too late.
- Whatever a poll reports, exactly the handlers of these events are served, in order, before anything else.
- The buffer is a byte sequence under any run of calls; the kernel watches for each channel exactly what was last asked
  for.

Some properties one might expect are false of the code. For each there is a failing run and the exact condition under
which the property does hold, in terms of the calls made:

- A functor queued by the loop's own thread before Start, as from a thread-init callback, is not announced
  (`EarlyFunctorIsUnannounced`). Wakeups are never lost after Start exactly when nothing was queued before it or another
  thread queued something (`NoWakeupIsLost`).
- Cancelling a timer whose insertion is still queued has no effect (`CancelCondition`, `CancelBeforeInsertIsLost`).
- The assertion at src/timer_queue.cpp:73 excludes a timer that expires exactly at the clock reading; the search on the
  line before does not (`ExpiryAssertionCondition`, `ExpiryAssertionCanFail`). The model follows the search.
- A message sent from another thread can be dropped (`ForeignSendThenShutdownIsDropped`). It is accepted exactly when
  between Send's test and its functor's turn nobody called Shutdown or ForceClose and handle_close stored no state
  (`ForeignSendCondition`).
- StartRead does not look at the state: on a closed connection it makes the assertion at src/channel.cpp:128 fail later,
  unless StopRead repairs it in time, and after ConnectionDestroyed it, or StopRead, registers the raw pointer again
  (`StartReadCondition`, `StopReadCondition`, `ReadControlCanRevive`).
- The functors StartRead and StopRead queue from another thread hold no shared pointer. The server still owns the
  connection at their turn exactly when it was in the server's map at the call; otherwise only a functor of the
  connection itself that waits behind them can own it (`ControlOwnedCondition`, `ControlCanBeUnowned`, `FunctorCanOwn`).
- ConnectionDestroyed leaves a connection that is shutting down as it is (`DestroyCondition`, `DestroyCanLeaveOpen`).
- A channel that wants no events can be in the kernel's table: that never happens over a run exactly when no call takes
  events away from a channel that is not registered (`IdleCondition`, `DisabledTwiceIsWatched`).
- Removing a channel erases by descriptor, whoever uses the descriptor (`RemoveNewCondition`, `RemoveNewCanForget`).
- The pools of a process share one counter, so taking turns can starve loops (`SharedCounterFairness`,
  `CommonDivisorIsUnfair`).

## Model

| member | source | states |
|---|---|---|
| ByteCodec.EncodeIsNetworkOrder | include/benet/buffer.h:166-181 | on either kind of host, for every integral type and value, the bytes stored are the two's complement pattern with the most significant byte first |
| ByteCodec.DecodeIsNetworkOrder | include/benet/buffer.h:57-74 | on either kind of host the value read is that of the bytes taken most significant first |
| ByteCodec.IntRoundTrip | include/benet/buffer.h:57-74 | every value of every integral type written by one host is read back unchanged by any other host |
| ByteCodec.TwosComplement | include/benet/buffer.h:57-74 | the pattern of every value differs from it by a multiple of 256^size, a value that is not negative is its own pattern, and a pattern is read as the one value in range that differs from it so |
| ByteCodec.SwapThenStore | include/benet/buffer.h:169-175 | the byte swap followed by a little-endian store is a big-endian store |
| ByteCodec.LittleEndianMirrors | include/benet/buffer.h:169-175 | the two byte orders are mirror images, for every width |
| BufferSpec.SpaceSuffices | include/benet/buffer.h:257-268 | compaction runs only when it moves the contents strictly left; either way of making room keeps the contents and leaves at least the room asked for |
| BufferSpec.AppendAppends | include/benet/buffer.h:160-164 | after Append the readable bytes are the old ones followed by the new ones, across compaction and growth |
| BufferSpec.PrependPrepends | include/benet/buffer.h:196-200 | after Prepend the readable bytes are the new ones followed by the old ones |
| BufferSpec.ReadFdAppends | include/benet/buffer.h:225-247 | for every writable size and every result readv may report, exactly the bytes read are appended in order; an error changes nothing |
| BufferSpec.AppendSize | include/benet/buffer.h:257-268 | an append never shrinks the array, and grows it to less than twice the contents plus the reserve |
| BufferSpec.Apply | include/benet/buffer.h:107-164 | every operation keeps the indices in order and acts on the readable bytes as its meaning on a plain sequence |
| BufferSpec.RunRefinesSequence | include/benet/buffer.h:107-268 | any run of calls acts on the readable bytes as the same run on a plain byte sequence |
| BufferSpec.RunSizeBound | include/benet/buffer.h:257-268 | with growth only through Append and ReadFd the array never exceeds the larger of its first size and twice the peak contents plus 8 |
| BufferSpec.ReserveStays | include/benet/buffer.h:118-121 | over any run without Prepend the reserve in front stays free, and emptying the buffer makes all the rest writable |
| BufferSpec.ReadIsAmple | include/benet/buffer.h:225-238 | whatever the buffer, one read can take 65536 bytes |
| BufferSpec.ReadReturnsWritten | include/benet/buffer.h:123-140 | a typed read at the front never comes up short and returns the very item written |
| BufferSpec.SessionStep | include/benet/buffer.h:134-181 | one write, read or reservation keeps the buffer equal to the encoding of the items not read yet |
| BufferSpec.SessionIsFifo | include/benet/buffer.h:134-181 | however typed writes, typed reads and reservations interleave, the reads return the items written, one for one and in order |
| BufferSpec.PrependIntThenPeek | include/benet/buffer.h:202-217 | a header prepended is the integer read first, and retrieving it leaves the body |
| BufferImpl.Buffer.constructor | include/benet/buffer.h:46-49 | a new buffer is empty, with the prepend reserve in front |
| BufferImpl.Buffer.CopyDown | include/benet/buffer.h:264 | the ascending copy within the array, overlapping or not, puts the old source range at the destination and touches nothing else |
| BufferImpl.Buffer.CopyIn | include/benet/buffer.h:162 | copying in replaces exactly the destination range |
| BufferImpl.Buffer.MakeSpace | include/benet/buffer.h:257-268 | the array and indices become those of the specification, in place or in a new array |
| BufferImpl.Buffer.EnsureWritable | include/benet/buffer.h:148-150 | the contents are kept and at least the room asked for is writable |
| BufferImpl.Buffer.Append | include/benet/buffer.h:160-164 | the contents gain exactly the bytes given, at the end |
| BufferImpl.Buffer.Prepend | include/benet/buffer.h:196-200 | the contents gain exactly the bytes given, at the front |
| BufferImpl.Buffer.Retrieve | include/benet/buffer.h:107-110 | the contents lose exactly their first bytes |
| BufferImpl.Buffer.RetrieveAll | include/benet/buffer.h:118-121 | the contents become empty, with the reserve in front and all the rest writable |
| BufferImpl.Buffer.RetrieveAsString | include/benet/buffer.h:123-128 | the result followed by the new contents is the old contents |
| BufferImpl.Buffer.PeekInt | include/benet/buffer.h:57-74 | the result is the signed or unsigned big-endian integer at the front, whatever the host |
| BufferImpl.Buffer.RetrieveAsInt | include/benet/buffer.h:134-140 | the same integer, and its bytes are gone |
| BufferImpl.Buffer.AppendInt | include/benet/buffer.h:166-181 | the contents gain the big-endian bytes of the integer, whatever the host |
| BufferImpl.Buffer.PrependInt | include/benet/buffer.h:202-217 | the contents gain the big-endian bytes of the integer in front |
| BufferImpl.Buffer.ReadFd | include/benet/buffer.h:225-247 | the contents gain the bytes read, in-place part and stack part joined; the count reported is that of readv |
| TimerSpec.InsertedIsUnion | src/timer_queue.cpp:138-153 | inserting keeps the pairs sorted, adds exactly the new pair, and the earliest pair is the smaller of the two candidates |
| TimerSpec.ErasedIsDifference | src/timer_queue.cpp:128-131 | erasing keeps the pairs sorted and removes exactly the given pair |
| TimerSpec.BatchIsExpired | src/timer_queue.cpp:68-76 | the batch is exactly the set of timers that expire strictly before the clock reading, in order; the others stay |
| TimerSpec.EndReinserts | src/timer_queue.cpp:85-95 | after a batch exactly its repeating timers that are not marked as cancelled come back, one interval after the batch's clock reading, and no other timer changes |
| TimerSpec.CancelErases | src/timer_queue.cpp:124-136 | after a cancellation the timer is not stored, every other one still is, and a timer of the running batch is marked |
| TimerSpec.EndWatched | src/timer_queue.cpp:97-103 | the descriptor covers the earliest timer after a batch, even when that timer expires at the invalid time point and the descriptor is not set again |
| TimerSpec.StepKeeps | src/timer_queue.cpp:63-153 | every step, callbacks' own additions and cancellations included, keeps the five-part invariant |
| TimerSpec.NoLostTimer | src/timer_queue.cpp:63-153 | between batches of any run the descriptor has fired or is armed no later than any stored timer |
| TimerSpec.BatchRunsExpired | src/timer_queue.cpp:68-95 | a whole batch, whatever its callbacks do, runs exactly the timers expired at its start, each once, in order of expiration |
| TimerSpec.CancelingIsMarked | src/timer_queue.cpp:78-135 | the marks are exactly the timers cancelled since the batch began while they were not stored |
| TimerSpec.RepeatersComeBack | src/timer_queue.cpp:80-95 | after any history and whatever the callbacks of a batch do, a timer the batch runs is stored again if and only if it repeats and no callback of the batch cancelled it, and then one interval after the clock reading |
| TimerSpec.TimerStays | src/timer_queue.cpp:63-153 | in every run a stored timer stays stored until it is cancelled or a batch begins with the clock past its expiration |
| TimerSpec.StoredAsCreated | src/timer_queue.cpp:114-122 | however long AddTimer's functor waits and whatever happens meanwhile, it stores the timer at the expiration it was created with |
| TimerSpec.RunsWhenDue | src/timer_queue.cpp:63-82 | a stored timer that nobody cancels runs in the first batch whose clock reading is past its expiration |
| TimerSpec.DescriptorIsExact | src/timer_queue.cpp:65-153 | a step of any run that sets the descriptor sets it for the earliest stored timer, exactly; it is set for a new earliest timer and after a batch; only the kernel makes it fire, and the read callback begins by reading it |
| TimerSpec.AddedTimersWait | src/timer_queue.cpp:80-95 | no timer ever runs in the batch during which it was inserted |
| TimerSpec.RepeatsAreSpaced | src/timer.cpp:16-24 | two callbacks of one timer come from batches whose clock readings differ by more than its interval, and only if it repeats |
| TimerSpec.CancelIsFinal | src/timer_queue.cpp:124-136 | after the first cancellation of an inserted timer its callback runs at most in the batch being run, and only if it belonged to it |
| TimerSpec.CancelBeforeInsertIsLost | src/timer_queue.cpp:114-136 | cancelling before the queued insertion has run does nothing: the timer is stored all the same |
| TimerSpec.CancelCondition | src/timer_queue.cpp:114-136 | a cancellation keeps the timer out in every future if and only if the timer had been inserted by then |
| TimerSpec.ExpiryAssertionCondition | src/timer_queue.cpp:71-73 | the assertion on the first timer left behind holds if and only if no stored timer expires exactly at the clock reading |
| TimerSpec.ExpiryAssertionCanFail | src/timer_queue.cpp:71-73 | a run that reaches the batch with such a timer |
| TimerSpec.DelayIsExact | src/timer_queue.cpp:29-37 | the delay is normalised, never the zero that disarms, and exact for a time to come |
| TimerImpl.CallbacksIsRun | src/timer_queue.cpp:80-82 | running the callbacks one by one with all they ask of the queue is a run of the machine |
| TimerImpl.TimerQueue.constructor | src/timer_queue.cpp:59-106 | a new queue is the initial state of the machine and satisfies the invariant |
| TimerImpl.TimerQueue.LowerBoundIndex | src/timer_queue.cpp:72 | the search finds the first pair not before the anchor |
| TimerImpl.TimerQueue.Insert | src/timer_queue.cpp:138-153 | the set gains the timer's pair, and the result says whether the earliest expiration changed |
| TimerImpl.TimerQueue.AddTimerInLoop | src/timer_queue.cpp:117-120 | the functor of AddTimer is the machine's insertion, arming the descriptor when the earliest changed |
| TimerImpl.TimerQueue.CancelInLoop | src/timer_queue.cpp:125-135 | the functor of CancelTimer is the machine's cancellation in all its branches |
| TimerImpl.TimerQueue.TakeExpired | src/timer_queue.cpp:65-79 | the first part of the read callback begins the machine's batch |
| TimerImpl.TimerQueue.RunCallbacks | src/timer_queue.cpp:80-82 | the loop over the expired timers is the machine's sequence of callbacks, re-entrant calls included |
| TimerImpl.TimerQueue.Restart | src/timer_queue.cpp:87-95 | the loop over the batch restarts and reinserts as specified |
| TimerImpl.TimerQueue.Finish | src/timer_queue.cpp:83-103 | the last part of the read callback ends the machine's batch and sets the descriptor |
| TimerImpl.TimerQueue.HandleRead | src/timer_queue.cpp:63-104 | the whole read callback is one batch of the machine |
| EventLoopSpec.StepKeepsWake | src/eventloop.cpp:70-131 | every step of every thread keeps what is pending announced |
| EventLoopSpec.NoWakeupIsLost | src/eventloop.cpp:70-131 | whatever the threads called before Start, in every interleaving after it a pending functor, or a quit request the loop has not seen, finds the eventfd written or a thread about to write it, if and only if nothing was queued before Start or some thread other than the loop's queued something |
| EventLoopSpec.AsleepMeansIdle | src/eventloop.cpp:76-78 | under the same condition a loop asleep in poll with no thread inside a call has nothing pending and was not asked to quit |
| EventLoopSpec.EarlyFunctorIsUnannounced | src/eventloop.cpp:122-131 | the run in which the loop thread queues a functor, calls Start, and the loop polls with the functor pending and nothing to wake it |
| EventLoopSpec.EarlyRun | src/eventloop.cpp:122-131 | before Start something is pending exactly if something was pushed, and announced exactly if another thread pushed |
| EventLoopSpec.StepKeepsFifo | src/eventloop.cpp:90-101 | every step keeps the push history equal to what ran, the rest of the batch and the queue |
| EventLoopSpec.StepRefinesQueue | src/eventloop.cpp:90-131 | the loop refines a queue: a push appends, an execution takes the oldest, the swap and everything else leave it alone |
| EventLoopSpec.FunctorsRunInOrder | src/eventloop.cpp:90-131 | in every run, calls before Start included, the functors run are the oldest pushed, each exactly once, each in the batch after its push |
| EventLoopSpec.QuitEndsLoop | src/eventloop.cpp:70-112 | in every run after Stop's store the request stays, and the loop begins at most the one batch it is on its way to, none from the top of its loop on |
| EventLoopImpl.EventLoop.constructor | src/eventloop.cpp:46-60 | a new loop has nothing pending, nothing announced and has run nothing |
| EventLoopImpl.EventLoop.QueueInLoop | src/eventloop.cpp:122-131 | the call is the push followed by the test and wakeup of the machine: one functor more at the end, one wakeup more unless the loop's own thread calls outside a batch |
| EventLoopImpl.EventLoop.Stop | src/eventloop.cpp:106-112 | the call is the store followed by the test and wakeup of the machine: one wakeup more if another thread calls |
| EventLoopImpl.EventLoop.SwapPendings | src/eventloop.cpp:90-96 | the batch is all that was pending, and nothing is pending after |
| EventLoopImpl.EventLoop.RunPendings | src/eventloop.cpp:90-101 | exactly what was pending runs, in order; what it queues waits, each with a wakeup |
| EventLoopImpl.EventLoop.EnterLoop | src/eventloop.cpp:70-75 | the head of Start is the machine's step, under the assertions it makes |
| EventLoopImpl.EventLoop.PollOnce | src/eventloop.cpp:76-84 | a poll that reports the eventfd leaves no wakeup behind, any other leaves them all, and nothing pending is touched |
| EventLoopImpl.EventLoop.Turn | src/eventloop.cpp:76-102 | one turn runs what was pending and what the handlers queued, and leaves one wakeup for each functor queued by the batch, beside those it was not woken for |
| ConnectionSpec.Step | src/tcp_connection.cpp:130-297 | no step of any thread moves the state backwards |
| ConnectionSpec.StateMovesForward | src/tcp_connection.cpp:130-297 | in every run the state only moves along Connecting, Connected, Disconnecting, Disconnected, although some writers store without looking |
| ConnectionSpec.DispatchMeans | src/channel.cpp:34-66 | for every set of events each handler is called exactly for its own events, at most once, in the order error, close, read, write |
| ConnectionSpec.StepKeeps | src/tcp_connection.cpp:42-297 | every step of every thread keeps the five-part invariant |
| ConnectionSpec.OutboundConservation | src/tcp_connection.cpp:69-128 | at every point of every run the accepted messages are the bytes in the kernel, the output buffer, the message being sent and what was given up because the peer was gone, in this order; nothing is given up while the connection stays open |
| ConnectionSpec.HalfCloseSafety | src/tcp_connection.cpp:229-271 | write interest is on exactly while output waits; ShutdownWrite finds the buffer drained, no send follows it, and it is issued once the Shutdown functor has run and nothing waits |
| ConnectionSpec.NotifiedInOrder | src/tcp_connection.cpp:273-297 | for every set of events and every race the notifications are a prefix of up, down, close; up has been given exactly once establishing is over, down and close exactly once handle_close has come to them |
| ConnectionRuns.NotificationsAccurate | src/tcp_connection.cpp:83-124 | a step of any run queues exactly the functor of its call, one write-complete if it is wanted and a send emptied the buffer, and one high-water with the new length if it is wanted and the length went from below the mark to the mark or above; at a write-complete all accepted bytes are in the kernel |
| ConnectionRuns.HighWaterCondition | src/tcp_connection.cpp:117-122 | in a step of any run the functors gain the high-water callback with length n, once, if and only if it is wanted, the buffered length was below the mark, and is n and at or above it now |
| ConnectionRuns.HandlersAreServed | src/channel.cpp:34-66 | in any run, until the next poll, the handlers called for are served in order and none is left out |
| ConnectionRuns.EventsAreServed | src/channel.cpp:34-66 | between a poll that reports events and the next poll or functor, under every interleaving, exactly the handlers of these events have been served, each once and in order |
| ConnectionRuns.TestsDecide | src/tcp_connection.cpp:42-156 | Send goes on, Shutdown wins and ForceClose wins exactly when they find the connection connected, ForceClose also when its second look finds it shutting down; otherwise nothing changes |
| ConnectionRuns.WireTellsKernel | src/tcp_connection.cpp:77-255 | in every run the bytes in the kernel are as many as the sends reported, and none is taken back |
| ConnectionRuns.ReadsAsTold | src/tcp_connection.cpp:168-195 | in every run an open connection asks for reading if and only if the last StartRead or StopRead, if any, was a StartRead |
| ConnectionRuns.AlarmsAlternate | src/tcp_connection.cpp:117-122 | between two high-water callbacks of a run the buffered length was below the mark |
| ConnectionRuns.DestroyCondition | src/tcp_connection.cpp:197-205 | ConnectionDestroyed leaves the connection disconnected and without interest if and only if it was connected, or disconnected and not reading |
| ConnectionRuns.DestroyCanLeaveOpen | src/tcp_connection.cpp:197-205 | a run to a connection that ConnectionDestroyed leaves shutting down and still reading |
| ConnectionRuns.ReadControlCanRevive | src/tcp_connection.cpp:168-186 | runs from the constructor: a hang-up, the close, StartRead, and ConnectionDestroyed is due with read events set; and ConnectionDestroyed followed by StartRead or StopRead, after which the poller has the channel again |
| ConnectionRuns.StartReadCondition | src/tcp_connection.cpp:168-176 | after every history, and in every future without more read control, the assertion of RemoveFromLoop holds at ConnectionDestroyed and the poller keeps no destroyed connection, if and only if StartRead found the connection open, or destroyed with reading on and out of the poller |
| ConnectionRuns.StopReadCondition | src/tcp_connection.cpp:178-186 | after every history the same is assured by StopRead if and only if the connection was not destroyed, which repairs a StartRead that came too late, or was destroyed with reading off and out of the poller |
| ConnectionRuns.EndsWellIffReleased | src/tcp_connection.cpp:168-205 | after every history all futures without more read control are such if and only if a closed connection asks for no reading now and a destroyed one is out of the poller now |
| ConnectionRuns.ForeignSendCondition | src/tcp_connection.cpp:42-75 | over any steps of any threads, from Send's test to the turn of its functor behind those ahead of it, the message is accepted if and only if no step called Shutdown or ForceClose or was the store of handle_close |
| ConnectionRuns.TaskMovesUp | src/eventloop.cpp:90-101 | in any run a queued functor of the connection moves up by one for each functor taken up |
| ConnectionRuns.ForeignSendThenShutdownIsDropped | src/tcp_connection.cpp:42-72 | the run in which Shutdown overtakes a message from another thread and the message is not accepted |
| ConnectionRuns.OnlyLifecycleSteps | src/tcp_connection.cpp:188-205 | no step but the three lifecycle ones establishes, reports the close of, or destroys a connection |
| ConnectionSpec.RegisteredWhile | src/tcp_connection.cpp:188-205 | the poller holds the channel's pointer exactly from the establishing to the destroying, and after that only if read control came too late; a destroyed connection is closed with nothing left to call |
| ConnectionImpl.Settles | src/tcp_connection.cpp:77-297 | from wherever the loop thread is in send_in_loop, handle_close, handle_write or the ForceClose functor, its way out of the code is a run of the machine, for every result of send |
| ConnectionImpl.SettledPlace | src/tcp_connection.cpp:77-297 | on that way nothing but the output, the queue, the interest and a close changes |
| ConnectionImpl.SendDelivers | src/tcp_connection.cpp:77-128 | after a message passed the test the kernel has gained what it took, the buffer the rest, in order, and the connection was closed, down notified and on_close_ due, exactly if the peer was found gone |
| ConnectionImpl.WriteSettles | src/tcp_connection.cpp:229-271 | after handle_write the bytes written have moved from the front of the buffer to the kernel; a drained buffer of a connection shutting down was followed by ShutdownWrite; only an error closes, and it does |
| ConnectionImpl.TaskSettles | src/tcp_connection.cpp:47-156 | a queued message is accepted exactly when the state is Connected as it is taken up; a queued Shutdown shuts the socket exactly when no output waits; a queued ForceClose closes exactly an open connection |
| ConnectionImpl.FollowsChains | src/tcp_connection.cpp:42-297 | the steps of several calls of a connection in a row are again one run without lifecycle steps, so the server may look away in the meantime |
| ConnectionImpl.TcpConnection.constructor | src/tcp_connection.cpp:13-30 | a new connection is the initial state of the machine, with an empty input buffer |
| ConnectionImpl.TcpConnection.ConnectionEstablished | src/tcp_connection.cpp:188-195 | the call is the machine's establishing and its notification: connected, reading, registered, up notified |
| ConnectionImpl.TcpConnection.OnClosed | src/tcp_connection.cpp:296 | on_close_ itself is the machine's report of the close |
| ConnectionImpl.TcpConnection.ConnectionDestroyed | src/tcp_connection.cpp:197-205 | in any state: a connected connection is disconnected, without interest and notified down, any other keeps its state, and either is out of the poller; in the server's protocol it ends disconnected, and without interest unless read control came too late |
| ConnectionImpl.TcpConnection.StartReadInLoop | src/tcp_connection.cpp:169-175 | the functor is the machine's step, and the connection reads afterwards, whatever has become of it since it came up |
| ConnectionImpl.TcpConnection.StopReadInLoop | src/tcp_connection.cpp:179-185 | the functor is the machine's step, and the connection does not read afterwards, whatever has become of it since it came up |
| ConnectionImpl.TcpConnection.HandleEvent | src/channel.cpp:34-66 | for every set of events a registered channel has exactly these handlers to call: error on EPOLLERR, close on a hang-up without EPOLLIN, read on EPOLLIN, EPOLLPRI or EPOLLRDHUP, write on EPOLLOUT, each once and in this order |
| ConnectionImpl.TcpConnection.HandleErrorEvent | src/tcp_connection.cpp:299-303 | only the list of handlers to call changes: the error is logged and nothing else |
| ConnectionImpl.TcpConnection.HandleClose | src/tcp_connection.cpp:273-297 | an open connection is closed, down is notified once and on_close_ is due; any other is left alone |
| ConnectionImpl.TcpConnection.BufferRest | src/tcp_connection.cpp:111-127 | the rest is appended, write interest follows, and the high-water functor with the new length is queued exactly if it is wanted and the length went from below the mark to the mark or above |
| ConnectionImpl.TcpConnection.SendOrBuffer | src/tcp_connection.cpp:77-128 | send_in_loop after its check is the machine's step, for every result of send |
| ConnectionImpl.TcpConnection.SendInLoop | src/tcp_connection.cpp:77-128 | send_in_loop after its check, with the close when the peer is gone, ends where the machine's way out of it ends |
| ConnectionImpl.TcpConnection.HandleRead | src/tcp_connection.cpp:207-227 | the input buffer gains exactly the bytes read, in order; a read of no bytes, and an error other than one to try again after, close an open connection once; anything else changes nothing |
| ConnectionImpl.TcpConnection.FinishRead | src/tcp_connection.cpp:212-226 | the same once the bytes are in the buffer, with the output and the queue untouched |
| ConnectionImpl.TcpConnection.SendBuffered | src/tcp_connection.cpp:229-262 | handle_write up to its test of the state is the machine's step |
| ConnectionImpl.TcpConnection.HandleWrite | src/tcp_connection.cpp:229-271 | the bytes written move from the buffer to the kernel; a drained buffer of a connection shutting down has been followed by ShutdownWrite; an error closes an open connection once |
| ConnectionImpl.TcpConnection.Send | src/tcp_connection.cpp:42-53 | not connected: nothing; another thread: the message is queued and nothing sent; the loop thread: accepted, part in the kernel, the rest buffered, or the connection closed |
| ConnectionImpl.TcpConnection.RunTask | src/tcp_connection.cpp:47-156 | the functor at the head means what it should: accepted exactly when connected, shut exactly when drained, closed exactly when open; the other queued handlers and the registration stay |
| ConnectionImpl.TcpConnection.RunBody | src/tcp_connection.cpp:149-154 | the body of each kind of functor ends where the machine's way out of it ends |
| ConnectionImpl.TcpConnection.Shutdown | src/tcp_connection.cpp:130-142 | only a connected connection is affected, and then by the machine's compare-and-swap and functor |
| ConnectionImpl.TcpConnection.ForceClose | src/tcp_connection.cpp:144-156 | the functor is queued exactly when the connection was open, and nothing is notified yet |
| ServerSpec.StepKeeps | src/tcp_server.cpp:68-101 | every step of every loop and thread keeps, for every connection, exactly the functors its stage calls for in flight |
| ServerSpec.StagesInOrder | src/tcp_server.cpp:68-101 | in every interleaving each connection is accepted, established, closed, erased, destroyed in this order, each at most once |
| ServerSpec.LivesWhereAccepted | src/tcp_server.cpp:68-90 | in every run a connection stays on the loop it was accepted for |
| ServerSpec.DispatchServes | src/eventloop.cpp:80-84 | in every run the channel whose turn it is gets exactly the handlers of the events reported for it, in order |
| ServerSpec.PolledAreVisited | src/eventloop.cpp:76-88 | after a poll, whatever the other loops do, a loop comes to the channels reported in order, and to all of them before it runs a functor |
| ServerSpec.TaskAssertionsHold | src/tcp_server.cpp:92-101 | a lifecycle functor finds what it asserts: a connecting connection on its own loop, exactly one map entry on the base loop, a closed and registered connection, without interest unless StartRead came too late |
| ServerSpec.CloseFindsEntry | src/tcp_server.cpp:92-101 | when remove_connection runs its functor at once the map entry is there too |
| ServerSpec.PointersAreOwned | src/tcp_connection.cpp:188-205 | unless read control came too late, while the poller, a list of polled channels or a running handler holds a raw pointer, the map or a queued lifecycle functor owns the connection |
| ServerSpec.OwnedUntilDestroyed | src/tcp_server.cpp:68-101 | the map or a lifecycle functor owns a connection exactly until it is destroyed; after that exactly its own queued functors do |
| ServerSpec.OnlyDestroyDestroys | src/tcp_server.cpp:92-101 | a step destroys a connection exactly if it runs the connection's Destroy functor |
| ServerSpec.StepQueues | src/eventloop.cpp:90-131 | every step keeps the order of every loop's functors and takes at most the first |
| ServerSpec.ControlOwnedCondition | src/tcp_connection.cpp:168-186 | after any history, and over any steps until its turn, the functor StartRead or StopRead queued from another thread finds the connection owned by the server if and only if it was in the server's map at the call, and owned at all if and only if it was, or a functor of the connection is queued then |
| ServerSpec.ControlCanBeUnowned | src/tcp_connection.cpp:168-186 | the run in which that functor finds no owner and leaves the poller with the raw pointer of a connection nothing owns |
| ServerSpec.FunctorCanOwn | src/tcp_connection.cpp:144-156 | the run in which a ForceClose that won its race before the close owns the connection at that turn, although the server does not |
| ServerSpec.UnownedIsDestroyed | src/tcp_connection.cpp:32-36 | a connection neither the map nor a lifecycle functor owns has gone through all five stages and is disconnected, as its destructor asserts |
| ServerSpec.WholeLifeHappens | src/tcp_server.cpp:68-101 | for every configuration some run takes a connection on another loop through all five stages, so the statements about runs are not empty |
| ServerSpec.ConnectionsAreSound | src/tcp_connection.cpp:42-297 | the guarantees for one connection hold for every connection of the server in every run |
| ServerImpl.TcpServer.constructor | src/tcp_server.cpp:16-27 | a new server is the initial state of the machine |
| ServerImpl.TcpServer.NewConnection | src/tcp_server.cpp:68-90 | a new connection object is made and entered in the map as its one new entry; on the base loop the object is established at once, otherwise that is queued on its loop |
| ServerImpl.TcpServer.EstablishInLoop | src/tcp_server.cpp:89 | the queued functor establishes the connection object, touches no other and is the machine's step |
| ServerImpl.TcpServer.PollReturn | src/eventloop.cpp:76-83 | the machine's poll: the channels to be handled are exactly those reported, in their order |
| ServerImpl.TcpServer.DispatchNext | src/eventloop.cpp:80-83 | the next channel polled is still registered and at rest, gets its handlers as in the machine, and the others wait |
| ServerImpl.TcpServer.AskControl | src/tcp_connection.cpp:168-186 | StartRead and StopRead from any thread queue their functor on the connection's loop |
| ServerImpl.TcpServer.ControlInLoop | src/tcp_connection.cpp:169-185 | that functor makes the connection object read or stop reading, as was asked, whatever has become of it, as in the machine |
| ServerImpl.TcpServer.Acted | src/tcp_connection.cpp:42-297 | after anything a connection object did on its own account, by whatever calls on whatever thread, the server is valid as before |
| ServerImpl.TcpServer.RemoveConnection | src/tcp_server.cpp:92-101 | for an object that has come to on_close_, whichever way, the call is the machine's close: erased at once on the base loop, queued otherwise |
| ServerImpl.TcpServer.RemoveInLoop | src/tcp_server.cpp:93-100 | the entry is there, exactly it is erased, and the destroying is queued on the connection's loop |
| ServerImpl.TcpServer.DestroyInLoop | src/tcp_server.cpp:99 | the queued functor destroys the connection object and touches no other |
| ServerImpl.RanIsStep | src/tcp_server.cpp:68-101 | what the methods are proved to do are the steps of the machine |
| ServerImpl.ActedKeeps | src/tcp_connection.cpp:42-297 | any run of a connection without its three lifecycle steps keeps the invariant of the whole server |
| ServerImpl.WholeLife | src/tcp_server.cpp:68-101 | the objects take a connection on another loop through all five stages: accepted, established, shut down by another thread, hung up, closed, erased and destroyed, with up, down and close notified once each and the map empty |
| PollerSpec.UnregisteredIsFree | src/poller.cpp:72-95 | the kernel has a channel's descriptor exactly when its index says Added, the map exactly when it is not New |
| PollerSpec.UpdateAgrees | src/poller.cpp:72-95 | asking for any mask keeps channels, map and kernel in agreement with no failed call |
| PollerSpec.RemoveAgrees | src/poller.cpp:97-108 | so does removing a channel without events |
| PollerSpec.StepAgrees | src/channel.cpp:96-136 | so does every operation of every channel, descriptors reused |
| PollerSpec.PollerMatchesKernel | src/poller.cpp:72-131 | after any run the kernel's mask is the channel's, the index and HasChannel tell the truth, and no epoll_ctl call failed |
| PollerSpec.StepMask | src/channel.cpp:96-119 | after an operation the kernel watches for the channel the old mask with the read or write bits set or cleared and all other bits as they were, nothing after DisableAllEvent, and for every other channel what it did before |
| PollerSpec.KernelWatchesAsAsked | src/channel.cpp:96-119 | after any run the kernel watches a channel for reading, or for writing, if and only if the last operation that spoke of it asked for it |
| PollerSpec.RemoveNewCondition | src/poller.cpp:97-108 | removing a channel that is new already keeps the agreement if and only if no other channel uses its descriptor |
| PollerSpec.RemoveNewCanForget | src/poller.cpp:97-108 | a run to two channels on one descriptor where removing the unused one makes the poller forget the other |
| PollerSpec.IdleCondition | src/poller.cpp:72-95 | over any run, a channel that wants no events is never in the kernel's table if and only if no call takes events away from a channel that is not registered |
| PollerSpec.DisabledTwiceIsWatched | src/poller.cpp:79-85 | the run, as of StopRead and then handle_close, that ends with a descriptor registered with an empty mask |
| PollerImpl.Channel.UpdateEvents | src/channel.cpp:133-136 | the new mask reaches map and kernel as specified, and the agreement is kept |
| PollerImpl.Channel.EnableReadEvent | src/channel.cpp:96-99 | a step of the machine: the read bits are set in the channel's and the kernel's mask, the others stay |
| PollerImpl.Channel.DisableReadEvent | src/channel.cpp:101-104 | a step of the machine: the read bits are cleared in both masks, the others stay |
| PollerImpl.Channel.EnableWriteEvent | src/channel.cpp:106-109 | a step of the machine: the write bit is set in both masks, the others stay |
| PollerImpl.Channel.DisableWriteEvent | src/channel.cpp:111-114 | a step of the machine: the write bit is cleared in both masks, the others stay |
| PollerImpl.Channel.DisableAllEvent | src/channel.cpp:116-119 | a step of the machine: both masks become empty |
| PollerImpl.Channel.RemoveFromLoop | src/channel.cpp:127-131 | a step of the machine that keeps the agreement |
| PollerImpl.EPoller.UpdateEpollOperation | src/poller.cpp:110-126 | as epoll_ctl documents: adding a registered descriptor and changing or deleting an absent one fail, are counted and change nothing; otherwise exactly the descriptor's entry changes |
| PollerImpl.EPoller.UpdateChannel | src/poller.cpp:72-95 | map, kernel and index change as specified, in all branches |
| PollerImpl.EPoller.RemoveChannel | src/poller.cpp:97-108 | map, kernel and index change as specified |
| PollerImpl.EPoller.HasChannel | src/poller.cpp:128-131 | the answer is yes exactly when the channel's index is not New |
| ThreadPoolSpec.RoundRobinIsFair | src/eventloop_threadpool.cpp:47-57 | for any number of loops, any counter value and any number of choices, no loop is chosen twice more often than another |
| ThreadPoolSpec.SharedCounterFairness | src/eventloop_threadpool.cpp:50-55 | when several pools take turns on the shared counter, a pool stays fair if and only if its size and the number of pools have no common divisor |
| ThreadPoolSpec.HitsScaled | src/eventloop_threadpool.cpp:50-55 | choices that step by an invertible stride are those of a counter stepping by one with the positions renamed |
| ThreadPoolSpec.CommonDivisorIsUnfair | src/eventloop_threadpool.cpp:50-55 | with a common divisor some loop is chosen twice while another is never chosen |
| ThreadPoolSpec.AnswersMean | src/eventloop_threadpool.cpp:47-57 | each choice is the loop at the counter modulo the number of loops, the base loop without loops |
| ThreadPoolSpec.AnswersAreHits | src/eventloop_threadpool.cpp:50-55 | a loop is handed out exactly as often as the counter comes to its position |
| ThreadPoolSpec.SharedFairly | src/eventloop_threadpool.cpp:47-57 | the loops a pool hands out while several pools take turns are never more than one apart in number, if and only if the number of its loops and that of the pools have no common divisor |
| ThreadPoolImpl.EventLoopThreadPool.InitThreadsNumber | src/eventloop_threadpool.cpp:25-28 | only the number of threads changes |
| ThreadPoolImpl.EventLoopThreadPool.Start | src/eventloop_threadpool.cpp:30-45 | one loop per thread in thread order, none for a number below one |
| ThreadPoolImpl.EventLoopThreadPool.GetNextLoop | src/eventloop_threadpool.cpp:47-57 | the loop at the counter's value modulo the number of loops, after which the shared counter moves on by one; the base loop, and no move, without threads |
| ThreadPoolImpl.PoolIsFair | src/eventloop_threadpool.cpp:47-57 | of the loops a pool object has handed out, no one was handed out twice more often than another, if the pool had the counter to itself or took turns with so many pools that the numbers have no common divisor |

## Left out

- Socket, socket_ops, Acceptor and InetAddress: thin wrappers of system calls; their results are free choices here.
- The logger and the error messages: output only.
- Destructors and server teardown: not steps of the machines; `DestroyCondition` says what ConnectionDestroyed does then.
- FindCRLF and FindEOL: direct calls of memmem and memchr.
- Delays in floating point: an interval is a given number of nanoseconds, so RunAt, RunAfter, RunEvery and ForceCloseDelay, which only convert and forward, are not members.
- Wrap-around of size_t, of the pool's counter and of the connection counter, and saturation of the eventfd: numbers are unbounded.
- The drift between the wall clock and the monotonic clock of the timerfd: the descriptor keeps the requested target.
- Appending bytes that lie in the buffer itself: the bytes given are a value, so aliasing with the array is not captured.
- A send of a non-empty buffer that reports zero bytes: handle_write would then look at a stale errno; send does not report that.
- Changes the user makes through output_buffer(): not steps of the machine.
- Shared pointers the user keeps: `Owned` counts the server's map, the lifecycle functors and the functors the connection itself queued, so `ControlOwnedCondition` speaks of a caller that lets go of its pointer.
- Send of a Buffer: it empties the buffer into a string and then is `Send`.
- ConnectionImpl.TcpConnection.ConnectionDestroyed: on a connection still connected, as at the teardown of a server, the connection callback before RemoveFromLoop does nothing here.
- The tree behind std::set and std::map: ordered sets are sorted sequences searched from the front, the server's map is keyed by numbers that stand for the connections' names.
- The reuse of a timer's address while a queued cancellation still names the old timer: addresses are not reused.
- Growth of the array handed to epoll_wait, the channel's flags for its destructor's assertions, and Tie: ownership is proved instead by `PointersAreOwned`.
- EventLoopImpl.EventLoop.Turn: one turn of Start as its own thread sees it, with no other thread in between; the interleavings are in `EventLoopSpec`.
- ConnectionImpl.TcpConnection.StartReadInLoop: the library hands a connection to the user in its first callback, so read control of a connection still connecting is not modelled.
- ConnectionImpl.TcpConnection.StopReadInLoop: likewise.
- ServerImpl.TcpServer.AskControl: likewise.
- ServerImpl.TcpServer.ControlInLoop: likewise.
- ServerImpl.TcpServer.QueueInLoop: the lifecycle functor queues of the loops are fields of the server object here, where the source has a queue in each loop.
- GetAllLoops, thread names and the thread-init callback: no property beyond what they return.
- Liveness: that a queued functor or a fired timer is handled eventually depends on the scheduler and is not stated.
