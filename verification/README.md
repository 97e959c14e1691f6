# A verified model of the seenet reactor

This project models the reactor of seenet, a small muduo-style network library, and proves
properties of the model with Dafny. `dafny verify dfyconfig.toml` checks it.

## What is modelled

- **The reactor over one loop** (`Reactor.dfy`, `ReactorInvariant.dfy`, `ReactorSafety.dfy`,
  `ReactorTheorems.dfy`, `ReactorOrder.dfy`, `ReactorLeaving.dfy`, `ReactorShutdown.dfy`,
  `ReactorCollection.dfy`, `ReactorEffects.dfy`, `ReactorFaults.dfy`, `ReactorQueue.dfy`). A server, its
  connections, the loop, the poller and a small kernel as one step system: poll, dispatch of one active
  channel, swap of the functor queue, one functor, end of the batch. Client callbacks are arbitrary finite
  lists of sends, shutdowns, forced closes, pointer copies and releases and queued functors, on any live
  connection; other threads begin send calls, push them later, and take and drop pointers between any
  two steps. Every C++ `assert`, every refused `epoll_ctl`, every use of a destroyed connection and every
  close of a descriptor that is still registered leaves a *fault* in the state, so that safety reads
  `faults == {}` and failure is observable too.
- **One connection's handlers** (`ConnectionSpec.dfy` and `ConnectionEffects.dfy` on values, `TcpConnection.dfy` as
  the object, with its real output and input buffers, its channel and its loop).
- **Poller and channels** (`PollerSpec.dfy` on values, `Poller.dfy` as objects, `Registry.dfy` for
  arbitrary sequences of calls).
- **The functor queue and its wakeups** (`Wakeup.dfy`: interleaved steps of the loop thread and any
  number of threads; `EventLoop.dfy`: the object, each of whose methods shows the run of that machine
  it is, with other threads acting between its steps; `ReactorQueue.dfy`: the reactor's queue is that
  machine's).
- **Buffer** over a real array with in-place compaction (`BufferSpec.dfy` on values, `Buffer.dfy` the
  object, `BufferRuns.dfy` sequences of calls), and **integers in network order** (`Endian.dfy`), for a
  host of either byte order.
- **The connection table and its names** (`TcpServer.dfy`, `ConnectionNames.dfy`), **the timer
  indexes** (`TimerQueue.dfy`) and **the choice of loops** (`ThreadPool.dfy`).

Objects the source updates in place are classes here. Their methods are proved against functions on
values, and the theorems over whole runs are about those functions.

## Choices and assumptions

- Lines 140 and 161 of `tcpconnection.cpp` read inverted. Each guard is a field of `Config`
  (`enableWhen`, `halfCloseWhen`); the source has `WhileWriting` in both. The theorems say what holds
  under each of the four readings.
- `tcpconnection.cpp:122` is kept as written: EPIPE is not a fault, so the message is buffered.
- `eventloop.cpp:187` writes two bytes to an eventfd, which takes eight or fails with EINVAL. The width
  is a parameter; `Wakeup.NoLostWakeupExactly` says for which widths wakeups are never lost.
- The asserts at `buffer.h:256-280` are strict; they are kept, and `Endian.ListRoundTrip` says when
  reads therefore fail. `readInt8` returns nothing in the source and is used as peek, then retrieve.
- `buffer.h:147` passes the length through an `int`; `Shrink` says for which lengths that is harmless,
  which are cut, and for which the append cannot return.
- `shutdownWrite` is `shutdown(fd, SHUT_WR)` (`util/util_socketops.cpp:169`): from then on every write
  fails with EPIPE, whatever the socket would otherwise have taken, and SIGPIPE is ignored.
- `shutdown` does not stop messages another thread has queued, or has begun to send, from being accepted.
  `ReactorShutdown.LaterAcceptanceExactly` says exactly when one may be. If the socket was shut
  for writing before, EPIPE being no fault, the message is buffered and never leaves:
  `ReactorShutdown.MessageIsLost` is a run from the start in which that happens.
- Timers keep their expiration when restarted, as `Timer::restart` does nothing.
- The kernel reports each registered descriptor at most once per poll, with requested bits, EPOLLERR or
  EPOLLHUP; `accept` returns a descriptor that is not open. The one further demand, that no report
  has HUP without IN beside PRI and is then read as end of file, is shown necessary by
  `ReactorTheorems.DispatchFaultsExactly`.
- `shutdown` and `forceClose` are taken as calls on the loop's thread. A `send` from another thread tests
  the state in one step and pushes its message, under the queue's lock, in a later one; in between its
  call is in flight and keeps the connection alive.
- Connection numbers stay below 2^31 and the server's address prints in at most 51 characters;
  `ConnectionNames.NamesDistinctExactly` shows the second limit is exact.
- The loop's own three channels (wakeup, timer, listening socket) are permanent; their descriptors are
  among the initially open ones and are not listed in the model's poller.

## Model

| member | source | states |
|---|---|---|
| ReactorTheorems.NoFaultInAnyRun | tcpconnection.cpp:48-52 | on every run no C++ assert of the poller, the connection or its destructor fails, epoll_ctl is never refused, nothing dangling is touched, no registered descriptor is closed |
| ReactorTheorems.KernelWatchesOpenConnections | tcpconnection.cpp:244-332 | the kernel watches exactly the open connections with their masks; a closed one stays in m_channels exactly while its connectDestroyed is owed; handleClose has run at most once |
| ReactorTheorems.ServerHoldsOpenConnections | tcpserver.cpp:61-98 | m_connections holds exactly the accepted, not yet closed connections, each under its own name |
| ReactorTheorems.LiveMeansReferenced | eventloop.cpp:109-125 | at a poll, a connection is live exactly if the map, a client, a send call or a queued functor refers to it |
| ReactorTheorems.NoDescriptorLeaks | tcpconnection.cpp:30-52 | open descriptors are the initial ones and those of live connections, on every run |
| ReactorTheorems.DispatchRemovesNothing | eventloop.cpp:72-85 | dispatching one channel removes no channel from the poller and destroys no registered connection; the rest of the active list stays open |
| ReactorTheorems.HistoryOnlyGrows | tcpconnection.cpp:88-190 | between any two moments of a run the state only moves forward, accepted and sent bytes only grow, numbers are not reused; with line 140 literal, once something is buffered no byte reaches the socket |
| ReactorTheorems.StreamConserved | tcpconnection.cpp:93-146 | bytes taken by the socket then buffered bytes are the accepted messages in order, for all short writes and errors and either reading of the guards |
| ReactorTheorems.WriteInterest | tcpconnection.cpp:131-144 | corrected, write interest is on iff something is buffered; literal, it is never on |
| ReactorTheorems.HalfCloses | tcpconnection.cpp:148-164 | shutdownWrite runs at most once and only after leaving Connected, what was unsent then stays unsent, and how much that is under each of the four readings of the guards |
| ReactorTheorems.TakenIsFinal | util/util_socketops.cpp:167-173 | once the socket is shut for writing, no run gets it to take another byte |
| ReactorEffects.SendActs | tcpconnection.cpp:71-86 | a send on the loop's thread: refused unless Connected, dropped whole by a write error, else logged, its first bytes taken by the socket and the rest buffered; nothing else is touched |
| ReactorEffects.DirectSendReachesSocket | tcpconnection.cpp:105-108 | with nothing buffered and no write interest the socket takes the first bytes at once |
| ReactorEffects.EchoReachesSocket | tcpconnection.cpp:266-284 | a message callback that answers has its answer in the socket within the same dispatch |
| ReactorEffects.FirstSendReachesSocket | tcpconnection.cpp:75-78 | the run from the start in which the first connection is accepted and its connection callback sends |
| ReactorEffects.QueuedSendActs | tcpconnection.cpp:79-83 | a queued send that runs does with its message what a direct one does, in the states that still accept |
| ReactorEffects.FlightActs | tcpconnection.cpp:71-86 | another thread's send on a connected connection queues exactly its message, behind what is pending |
| ReactorEffects.HalfCloseActs | tcpconnection.cpp:148-164 | shutdown leaves Connected, and shuts the socket for writing at once according to write interest and the guard |
| ReactorEffects.CloseActs | tcpconnection.cpp:166-173 | forceClose on an open connection leaves it Disconnecting with its forceCloseInLoop queued, and does nothing on any other |
| ReactorEffects.CloseEffect | tcpconnection.cpp:321-332 | handleClose closes before it calls back: whatever the callback does, the connection is left as it was but Disconnected and masked out, out of the map, its connectDestroyed last in the queue |
| ReactorEffects.ForceCloseIsCarriedOut | tcpconnection.cpp:166-190 | whenever a callback of any step calls forceClose, the connection is closed and out of the map at the end of the batch after the next swap, or any later one |
| ReactorEffects.ReleaseActs | tcpconnection.cpp:48-52 | letting go of a pointer destroys exactly the connections nothing else refers to |
| ReactorEffects.CallbacksAreRun | channel.cpp:36-69 | each step runs the callbacks its report or functor calls for, every action of them once: functors queued by clients are exactly those their scripts post |
| ReactorEffects.ReportIsServed | channel.cpp:53-68 | a readable report with data runs the message callback, then a writable one moves buffered bytes to the socket |
| ReactorEffects.OwnActionsAgree | tcpconnection.cpp:66-173 | what a connection object does for its own callback is what the same call does in the reactor |
| ReactorShutdown.SendsAreRefused | tcpconnection.cpp:71-85 | once a connection has left Connected, a send call that begins does nothing in the whole rest of the run, from whichever thread |
| ReactorShutdown.LaterAcceptanceExactly | tcpconnection.cpp:71-103 | such a connection accepts a message in some continuation iff it is open, its hang-up is not about to be dispatched, and a send is queued for it before any forced close, or in flight with no forced close queued |
| ReactorShutdown.StreamIsFinal | tcpconnection.cpp:148-164 | otherwise its log is final, and with nothing buffered so is what the socket took |
| ReactorShutdown.StuckMessage | tcpconnection.cpp:105-144 | a send that runs after its socket was shut for writing is accepted and buffered whole, nothing of it leaves, and with line 140 corrected write interest is on |
| ReactorShutdown.StuckForever | tcpconnection.cpp:286-319 | in no continuation does a byte of it leave |
| ReactorShutdown.MessageIsLost | tcpconnection.cpp:71-85 | a run from the start, both guards corrected: a message in flight at the shutdown is accepted after a half-close with nothing unsent, and the socket never takes a byte however the run goes on |
| ReactorShutdown.RunFinished | eventloop.cpp:66-125 | in every run nothing makes such a connection accept again |
| ReactorShutdown.GrowsLate | eventloop.cpp:66-125 | with the condition, the push and the loop left to itself reach the batch that accepts the message |
| ReactorLeaving.DispatchMutes | channel.cpp:36-69 | whatever a dispatch does, a connection that has left Connected gets no new send call, only those in flight are pushed, its log stays, and once closed nothing else about it is queued |
| ReactorLeaving.RunNextMutes | eventloop.cpp:119-122 | so with a functor, unless it is a send it can still accept |
| ReactorQueue.QueueIsRefined | eventloop.cpp:66-125 | every run of the reactor is matched by a run of the queue machine that reads the eventfd at every poll that finds it readable; its functors run once and in order, and with a wide enough wakeup the eventfd is readable whenever it polls with functors queued |
| ReactorQueue.StepFollows | eventloop.cpp:66-125 | each step of the reactor is such a run of the queue machine |
| ReactorTheorems.ForcedCloseTakesEffect | tcpconnection.cpp:166-190 | once forceCloseInLoop has run the connection is closed and out of the map, whatever happened since forceClose |
| ReactorCollection.ForcedCloseByEndOfBatch | tcpconnection.cpp:166-190 | in every run, each forced close pending at a swap has closed its connection by the end of that batch |
| ReactorCollection.ForcedCloseIsCollected | tcpconnection.cpp:166-190 | and by the end of the next turn the connection is collected |
| ReactorTheorems.SecondCloseFails | tcpconnection.cpp:321-332 | handleClose on a connection that is not open fails its assert |
| ReactorTheorems.DispatchFaultsExactly | channel.cpp:36-69 | one dispatch keeps every assert exactly unless the report closes the connection twice |
| ReactorFaults.DropFaultsExactly | tcpconnection.cpp:48-52 | destroying what nothing refers to leaves a fault exactly if one of those connections is not Disconnected or its descriptor still registered |
| ReactorFaults.CollectFaultsExactly | poller/epollpoller.cpp:70-88 | the lookup of a reported descriptor faults exactly if its owner is gone or m_channels does not hold it |
| ReactorFaults.UpdateFaultsExactly | poller/epollpoller.cpp:90-130 | whatever the tables hold, a change of mask faults exactly if the index disagrees with m_channels or with the kernel |
| ReactorFaults.EstablishFaultsExactly | tcpconnection.cpp:244-250 | connectEstablished faults exactly on a connection that is not Connecting |
| ReactorOrder.SenderOrder | tcpconnection.cpp:71-86 | the accepted messages of each thread are in that thread's call order, direct and queued sends together, with every state test and push interleaved |
| ReactorOrder.DirectKeepsOrder | tcpconnection.cpp:75-78 | a direct send goes before the queued ones and those in flight without overtaking its own thread |
| ReactorOrder.LandKeepsOrder | tcpconnection.cpp:79-83 | a push puts the message of a send call behind those queued, in its thread's order, however long the call was in flight |
| ReactorOrder.RunSendOrder | tcpconnection.cpp:79-83 | a queued send that runs, the first that waits, joins the log unless the connection is closed or the write, if tried, fails with ECONNRESET or any error but EAGAIN and EPIPE, and order is kept |
| ReactorOrder.StepOrder | eventloop.cpp:109-125 | every step keeps the order of accepted and waiting messages |
| ReactorCollection.FreeDescriptorIsAccepted | tcpserver.cpp:61-82 | from any poll, a descriptor that is not open can be accepted and becomes an established connection under a new name |
| ReactorCollection.ClosedIsCollected | tcpserver.cpp:84-98 | in every run, a connection closed before the functors of a turn is collected by its end: connectDestroyed has run, its channel is in neither table, and it is live iff a client holds it or a send begun before it left Connected is in flight or queued |
| ReactorCollection.DestroyedByEndOfBatch | tcpserver.cpp:84-98 | so for every connectDestroyed pending at a swap; and if the connection is destroyed its descriptor is free |
| ReactorCollection.PeerCloseIsCollected | tcpserver.cpp:84-98 | such a turn can be reached: from any poll with nothing queued, the turn in which the peer closes is a legal run that ends so |
| ReactorSafety.ActsKeep | tcpconnection.cpp:66-190 | whatever a client callback does, the invariant holds and the loop's own lists and the map are untouched |
| ReactorSafety.CloseKeeps | tcpconnection.cpp:321-332 | handleClose on an open connection keeps its assert and leaves it closed, masked out, and owed one connectDestroyed |
| ReactorSafety.CloseInReadSilencesWrite | channel.cpp:53-68 | after a read that closed the connection the write branch of the same dispatch does nothing |
| ReactorSafety.HandleEventKeeps | channel.cpp:36-69 | one dispatched event keeps the invariant and every other open connection |
| ReactorSafety.NewIsFresh | tcpserver.cpp:66-75 | number, name and descriptor of a new connection are all unused |
| ReactorSafety.AdmitOverwritesNothing | tcpserver.cpp:73-75 | entering a new connection drops no other connection's entry |
| ReactorSafety.NewConnectionKeeps | tcpserver.cpp:61-82 | newConnection with connectEstablished keeps the invariant; their asserts hold |
| ReactorSafety.DoomedIsClosed | tcpserver.cpp:90-98 | a queued connectDestroyed is about a closed connection still in m_channels and no longer in the map |
| ReactorSafety.DestroyKeeps | tcpconnection.cpp:254-264 | connectDestroyed meets every assert of removeChannel, once per connection |
| ReactorSafety.RunFunctorKeeps | eventloop.cpp:119-122 | every other functor keeps the invariant |
| ReactorSafety.ReportedIsOpen | poller/epollpoller.cpp:70-88 | whatever epoll reports is a live open connection that m_channels knows |
| ReactorSafety.FillIsExact | poller/epollpoller.cpp:70-88 | the lookup asserts hold for every set of registered descriptors, and the active list is the reported one |
| ReactorSafety.StepKeeps | eventloop.cpp:66-125 | every legal step keeps the invariant |
| ReactorSafety.RunKeeps | eventloop.cpp:66-125 | so does every legal run |
| ReactorInvariant.UnreferencedIsGone | tcpconnection.cpp:48-52 | what nothing refers to was closed and had left m_channels and the kernel |
| ReactorInvariant.DropKeeps | tcpconnection.cpp:48-52 | destroying it keeps the invariant |
| ConnectionSpec.SendAllOrNothing | tcpconnection.cpp:93-146 | sendInLoop accepts a message whole, or drops it whole, changing nothing, exactly when the connection is closed or the write, tried with nothing buffered, no write interest and the socket open for writing, fails with ECONNRESET or any error but EAGAIN and EPIPE |
| ConnectionEffects.DropsExactly | tcpconnection.cpp:105-131 | the log is unchanged iff the message is dropped on the condition of the previous row |
| ConnectionEffects.SendEffect | tcpconnection.cpp:93-146 | the bytes taken, the bytes buffered, the log and the mask after a sendInLoop that drops nothing |
| ConnectionSpec.SendKeeps | tcpconnection.cpp:93-146 | sendInLoop keeps registration, history and write interest of an open connection |
| ConnectionSpec.ShutdownKeeps | tcpconnection.cpp:148-164 | so does shutdown |
| ConnectionEffects.ShutdownEffect | tcpconnection.cpp:148-164 | shutdown leaves Connected and half-closes iff the mask and the guard say so; it does nothing in any other state |
| ConnectionEffects.GracefulShutdown | tcpconnection.cpp:148-164 | both guards corrected, shutdown and then as many productive writes as there are buffered bytes put the whole accepted stream on the wire and shut the socket with nothing unsent |
| ConnectionEffects.LiteralShutdownShutsNothing | tcpconnection.cpp:157-164 | as written, shutdown leaves Connected and never half-closes, then or in any later write |
| ConnectionSpec.ForceCloseKeeps | tcpconnection.cpp:166-173 | so does forceClose |
| ConnectionEffects.ForceCloseEffect | tcpconnection.cpp:166-173 | on an open connection, Disconnecting with forceCloseInLoop at the end of the queue; on any other nothing |
| ConnectionSpec.HandleWriteMoves | tcpconnection.cpp:286-319 | handleWrite only moves bytes from the buffer to the socket, and does nothing without write interest |
| ConnectionSpec.HandleWriteKeeps | tcpconnection.cpp:286-319 | handleWrite keeps registration, history and write interest |
| ConnectionEffects.HandleWriteEffect | tcpconnection.cpp:286-319 | the bytes moved, the mask, and the half-close of a connection that was waiting for its buffer to empty |
| ConnectionSpec.SendNotices | tcpconnection.cpp:105-138 | which notices sendInLoop queues and how many bytes the socket takes, told from its effect |
| ConnectionSpec.HandleWriteDrains | tcpconnection.cpp:286-309 | handleWrite moves what the kernel takes, nothing once the socket is shut for writing; write-complete is queued and write interest goes off exactly when the buffer empties |
| ConnectionSpec.WritesDrain | tcpconnection.cpp:286-319 | corrected, as many productive writes as there are buffered bytes put the whole accepted stream on the wire, unless the socket was shut for writing; then, or literal, no number of writes moves a byte |
| ConnectionSpec.BeginCloseKeeps | tcpconnection.cpp:321-327 | handleClose leaves the channel out of the kernel but in m_channels, history unchanged |
| ConnectionSpec.EstablishKeeps | tcpconnection.cpp:244-250 | connectEstablished registers the channel for reading |
| ConnectionEffects.BeginCloseEffect | tcpconnection.cpp:321-327 | handleClose sets Disconnected and empties the mask, and touches nothing else of the connection |
| ConnectionEffects.EstablishEffect | tcpconnection.cpp:244-250 | connectEstablished sets Connected and adds the read events |
| ConnectionEffects.DestroyEffect | tcpconnection.cpp:254-264 | connectDestroyed leaves the channel in neither table with no assert failed, and the connection not Connected |
| TcpConnectionObject.TcpConnection.SendInLoop | tcpconnection.cpp:93-146 | the object's sendInLoop, over its real buffer, channel and queue, is the value-level one |
| TcpConnectionObject.TcpConnection.WriteDirectly | tcpconnection.cpp:105-128 | its write, which fails once the socket is shut for writing, and the write-complete notice |
| TcpConnectionObject.TcpConnection.BufferBytes | tcpconnection.cpp:131-138 | the high-water notice and the buffered bytes |
| TcpConnectionObject.TcpConnection.HandleWrite | tcpconnection.cpp:286-319 | the object's handleWrite is the value-level one |
| TcpConnectionObject.TcpConnection.HandleRead | tcpconnection.cpp:266-284 | received bytes join the input buffer and the message callback runs; end of file is handleClose; an error changes nothing |
| TcpConnectionObject.TcpConnection.HandleClose | tcpconnection.cpp:321-332 | state, mask and registration after handleClose; its connection callback can do nothing with the connection |
| TcpConnectionObject.TcpConnection.Shutdown | tcpconnection.cpp:148-164 | the object's shutdown is the value-level one |
| TcpConnectionObject.TcpConnection.ForceClose | tcpconnection.cpp:166-173 | the object's forceClose is the value-level one |
| TcpConnectionObject.TcpConnection.ConnectEstablished | tcpconnection.cpp:244-252 | the object's connectEstablished with its callback is the value-level one |
| TcpConnectionObject.TcpConnection.ConnectDestroyed | tcpconnection.cpp:254-264 | the object's connectDestroyed with its callback is the value-level one |
| PollerSpec.SetEventsAgrees | poller/epollpoller.cpp:90-130 | any change of mask in any index state passes every assert, is legal for the kernel, and keeps index, m_channels and interest set in agreement |
| PollerSpec.RemoveAgrees | poller/epollpoller.cpp:132-151 | so does removal of an idle registered channel |
| PollerSpec.RemoveFaultsExactly | poller/epollpoller.cpp:132-151 | removal keeps every assert iff the mask is empty and the index is not kNew |
| PollerSpec.DisableAllUnregistersExactly | channel.h:40-40 | disableAll takes a channel out of the kernel iff it was kAdded; a second call registers it again with an empty mask |
| Registry.ApplyKeepsAgreement | channel.h:34-40 | every enable, disable, remove, creation and destruction keeps poller and kernel in agreement |
| Registry.ApplyEffect | channel.h:34-40 | the mask and index each of those calls leaves, and that it leaves other channels alone |
| Registry.AgreementOverRuns | poller/epollpoller.cpp:90-173 | so does every sequence of them |
| Registry.InterestIsAddedChannels | poller/epollpoller.cpp:90-173 | from an empty poller, the interest set is exactly the kAdded channels with their masks and m_channels exactly those not kNew, with no fault |
| PollerObjects.EPollPoller.UpdateChannel | poller/epollpoller.cpp:90-130 | the object's updateChannel is the value-level one under its asserts |
| PollerObjects.EPollPoller.RemoveChannel | poller/epollpoller.cpp:132-151 | the object's removeChannel is the value-level one under its asserts |
| PollerObjects.EPollPoller.Update | poller/epollpoller.cpp:153-173 | the epoll_ctl call is legal and its effect |
| PollerObjects.EPollPoller.HasChannel | poller.cpp:15-20 | true exactly for the channel m_channels holds under that descriptor |
| PollerObjects.EPollPoller.FillActiveChannels | poller/epollpoller.cpp:70-88 | lookup asserts hold; each channel gets the bits reported for it |
| PollerObjects.EPollPoller.Poll | poller/epollpoller.cpp:38-68 | the active list, and the event array doubling exactly when it came back full |
| PollerObjects.Channel.DisableAll | channel.h:40-40 | new mask and registration after disableAll |
| PollerObjects.Channel.EnableWriting | channel.h:37-37 | new mask and registration after enableWriting |
| PollerObjects.Channel.DisableReading | channel.h:35-35 | new mask and registration after disableReading |
| PollerObjects.Channel.Remove | channel.cpp:71-75 | index and registration after remove |
| Wakeup.ExactlyOnceInOrder | eventloop.cpp:109-125 | in every interleaving what has run is a prefix of what was pushed and the rest is batch then pending |
| Wakeup.NoLostWakeup | eventloop.cpp:165-192 | with a write of eight bytes, whenever the loop is at poll with work queued (or quit asked) the eventfd is readable or some thread is about to make it so |
| Wakeup.NarrowWriteLosesWakeup | eventloop.cpp:184-192 | a narrower write loses a wakeup: the run that shows it |
| Wakeup.NoLostWakeupExactly | eventloop.cpp:184-192 | no wakeup is ever lost iff eight bytes or more are written; the source writes two |
| Wakeup.QueuedWorkRunsNext | eventloop.cpp:66-98 | with work queued and every thread outside, poll returns and the next batch is that work |
| Wakeup.BatchIsFixed | eventloop.cpp:109-125 | until a batch ends, the functors run are the next ones of it, at most as many as it held, whatever is queued meanwhile |
| EventLoopObject.EventLoop.QueueInLoop | eventloop.cpp:165-176 | on the loop's thread: push, and a wakeup iff a batch is running |
| EventLoopObject.EventLoop.QueueFrom | eventloop.cpp:165-192 | the same from another thread, which always wakes the loop |
| EventLoopObject.EventLoop.QueueAmid | eventloop.cpp:165-176 | the same on the loop's thread with other threads acting before it and between push and wakeup |
| EventLoopObject.EventLoop.Interlude | eventloop.cpp:165-192 | any number of steps of other threads between two of the loop's, namely those the threads try at that moment and may take |
| EventLoopObject.EventLoop.DoPendingFunctors | eventloop.cpp:109-125 | whatever other threads do, every functor pending at the swap runs once in order, those queued before in particular; what is pending afterwards is exactly what was pushed since |
| EventLoopObject.EventLoop.HandleRead | eventloop.cpp:90-98 | the counter is read to zero |
| EventLoopObject.EventLoop.RunInLoop | eventloop.cpp:153-163 | on the loop's thread the functor runs at once and only what it queues itself is pushed; from another thread it is QueueFrom |
| EventLoopObject.EventLoop.QuitHere | eventloop.cpp:100-107 | on the loop's thread quit only clears the flag |
| EventLoopObject.EventLoop.QuitFrom | eventloop.cpp:100-107 | from another thread it also wakes the loop |
| EventLoopObject.EventLoop.Loop | eventloop.cpp:66-88 | every execution of loop() among any other threads, whatever each functor queues each time it runs, is a run of the machine, so executed then pending functors are all that were pushed; the loop's own steps are, turn by turn, the poll, the eventfd's handler if reported, what the active channels' handlers queue, the swap and the batch, so every functor a handler queued runs in that turn; it stops only if its flag was down at the test |
| EventLoopObject.EventLoop.Turn | eventloop.cpp:72-85 | one turn: exactly these steps in this order, and all that was pending or queued by a handler runs in it |
| EventLoopObject.EventLoop.Poll | eventloop.cpp:74-77 | poll reports the eventfd iff it is asked to and its counter is positive |
| EventLoopObject.EventLoop.TestLooping | eventloop.cpp:72-72 | the loop goes on iff its flag is up at the test |
| BufferObject.Buffer.constructor | buffer.h:25-33 | empty, with the prepend space and the initial size |
| BufferObject.Buffer.MakeSpace | buffer.h:328-347 | same contents, room for len; storage grows iff the contents, len and the prepend space exceed it, to writer + len, and otherwise the contents move to the front; sizes and indexes of each case are written out; the assert at 338 holds |
| BufferObject.Buffer.Compact | buffer.h:337-346 | the overlapping forward copy keeps the contents |
| BufferObject.Buffer.EnsureWritableBytes | buffer.h:170-178 | room for len, same contents; nothing touched if there was room, and else storage grows iff contents, len and prepend space exceed it |
| BufferObject.Buffer.Append | buffer.h:158-163 | contents followed by the data; storage grows iff they do not fit behind the prepend space |
| BufferObject.Buffer.Prepend | buffer.h:308-314 | the data followed by the contents |
| BufferObject.Buffer.Retrieve | buffer.h:86-97 | the first len bytes are gone; an emptied buffer has both indexes back at the prepend space |
| BufferObject.Buffer.RetrieveAllAsString | buffer.h:132-138 | returns and removes the first len bytes |
| BufferObject.Buffer.Unwrite | buffer.h:196-200 | the last len bytes are gone |
| BufferObject.Buffer.HasWritten | buffer.h:190-194 | what lies behind the readable bytes becomes readable |
| BufferObject.Buffer.Swap | buffer.h:36-41 | the two buffers trade storage and indexes |
| BufferObject.Buffer.Shrink | buffer.h:145-156 | new storage of the exact size; the contents survive iff shorter than 2^31, else they are cut or, the int being negative, the buffer is left as it was |
| BufferObject.Buffer.ReadFd | buffer.cpp:13-42 | contents followed by exactly the received bytes, wherever they landed; unchanged on error |
| BufferObject.Buffer.FindCRLFFrom | buffer.h:63-70 | the first CR LF from an offset on, or none |
| BufferObject.Buffer.FindCRLF | buffer.h:56-61 | the first CR LF, or none |
| BufferObject.Buffer.FindEOL | buffer.h:72-84 | the first line feed, or none |
| BufferObject.Buffer.AppendInt | buffer.h:203-224 | appends the value in network order, on either kind of host |
| BufferObject.Buffer.PrependInt | buffer.h:285-306 | prepends the value in network order |
| BufferObject.Buffer.PeekInt | buffer.h:254-283 | the value of the first bytes, one further byte being readable |
| BufferObject.Buffer.ReadInt | buffer.h:227-246 | returns and removes it |
| BufferRuns.Replay | buffer.h:36-200 | after any sequence of append, prepend, retrieve, unwrite, ensureWritableBytes, hasWritten, readFd, shrink and swap calls on two buffers, up to the first the source would stop at, readable bytes and storage are those of the plain sequences and layouts |
| BufferSpec.StorageBound | buffer.h:328-347 | over any run of calls without shrink, storage never shrinks, and exceeds what it was only up to 2P + 7, P being the largest need a makeSpace call of the run met |
| BufferSpec.StorageBoundIsReached | buffer.h:328-336 | that bound is reached |
| BufferSpec.FirstStorageBound | buffer.h:158-178 | among calls on two buffers without trades, the bound holds of each with its own calls |
| BufferSpec.GrowsExactly | buffer.h:328-347 | makeSpace grows storage iff contents, len and prepend space exceed it, and otherwise compacts |
| BufferSpec.KeptExactly | buffer.h:145-156 | how much of the contents shrink's int lets through |
| BufferSpec.NeededExactly | buffer.h:158-178 | which calls ask makeSpace for how much |
| BufferRuns.WriteAll | buffer.h:203-224 | a list of integers appended one after another |
| BufferRuns.ReadAll | buffer.h:227-246 | a list read one after another, until the assert of a peek would fail |
| BufferRuns.PassThrough | buffer.h:203-283 | any list of integers of any widths written into an empty buffer of any layout by one host is read back by any host, iff something follows the last |
| BufferRuns.PrependThenPeek | buffer.h:254-306 | an integer prepended is what is peeked, given a further readable byte |
| Endian.StoredIsNetworkOrder | util/util_endian.h:17-30 | what is stored is the network order of RFC 791, whatever the host's order |
| Endian.IntegerRoundTrip | util/util_endian.h:17-45 | a stored value loads as itself, on any two hosts |
| Endian.ListRoundTrip | buffer.h:203-283 | any list of integers of any widths reads back in order iff something follows the last |
| Endian.ByteOfNetworkOrder | util/util_endian.h:17-30 | byte i of the network order is the value divided by 256^(width - 1 - i), modulo 256: most significant first |
| Endian.TwosComplement | util/util_endian.h:17-45 | negative values are stored as two's complement |
| ConnectionNames.NamesDistinctExactly | tcpserver.cpp:66-69 | all connection names are distinct iff the address prints in 51 characters or fewer |
| ConnectionNames.DigitsRoundTrip | tcpserver.cpp:67-67 | decimal printing is injective |
| ConnectionNames.LongAddressCollides | tcpserver.cpp:66-69 | with a longer address two numbers share a name |
| ConnectionNames.NameIs | tcpserver.cpp:66-69 | a name that fits is the server's, then a dash, the address, a hash sign and the number |
| TcpServerObject.TcpServer.NewConnection | tcpserver.cpp:61-82 | a fresh established connection, its callback run, under a name not in the map, nothing else changed |
| TcpServerObject.TcpServer.RemoveConnection | tcpserver.cpp:84-98 | the entry is gone and connectDestroyed queued |
| TcpServerObject.TcpServer.CloseConnection | tcpconnection.cpp:321-332 | handleClose with its callbacks: closed, out of the map, connectDestroyed queued |
| TimerQueueObject.TimerQueue.Insert | timerqueue.cpp:147-170 | both indexes gain the timer; earliest-changed iff it is strictly before every stored one |
| TimerQueueObject.TimerQueue.CancelInLoop | timerqueue.cpp:78-100 | both indexes lose the timer if known; otherwise it is remembered while timers expire |
| TimerQueueObject.TimerQueue.Reset | timerqueue.cpp:116-145 | exactly the repeating, uncancelled expired timers are back |
| TimerQueueObject.Replay | timerqueue.cpp:78-170 | after any sequence of inserts, cancels and resets both indexes hold the timers of the plain set, and each insert reported rightly whether the earliest changed |
| ThreadPoolObject.EventLoopThreadPool.GetNextLoop | eventloopthreadpool.cpp:47-66 | the loop at the cursor, which moves on and wraps |
| ThreadPoolObject.EventLoopThreadPool.GetMany | eventloopthreadpool.cpp:47-66 | the k-th call gets loop k mod n, and each distinct loop is chosen floor(count/n) times, the first count mod n once more |
| ThreadPoolObject.EventLoopThreadPool.HashesShareLoops | eventloopthreadpool.cpp:68-78 | hashes that agree modulo the number of loops share a loop, others do not if the loops are distinct, and every loop is some hash's |
| ThreadPoolObject.RoundRobinIsFair | eventloopthreadpool.cpp:53-63 | the count of each loop among those chosen in turn |

## Left out

- TcpConnectionObject.TcpConnection.Callback: a callback's actions on the connection itself, with no other thread in between; those on other connections, and other threads, are in Reactor.dfy, on values.
- TcpServerObject.TcpServer.NewConnection: for a server whose connections share its loop; tcpserver.cpp:87 uses the connection's loop for the server's map, which is only safe there.
- EventLoopObject.EventLoop.Loop: any finite number of turns; the source goes on until it is asked to quit.
- EventLoopObject.EventLoop.QueueFrom: nobody acts between its push and its wakeup; Interlude and Wakeup.dfy have the interleavings.
- startRead and stopRead in the reactor runs, since around a close they can register a closed channel again; the poller model has arbitrary enable and disable calls.
- Functors whose captured objects queue more functors from their destructors, after the batch flag is cleared.
- Socket options, addresses, the acceptor's EMFILE handling, `~TcpServer`, thread start-up: thin wrappers or teardown.
- TimerQueue's getExpired, handleRead and timerfd arming, which are stubs, and the raw deletes of shared timers; so forceCloseWithDelay never fires.
- size_t wrap-around of lengths near 2^64, which vector would refuse first; `internalCapacity`; getAllLoops.
- The C++ memory model: steps are atomic at lock, atomic-access and system-call granularity.
