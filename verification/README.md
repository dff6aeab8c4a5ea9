# A verified model of the muduo-p reactor

muduo-p is a network library with one event loop per thread. A server accepts connections on a base
loop and hands each to an io loop; loops talk to each other through functor queues and eventfds.
This project models the pieces that decide whether that is right, and proves what they promise for
every input, every run and every interleaving of the threads.

The project falls into four parts. In each, functions on values say what one step does, lemmas prove
what all runs of those steps keep, and classes with the source's own fields and methods are proved
against the functions.

- **Bytes.** `Buffer.dfy` is the byte queue over an array with two indices, `BufferLayout.dfy` its
  space. `Connection.dfy` and `ConnectionRuns.dfy` are one connection on its loop thread: output
  stream, half-close, callbacks, state; `ConnectionEffects.dfy` says what each event does, and that a backlog
  drains and a shutdown is remembered. `OffLoopCalls.dfy` adds send and shutdown called from other
  threads, `OffLoopOrder.dfy` what they keep of the order of a half-close, `OffLoopRuns.dfy` runs that show
  each case. `TcpConnection.dfy` is the object, `Echo.dfy` the echo server on one connection.
- **Registration.** `Registration.dfy` says when the channel, the poller's table and the kernel's
  interest set agree; `EPollPoller.dfy` holds the objects `Channel` and `EPollPoller`.
- **The loop.** `EventLoop.dfy` is the protocol of one loop with any number of other threads, split at
  every line another thread can observe. `EventLoopObject.dfy` is the object; its methods let other
  threads run between any two lines and make only protocol steps.
- **The server.** `TcpServer.dfy` is the life of connections across all loops, with no sub-loops or any
  number of them. `TcpServerInvariant.dfy`, `TcpServerSteps.dfy` and `TcpServerRuns.dfy` prove its
  invariant and what follows, `TcpServerProgress.dfy` that every schedule finishes what was begun,
  `TcpServerLife.dfy` shows a whole life of a connection, `TcpServerRace.dfy` what one race breaks. `TcpServerLoops.dfy` shows that each loop of the server is a
  loop of `EventLoop.dfy`. `ServerConnections.dfy` shows that the server runs connections as
  `Connection.dfy` describes them, `ServerCallbacks.dfy` that their callbacks wait in order, and
  `EchoServer.dfy` that every connection of an echo server echoes. `ConnNames.dfy` and `ThreadPool.dfy`
  are the names and the round robin, `TcpServerObject.dfy` the server's own fields.

## What is taken for granted

- write(2) returns an error or a count within its argument. EPIPE and ECONNRESET are sticky, and a
  write after SHUT_WR fails with EPIPE (half-close, section 3.6 of RFC 9293).
- readv(2) fills its first vector before its second.
- Reading an eventfd resets it; writing it fails only at its maximum, where it is positive.
- accept(2) returns a descriptor that is not open; a descriptor is closed when the last pointer to its
  connection goes.
- epoll reports a registered descriptor at most once per wait, with flags asked for or EPOLLERR and
  EPOLLHUP, and does not block on a positive eventfd.
- No wait reports EPOLLPRI and EPOLLHUP without EPOLLIN for a connection that reads. The server model has
  such reports, its invariant is for runs without them, and `TcpServerRuns.ReportClosesOnce` and
  `ConnectionRuns.DispatchClosesOnce` show that they are exactly what lets a connection close twice.
- No connection is closed while a shutdown() on another thread is between its check of the state and its
  set. The server model has that step too, its invariant is for runs without it, and
  `TcpServerRace.LateSetClosesTwice` shows that it lets a connection be closed twice.
- A connection outlives the sendInLoop and shutdownInLoop that other threads have queued for it, which
  bind a raw pointer.

## Where the code does not do what one might expect

Each of these is proved, with the exact condition where a promise fails.

- What the loop thread queues before `loop()` wakes it only if another thread queued or woke as well
  (`EventLoops.NoLostWakeupFromCreation`; `EventLoops.EarlyPushIsNotNoticed` is a run), and a quit requested
  before `loop()` is overwritten (`EventLoops.QuitCountsFromEntry`; `EventLoops.EarlyQuitIsLost` is a run).
- An urgent hang-up closes twice (`ConnectionRuns.DispatchClosesOnce`, `TcpServerRuns.ReportClosesOnce`).
- `send()` from another thread only checks the state there. When it runs, its bytes are given up exactly if
  the connection has closed by then, or if it tries a socket that is half-closed, broken or being reset
  (`OffLoopCalls.SendIsGivenUp`, over runs `OffLoopCalls.WhatIsGivenUp`; `OffLoopRuns.SendAfterClose` is a run).
- `shutdown()` from another thread sets the state at once and queues `shutdownInLoop`. SHUT_WR is issued once
  by every step that issues it: a `shutdownInLoop` or `shutdown()` with writing off, and a drain while
  closing. So it is issued twice exactly if there are two such steps (`OffLoopCalls.HalfClosesAreIssued`).
  If no shutdown() is raced between its check and its set, that means exactly a drain before the queued
  `shutdownInLoop`, and a queued send is lost to such a drain (`OffLoopOrder.HalfCloseRepeats`,
  `OffLoopOrder.LateShutdownRepeats`, `OffLoopOrder.LateSendIsDropped`; `OffLoopRuns.OvertakenSend` is a run).
  The drain may be that of the late send itself (`OffLoopRuns.OwnDrain`). With no drain in between all goes as
  on the loop thread (`OffLoopRuns.PlainShutdown`).
- The check and the set of `shutdown()` are not one step. Another shutdown() in between can issue SHUT_WR twice
  without a drain: two threads may do so (`OffLoopRuns.RivalShutdowns`), one thread and the loop may
  (`OffLoopRuns.RivalOnLoop`), and two threads need not (`OffLoopRuns.RivalsBeforeDrain`). A close in between is
  undone by the set, the only way the state goes backward (`OffLoopCalls.StateGoesBack`). Then a queued
  send that leaves bytes queued makes the closed channel ask for events again, and no other step does
  (`OffLoopCalls.WhatReopens`); after it handleClose can run a second time (`OffLoopRuns.ClosedTwice`,
  `TcpServerRace.LateSetClosesTwice`), and until then reports and close are as on the loop thread
  (`OffLoopCalls.ReportsUntilReopened`). A send dropped after the close may be followed by one that goes out
  (`OffLoopRuns.GapInStream`). What is taken on still arrives in order (`OffLoopCalls.StreamWithOtherThreads`).
- The comment at src/TcpConnection.cpp:77 says that sending stops after a shutdown; the code there stops
  only after a close, and the model follows the code.
- `connectDestroyed` reports no DOWN for a half-closed connection (`ConnectionRuns.DestroyReportsDown`). A live
  server destroys only what handleClose has closed (`TcpServerSteps.DestroyInv`), so that case comes from
  the destructor of TcpServer, which is left out. With the race above connectDestroyed can find a
  connection half-closed whose DOWN has been reported (`OffLoopRuns.ShutdownAfterClose`).
- A channel whose mask is emptied twice is back in the kernel set
  (`Registration.RegisteredAfterSetEvents`).
- The comment at src/TcpConnection.cpp:211 speaks of deleting the connection; the code half-closes.
  The comment at src/Channel.cpp:34-35 calls `tie_` a shared pointer; it is a weak one.

## Model

| member | source | states |
|---|---|---|
| Buffers.Buffer.constructor | include/Buffer.h:20-25 | An empty queue over 8 + initial bytes, both indices at 8 |
| Buffers.Buffer.Retrieve | include/Buffer.h:38-48 | Drops the first `len` bytes of the queue, or all of them, and moves the indices as `Retrieved` says |
| Buffers.Buffer.RetrieveAll | include/Buffer.h:51-55 | The queue is empty and both indices are back at 8; the storage stays |
| Buffers.Buffer.RetrieveAsString | include/Buffer.h:63-68 | The result is the first `len` bytes and the queue is what follows them |
| Buffers.Buffer.RetrieveAllAsString | include/Buffer.h:59-62 | The result is the whole queue, which is empty afterwards |
| Buffers.Buffer.MakeSpace | include/Buffer.h:117-133 | Keeps the queue, frees room for `len` bytes, and grows or compacts exactly as the layout demands; the compaction meets std::copy's condition because the reader index is past 8 |
| Buffers.Buffer.EnsureWritableBytes | include/Buffer.h:71-77 | Room for `len` bytes, queue unchanged, storage touched only if the room was missing |
| Buffers.Buffer.Append | include/Buffer.h:80-85 | The queue is followed by the new bytes; size and indices evolve as `Appended` |
| Buffers.Buffer.Resize | include/Buffer.h:121 | A larger array with the old bytes in front; the queue is unchanged |
| Buffers.Buffer.ReadFd | src/Buffer.cpp:10-45 | The queue is followed by exactly the bytes received, in all three cases, and on an error nothing changes; up to 65536 bytes that have arrived are read whatever room is left, up to 65536 beyond the room if that is shorter, and only into the room otherwise |
| Buffers.Buffer.Scatter | src/Buffer.cpp:17-29 | The free tail is filled before the stack buffer, and with one vector nothing spills |
| Buffers.Buffer.TakeSpill | src/Buffer.cpp:39-43 | A full tail and the spilled bytes join the queue in order, with the space evolving as `Filled` |
| Buffers.Buffer.WriteFd | src/Buffer.cpp:47-55 | Offers the whole queue to the socket and removes nothing |
| Buffers.CopyDown | include/Buffer.h:129 | The element-by-element forward copy is right although source and destination overlap |
| Buffers.ReadvInto | src/Buffer.cpp:20-29 | Vector 0 receives the first bytes, vector 1 the rest, and bytes before the write position stay |
| Buffers.ReadingNothingIsEndOfStream | src/Buffer.cpp:17-29 | Every read offers room, so a result of 0 bytes means the peer closed, and nothing else |
| BufferLayouts.StepOk | include/Buffer.h:27-55 | Every operation keeps 8 <= reader <= writer <= size with an empty buffer at 8, and changes the readable length like a queue |
| BufferLayouts.GrowsWhenFull | include/Buffer.h:117-122 | Storage grows if and only if readable bytes, new bytes and the prepend area do not fit |
| BufferLayouts.MakesRoomAsNeeded | include/Buffer.h:71-133 | Room is made exactly when the tail is too short, by growing just enough or by moving the bytes down to index 8 |
| BufferLayouts.SpaceIsBounded | include/Buffer.h:117-133 | In every run the storage stays within 8 + initial or 8 + twice the most bytes ever readable |
| Kernel.Socket.Write | src/Buffer.cpp:49 | What write(2) may do: take a prefix, or fail; faults are sticky and follow SHUT_WR |
| Kernel.Socket.ShutdownWrite | src/Socket.cpp:48-54 | SHUT_WR is issued once more |
| Pollers.Channel.constructor | src/Channel.cpp:12-20 | No interest, not registered, not tied |
| Pollers.Channel.IsWriting | include/Channel.h:70-73 | True if and only if EPOLLOUT is in the mask |
| Pollers.Channel.IsReading | include/Channel.h:74-77 | True if and only if EPOLLIN or EPOLLPRI is in the mask |
| Pollers.Channel.Tie | src/Channel.cpp:32-37 | The channel is tied to the object given |
| Pollers.Channel.EnableReading | include/Channel.h:39-43 | The mask changes and the three tables become what `SetEvents` says for the new mask |
| Pollers.Channel.DisableReading | include/Channel.h:44-48 | The mask changes and the three tables become what `SetEvents` says for the new mask |
| Pollers.Channel.EnableWriting | include/Channel.h:49-53 | The mask changes and the three tables become what `SetEvents` says for the new mask |
| Pollers.Channel.DisableWriting | include/Channel.h:54-58 | The mask changes and the three tables become what `SetEvents` says for the new mask |
| Pollers.Channel.DisableAll | include/Channel.h:59-63 | The mask changes and the three tables become what `SetEvents` says for the new mask |
| Pollers.Channel.Update | src/Channel.cpp:39-42 | A mask already changed is brought to the poller and the kernel |
| Pollers.Channel.Remove | src/Channel.cpp:44-47 | The tables become what `RemoveChannel` says |
| Pollers.EPollPoller.constructor | src/EPollPoller.cpp:14-23 | All tables are empty |
| Pollers.EPollPoller.UpdateChannel | src/EPollPoller.cpp:60-89 | Tables, index and kernel set after an update equal the function on values, for each index and mask |
| Pollers.EPollPoller.RemoveChannel | src/EPollPoller.cpp:91-102 | Tables, index and kernel set after a removal equal the function on values |
| Pollers.EPollPoller.Update | src/EPollPoller.cpp:114-136 | One epoll_ctl call, with the refusals EEXIST and ENOENT recorded |
| Pollers.EPollPoller.FillActiveChannels | src/EPollPoller.cpp:104-112 | The reported channels follow in order, each registered and carrying its own flags |
| Registration.SetEventsAgrees | src/EPollPoller.cpp:60-89 | channels_, index_/events_ and kernel set agree after a mask change, with no epoll_ctl refused, if and only if the fd of a new channel is free |
| Registration.RemoveChannelAgrees | src/EPollPoller.cpp:91-102 | They agree after a removal under the same exact condition, and no other entry is erased |
| Registration.IntroduceAgrees | src/TcpConnection.cpp:35 | Creating a channel disturbs nothing, whatever its fd |
| Registration.OtherChansStay | src/EPollPoller.cpp:60-102 | The index afterwards, and that no other channel changes |
| Registration.RegisteredAfterSetEvents | src/EPollPoller.cpp:64-87 | Exactly when a channel is in the kernel set after a mask change; emptying a mask twice puts it back |
| Registration.MaskChangeKeeps | src/EPollPoller.cpp:60-89 | A mask change leaves other channels alone and keeps agreement and the free fd, so any number of them does |
| Registration.RefusedExactly | src/EPollPoller.cpp:114-136 | epoll_ctl refuses exactly ADD of a descriptor in the set and MOD or DEL of one that is not; a refusal changes nothing else, and a call accepted changes that entry only |
| Registration.TakenFdIsRefused | src/EPollPoller.cpp:64-75 | Registering a new channel over a live entry of its descriptor is refused with EEXIST |
| Connections.SendInv | src/TcpConnection.cpp:54-130 | send keeps the connection invariant: mask, stream, half-close, reports |
| Connections.HandleWriteInv | src/TcpConnection.cpp:192-224 | handleWrite keeps the connection invariant for every partial write |
| Connections.ReadAndConsumeInv | src/TcpConnection.cpp:171-190 | handleRead and taking input keep the connection invariant |
| Connections.StepInv | src/TcpConnection.cpp:54-234 | Every event keeps the connection invariant, connectDestroyed in any state included |
| Connections.RunInv | src/TcpConnection.cpp:54-234 | Every run keeps the connection invariant |
| ConnectionRuns.StreamIntegrity | src/TcpConnection.cpp:72-130 | In every run wire followed by output buffer is exactly what was sent while connected, unless a reset made bytes lost; the wire is always a prefix; input likewise |
| ConnectionRuns.AcceptedIsSent | src/TcpConnection.cpp:54-67 | The history of accepted bytes is the concatenation of send() arguments while connected |
| ConnectionRuns.ReceivedIsRead | src/TcpConnection.cpp:171-179 | The history of received bytes is the concatenation of what readv returned |
| ConnectionRuns.BrokenByReset | src/TcpConnection.cpp:94-104 | Without a reset by the peer the stream never breaks |
| ConnectionRuns.ClosedForWriting | src/TcpConnection.cpp:133-149 | After shutdown nothing more is accepted; after SHUT_WR nothing is written or queued, in any continuation |
| ConnectionRuns.OrderedHalfClose | src/TcpConnection.cpp:133-213 | SHUT_WR at most once, only with everything sent on the wire, and pending exactly while the output buffer is not empty |
| ConnectionRuns.StepCallbacks | src/TcpConnection.cpp:86-128 | Each step queues exactly the callbacks its output lengths before and after owe; write-complete only with every accepted byte on the wire and none lost |
| ConnectionRuns.CallbackAccounting | src/TcpConnection.cpp:86-208 | Over every run the queued callbacks are exactly those owed, in order |
| ConnectionRuns.HighWatersAreCrossings | src/TcpConnection.cpp:117-122 | As many high-water callbacks as upward crossings of the mark |
| ConnectionRuns.LifeCycle | src/TcpConnection.cpp:152-234 | State moves forward only; UP then DOWN, each at most once; one close; writing interest if and only if output is queued; no interest after close |
| ConnectionRuns.DestroyReportsDown | src/TcpConnection.cpp:160-169 | With all calls on the loop thread: after connectDestroyed, in whatever state it finds the connection, every UP has its DOWN if and only if that state was not kDisconnecting |
| ConnectionRuns.DispatchIsRun | src/Channel.cpp:66-103 | One dispatch is a legal run of handler events, unless it carries an urgent hang-up |
| ConnectionRuns.DispatchClosesOnce | src/Channel.cpp:80-102 | One dispatch closes at most once for all outcomes, if and only if it is not PRI and HUP without IN |
| ConnectionEffects.WritableWrites | src/TcpConnection.cpp:192-224 | A writable event puts on the wire as many queued bytes as the kernel takes; the event that takes the last turns writing off and issues a pending SHUT_WR |
| ConnectionEffects.WritableWaits | src/TcpConnection.cpp:192-224 | It changes nothing when the kernel refuses, nothing is queued or the connection is not open |
| ConnectionEffects.SendWrites | src/TcpConnection.cpp:83-128 | send() puts on the wire what the kernel takes if nothing is queued, and queues the rest behind the output |
| ConnectionEffects.SendFails | src/TcpConnection.cpp:94-104 | On a broken socket with nothing queued send() gives the bytes up |
| ConnectionEffects.SendIsRefused | src/TcpConnection.cpp:54-57 | send() does nothing unless connected |
| ConnectionEffects.ShutdownCloses | src/TcpConnection.cpp:133-149 | shutdown() sets kDisconnecting whether or not bytes are queued, and issues SHUT_WR at once if none are |
| ConnectionEffects.ReadingAdds | src/TcpConnection.cpp:171-190 | Reading bytes adds them to the input, reading none closes, an error does nothing |
| ConnectionEffects.ConsumeTakes | include/Buffer.h:63-68 | Taking input takes the bytes asked for, or all there are |
| ConnectionEffects.EstablishOpens | src/TcpConnection.cpp:152-158 | Connected, reading, UP reported |
| ConnectionEffects.DestroyShuts | src/TcpConnection.cpp:160-169 | DOWN is reported and interest dropped if still connected, without a close; otherwise nothing changes |
| ConnectionEffects.BacklogReachesWire | src/TcpConnection.cpp:192-224 | In every run without reset or close, whatever is sent, read or shut down meanwhile, queued bytes are on the wire once writable events have offered room for them |
| ConnectionEffects.BacklogDrains | src/TcpConnection.cpp:192-224 | Without further sends the backlog is empty if and only if the room offered is as long as it, and then a pending SHUT_WR has been issued |
| ConnectionEffects.ShutdownIsRemembered | src/TcpConnection.cpp:133-213 | After a shutdown() nothing more is accepted in any run, and SHUT_WR has been issued if and only if the output buffer has been empty since, before any close |
| ConnectionEffects.DispatchInOrder | src/Channel.cpp:66-103 | A dispatch writes before it reads, receives exactly what it reads, and does nothing without readiness |
| OffLoopCalls.CallsRunOnce | src/TcpConnection.cpp:54-140 | Every call on another thread is owed, queued or run, each once, and the queue is first in, first out |
| OffLoopCalls.StreamWithOtherThreads | src/TcpConnection.cpp:54-140 | In every interleaving, races included, wire followed by output buffer is exactly what was taken on, unless bytes were given up after a reset or SHUT_WR; what was handed over is what was taken on and what was dropped after the close |
| OffLoopCalls.SendIsGivenUp | src/TcpConnection.cpp:72-130 | In any state a queued send is given up if and only if the connection has closed, or it tries a socket that is half-closed, broken or being reset; otherwise all its bytes are on the wire or queued |
| OffLoopCalls.WhatIsGivenUp | src/TcpConnection.cpp:72-130 | Over every run bytes handed over are given up if and only if a send tries a half-closed, broken or resetting socket or a queued send runs after the close; without a reset the former is a queued send after SHUT_WR |
| OffLoopCalls.StateGoesBack | src/TcpConnection.cpp:133-140 | The state goes backward if and only if another thread's shutdown() sets a state that was closed since its check |
| OffLoopCalls.HalfClosesAreIssued | src/TcpConnection.cpp:133-213 | Over every run SHUT_WR is issued as often as the three kinds of step that issue it occur, so more than once if and only if two of them do |
| OffLoopCalls.HalfCloseWithUnsent | src/TcpConnection.cpp:143-149 | SHUT_WR overtakes unsent bytes if and only if the queued shutdownInLoop runs with bytes queued and writing off, which takes a close before |
| OffLoopCalls.WhatReopens | src/TcpConnection.cpp:115-128 | A closed channel asks for events again if and only if a queued send runs when the state has been set back and leaves bytes queued |
| OffLoopCalls.ReportsUntilReopened | src/TcpConnection.cpp:152-234 | In every run, until that happens: UP then DOWN, each at most once, at most one close, and no interest in events after it |
| OffLoopOrder.HalfCloseRepeats | src/TcpConnection.cpp:133-149 | SHUT_WR is issued twice if and only if two steps issue it; without a race between check and set that is at most twice, and twice if and only if a drain while closing came before the queued shutdownInLoop |
| OffLoopOrder.LateShutdownRepeats | src/TcpConnection.cpp:133-149 | The queued shutdownInLoop issues SHUT_WR again if and only if writing is off and an earlier step issued it; without that race, if and only if a drain came first |
| OffLoopOrder.LateSendIsDropped | src/TcpConnection.cpp:54-107 | A queued send is given up whatever the kernel does if and only if the connection has closed or it tries a half-closed or broken socket; without that race, a reset and the shutdownInLoop, if and only if a drain came since the state was set |
| OffLoopOrder.LifeCycleWithOtherThreads | src/TcpConnection.cpp:133-234 | Without a reopened channel the reports are in order; without that race none is reopened, the mask follows state and output, and the state moves forward only |
| OffLoopOrder.WireIsInOrder | src/TcpConnection.cpp:54-130 | The wire is a prefix of what was taken on; without that race it is a prefix of everything handed over, and what is dropped comes last |
| OffLoopRuns.PlainShutdown | src/TcpConnection.cpp:133-149 | The common off-loop shutdown: closing with nothing queued and no SHUT_WR yet, then one SHUT_WR |
| OffLoopRuns.OvertakenSend | src/TcpConnection.cpp:137-213 | A run in which a queued send is given up and SHUT_WR is issued twice |
| OffLoopRuns.OwnDrain | src/TcpConnection.cpp:137-213 | A run in which nothing is queued when the state is set and SHUT_WR is still issued twice |
| OffLoopRuns.SendAfterClose | src/TcpConnection.cpp:77-81 | A run without race, reset or SHUT_WR in which a queued send is dropped after the close |
| OffLoopRuns.RivalShutdowns | src/TcpConnection.cpp:133-140 | A run in which two threads past the check issue SHUT_WR twice without a drain |
| OffLoopRuns.RivalOnLoop | src/TcpConnection.cpp:133-140 | A run in which one thread past the check and the loop thread issue SHUT_WR twice |
| OffLoopRuns.RivalsBeforeDrain | src/TcpConnection.cpp:133-149 | A run in which two threads past the check issue SHUT_WR once |
| OffLoopRuns.ShutdownAfterClose | src/TcpConnection.cpp:133-140 | A run in which the state goes from kDisconnected back to kDisconnecting |
| OffLoopRuns.ClosedTwice | src/TcpConnection.cpp:115-140 | A run in which a closed channel asks for write events again and handleClose runs twice |
| OffLoopRuns.GapInStream | src/TcpConnection.cpp:54-81 | A run in which the first of two sends is dropped and the second goes out |
| TcpConnections.TcpConnection.constructor | src/TcpConnection.cpp:25-48 | A fresh connection with its own channel, socket and buffers; the channel is known to the poller but not registered |
| TcpConnections.TcpConnection.ConnectEstablished | src/TcpConnection.cpp:152-158 | Connected, the channel tied to this connection, reading, UP reported; tables follow |
| TcpConnections.TcpConnection.Send | src/TcpConnection.cpp:54-67 | On the loop thread: equals `Send` on values, tables follow the mask |
| TcpConnections.TcpConnection.SendInLoop | src/TcpConnection.cpp:72-130 | Equals `SendInLoop` on values for every outcome of the write, tables follow the mask |
| TcpConnections.TcpConnection.WriteNow | src/TcpConnection.cpp:83-107 | The direct write: what remains, whether it faulted, and the write-complete callback |
| TcpConnections.TcpConnection.QueueRest | src/TcpConnection.cpp:115-128 | What remains is queued behind the output buffer and room is asked for |
| TcpConnections.TcpConnection.QueueHighWater | src/TcpConnection.cpp:119-122 | The high-water callback is queued on an upward crossing, with the length reached |
| TcpConnections.TcpConnection.AskForRoom | src/TcpConnection.cpp:124-127 | Writing interest is on; the poller is updated only if it was off |
| TcpConnections.TcpConnection.QueueWriteComplete | src/TcpConnection.cpp:89-92 | The write-complete callback is queued if one is installed |
| TcpConnections.TcpConnection.Shutdown | src/TcpConnection.cpp:133-140 | On the loop thread: equals `Shutdown` on values |
| TcpConnections.TcpConnection.ShutdownInLoop | src/TcpConnection.cpp:143-149 | SHUT_WR is issued unless writing is still on |
| TcpConnections.TcpConnection.HandleRead | src/TcpConnection.cpp:171-190 | Input grows by what was read; no bytes closes the connection; an error changes nothing |
| TcpConnections.TcpConnection.HandleWrite | src/TcpConnection.cpp:192-224 | Equals `HandleWrite` on values for every outcome, tables follow the mask |
| TcpConnections.TcpConnection.FinishDrain | src/TcpConnection.cpp:201-212 | Writing off, write-complete queued, the deferred half-close issued |
| TcpConnections.TcpConnection.HandleClose | src/TcpConnection.cpp:226-234 | Disconnected, no interest, DOWN reported, close callback called |
| TcpConnections.TcpConnection.ConnectDestroyed | src/TcpConnection.cpp:160-169 | DOWN only if still connected; the channel leaves all tables |
| TcpConnections.TcpConnection.ConsumeInput | include/Buffer.h:63-68 | The application takes a prefix of the input buffer |
| TcpConnections.TcpConnection.AppCall | src/TcpConnection.cpp:54-149 | One call of the application equals the step on values, and the tables follow the mask |
| TcpConnections.TcpConnection.MessageCallback | src/TcpConnection.cpp:178 | Any calls a message callback makes on its connection are a run of events, and the tables stay in agreement |
| TcpConnections.TcpConnection.HandleInput | src/Channel.cpp:80-86 | The read part of a dispatch, with the message callback after it; the tables stay in agreement |
| TcpConnections.TcpConnection.HandleEvent | src/Channel.cpp:48-64 | A channel that is not tied, or whose object is held, is dispatched; a tied one whose object is gone changes nothing |
| TcpConnections.TcpConnection.HandleEventWithGuard | src/Channel.cpp:66-103 | A whole dispatch equals `Dispatch` on values, in the source's order; the tables stay in agreement and no other channel is touched |
| TcpConnections.TcpConnection.OnMessage | example/testserver.cpp:38-42 | Everything readable is taken and sent back |
| Echo.EchoStepInv | example/testserver.cpp:38-42 | Every event keeps accepted bytes equal to received bytes with nothing left unread |
| Echo.EchoEndToEnd | example/testserver.cpp:38-42 | In every run the wire followed by the output buffer is what was heard, unless a reset lost bytes; the wire is always a prefix of it |
| EventLoops.StepQueueInv | src/EventLoop.cpp:114-184 | Every step of every thread keeps the queue history: order, exactly once, batch numbers |
| EventLoops.FunctorsRunInOrder | src/EventLoop.cpp:168-184 | In every interleaving functors run once, in the order pushed, each in the batch after the one in progress at its push |
| EventLoops.WakeupsAreCounted | src/EventLoop.cpp:144-152 | The eventfd counts the wakeups since it was read, up to 2^64 - 2 |
| EventLoops.StepWakeInv | src/EventLoop.cpp:114-152 | Every step keeps: pending functors are going to be noticed |
| EventLoops.NoLostWakeupExactly | src/EventLoop.cpp:114-152 | No interleaving loses a wakeup, if and only if what is pending at loop() entry was announced on the eventfd or is about to be |
| EventLoops.NoLostWakeupFromCreation | src/EventLoop.cpp:114-131 | From the creation of the loop on: no interleaving after loop() entry loses a wakeup, if and only if the loop thread queued nothing before it or another thread queued or woke as well |
| EventLoops.EarlyPushIsNotNoticed | src/EventLoop.cpp:126 | A run from creation that waits with a functor pending, a zero eventfd and no write owed |
| EventLoops.NeverSleepsOnWork | src/EventLoop.cpp:69-86 | With no writer under way and a zero eventfd at the poll, nothing is pending and no quit is requested |
| EventLoops.QuitIsHonoured | src/EventLoop.cpp:63-98 | After loop() entry a quit lets at most one more poll return, whoever asked |
| EventLoops.QuitEndsPolling | src/EventLoop.cpp:63-98 | Once quit_ is set inside loop() only a poll already waiting returns, in any interleaving |
| EventLoops.QuitCountsFromEntry | src/EventLoop.cpp:63-98 | In every run from creation quit_ is set if and only if a quit was requested with no entry into loop() after it |
| EventLoops.EarlyQuitIsLost | src/EventLoop.cpp:66 | A run in which loop() entry overwrites a quit |
| EventLoops.BatchIsBounded | src/EventLoop.cpp:168-184 | In every interleaving a batch runs the functors swapped out and no others; each one run is one fewer left |
| EventLoops.BatchTerminates | src/EventLoop.cpp:177-180 | The loop thread alone runs the whole batch and ends it |
| EventLoops.EveryIterationRunsAll | src/EventLoop.cpp:69-86 | In every interleaving whatever was pushed when the loop was at the poll has run when it next checks quit_ |
| EventLoops.OneIterationRunsAll | src/EventLoop.cpp:69-86 | |pending| + 4 or 5 steps of the loop thread alone run everything pushed so far |
| EventLoopObjects.EventLoop.constructor | src/EventLoop.cpp:29-52 | A loop not entered yet, nothing pending |
| EventLoopObjects.EventLoop.QueueInLoop | src/EventLoop.cpp:114-131 | Pushes at the end, other threads may run, then writes the eventfd unless it is the loop thread outside a batch; every execution is a run of the protocol |
| EventLoopObjects.EventLoop.Quit | src/EventLoop.cpp:90-98 | Sets quit_, and leaves the eventfd positive when called by another thread |
| EventLoopObjects.EventLoop.HandleRead | src/EventLoop.cpp:132-140 | The read finds a positive counter and resets it |
| EventLoopObjects.EventLoop.DoPendingFunctors | src/EventLoop.cpp:168-184 | Runs exactly what was pending at the swap, in order, whatever other threads and the functors queue meanwhile |
| EventLoopObjects.EventLoop.SwapOut | src/EventLoop.cpp:170-176 | The flag is up before the queue is swapped out, and nothing pending is left behind |
| EventLoopObjects.EventLoop.RunBatch | src/EventLoop.cpp:177-180 | Every functor of the batch runs once, in order, and makes its calls |
| EventLoopObjects.EventLoop.Dispatch | src/EventLoop.cpp:73-77 | Handling active channels, the wakeup channel anywhere among them, stays within the protocol |
| EventLoopObjects.EventLoop.RunLoop | src/EventLoop.cpp:63-88 | For a given number of iterations or until quit_: one poll each, which reports the wakeup channel exactly if asked to and the eventfd is positive; whatever had been pushed at a poll has run when it is left; it makes only protocol steps and leaves exactly on quit_ |
| EventLoopObjects.EventLoop.Iterate | src/EventLoop.cpp:69-86 | One iteration is one poll, the handlers of the channels reported and exactly the functors pending at the swap, among them all pending before, and user code runs once for each |
| EventLoopObjects.EventLoop.UserCode | src/EventLoop.cpp:73-77 | A handler or functor makes exactly the calls it is to make, in order |
| EventLoopObjects.EventLoop.Interfere | src/EventLoop.cpp:114-152 | Other threads take every step of their schedule that they can take, in order |
| ConnNames.ParsePrinted | src/TcpServer.cpp:71 | Printed decimals read back, so printing is injective |
| ConnNames.DecimalLength | src/InetAddress.cpp:20-29 | A number below a power of ten prints in that many digits |
| ConnNames.SuffixFits | src/TcpServer.cpp:70-71 | For every address and id up to INT_MAX the suffix has at most 33 characters, so the 64-byte buffer never cuts it |
| ConnNames.NamesDiffer | src/TcpServer.cpp:69-73 | Two connections of a server have the same name if and only if they have the same id |
| ConnNames.NameReadsBack | src/TcpServer.cpp:69-73 | A name is the server's name and then, in order and with their marks, the four parts of the address, the port and the id |
| ConnNames.SnprintfKeeps | src/TcpServer.cpp:70-71 | snprintf keeps a text exactly if there is room for the terminating zero, and as much of it as fits otherwise |
| ConnNames.BufferHolds | src/TcpServer.cpp:70-71 | The buffer for the suffix holds 63 characters |
| ThreadPools.EventLoopThreadPoll.Start | src/EventLoopThreadPoll.cpp:20-36 | One loop per thread, each under its own uncut name; the init callback is called with every sub-loop, or with the base loop alone |
| ThreadPools.EventLoopThreadPoll.GetNextLoop | src/EventLoopThreadPoll.cpp:39-54 | The n-th call gives sub-loop n modulo their number, or the base loop when there are none |
| ThreadPools.ServedSinceStart | src/EventLoopThreadPoll.cpp:39-54 | Closed form for the connections each sub-loop has received |
| ThreadPools.RoundRobinIsFair | src/EventLoopThreadPoll.cpp:39-54 | Over any window of consecutive connections two sub-loops differ by at most one |
| TcpServerInvariant.PhaseAlive | src/TcpServer.cpp:103-115 | Until connectDestroyed has run, the map, a functor or a frame holds the connection |
| TcpServerInvariant.FdIsFree | src/EPollPoller.cpp:64-69 | A connection that is alive finds its descriptor free, or its own, in its poller |
| TcpServerSteps.PollInv | src/EPollPoller.cpp:30-44 | What a wait without urgent hang-ups reports belongs to live connections of that loop |
| TcpServerSteps.HandleInv | src/Channel.cpp:48-64 | Taking the guard succeeds and keeps the invariant |
| TcpServerSteps.SwapInv | src/EventLoop.cpp:173-176 | Swapping a queue moves functors without losing or doubling one |
| TcpServerSteps.RunTokenInv | src/EventLoop.cpp:177-180 | Running the next functor keeps the invariant; a removal runs on the base loop only |
| TcpServerSteps.EndBatchInv | src/EventLoop.cpp:177-184 | Releasing a batch, and the pointers in it, keeps the invariant |
| TcpServerSteps.EstablishInv | src/TcpConnection.cpp:152-158 | connectEstablished runs on its own loop, on a connection that waits for it and for nothing else |
| TcpServerSteps.RemoveInv | src/TcpServer.cpp:108-115 | The removal finds and erases the connection's own entry and queues connectDestroyed on its own loop |
| TcpServerSteps.DestroyInv | src/TcpConnection.cpp:160-169 | connectDestroyed runs on its own loop, on a connection that handleClose already reported DOWN |
| TcpServerSteps.CloseInv | src/TcpConnection.cpp:226-234 | handleClose runs on a live connection and leads to its removal, at once or through the base loop's queue |
| TcpServerSteps.RemoveConnectionInv | src/TcpServer.cpp:103-106 | The removal runs at once on the base loop and is queued to it from any other |
| TcpServerSteps.SetWritingInv | include/Channel.h:49-58 | Changing write interest of a live connection keeps the invariant |
| TcpServerSteps.HalfCloseInv | src/TcpConnection.cpp:133-140 | Setting kDisconnecting, on whatever thread, keeps the invariant |
| TcpServerSteps.UserCallInv | src/TcpConnection.cpp:89-92 | A queued user callback only adds a holder |
| TcpServerSteps.OffLoopCallInv | src/TcpConnection.cpp:54-67 | A sendInLoop or shutdownInLoop queued by another thread keeps the invariant |
| TcpServerSteps.NameIsNew | src/TcpServer.cpp:69-73 | A new connection's name is not in connections_ |
| TcpServerSteps.AcceptInv | src/TcpServer.cpp:66-100 | A new connection, on the base loop or a sub-loop, keeps the invariant |
| TcpServerSteps.AcceptFailsInv | src/Acceptor.cpp:64-71 | A failing accept(2) keeps the invariant and revives nothing |
| TcpServerSteps.StepInv | src/TcpServer.cpp:66-115 | Every step of every thread keeps the invariant, calls of send and shutdown from other threads included, urgent hang-ups and late sets of the state aside |
| TcpServerRuns.ActiveChannelsAreAlive | src/Channel.cpp:48-64 | In every interleaving a channel waiting to be handled belongs to a connection that is alive, established and not closed, so the guard never fails |
| TcpServerRuns.CountersRecord | src/Channel.cpp:50-57 | What is counted: a dispatch whose connection is gone, and a name already in connections_ |
| TcpServerRuns.TokenConservation | src/TcpServer.cpp:66-115 | Each connection waits for exactly one of its functors on the right loop, or is live, or gone; connectEstablished, handleClose and connectDestroyed run in that order, each at most once |
| TcpServerRuns.ConnectionMapIsExact | src/TcpServer.cpp:89-112 | connections_ never loses an entry to a new connection and holds exactly the connections not closed or whose removal still waits on the base loop, each under its own name |
| TcpServerRuns.FdReuseIsSafe | src/EPollPoller.cpp:64-102 | With recycled descriptors no two live connections share one, no table entry is stale, and no epoll_ctl is refused |
| TcpServerRuns.CloseCallsAreDispatched | src/Channel.cpp:80-102 | The handleClose calls of a dispatch in the server model are those of the connection's dispatch |
| TcpServerRuns.ReportClosesOnce | src/Channel.cpp:80-102 | A report for a live connection lets it be closed at most once in every continuation, if and only if it is not an urgent hang-up |
| TcpServerRuns.NothingLeaksAtRest | src/TcpServer.cpp:103-115 | With all loops idle every handleClose has led to exactly one connectDestroyed, and a closed connection the application does not keep is released and unregistered |
| TcpServerLife.WholeLife | src/TcpServer.cpp:66-115 | On every server with sub-loops and for every descriptor there is a run in which a connection is accepted, established, reported, closed and destroyed once, and released when the application drops it |
| TcpServerProgress.BusyRunsEnd | src/EventLoop.cpp:69-86 | When nothing new comes in, every schedule in which no loop waits with nothing queued ends within a bound given by the state |
| TcpServerProgress.RestOrBusy | src/EventLoop.cpp:69-86 | All loops are at rest if and only if none of them has such a step left |
| TcpServerProgress.RestIsNear | src/EventLoop.cpp:69-86 | So every such schedule is bounded, and is at rest if and only if it cannot go on |
| TcpServerProgress.RestIsReached | src/EventLoop.cpp:69-86 | From every state in order such a schedule brings every loop to rest |
| TcpServerProgress.EveryCloseIsFinished | src/TcpServer.cpp:103-115 | Where such a schedule cannot go on, every connection accepted has been established, every handleClose has led to exactly one connectDestroyed, and what was closed is released |
| TcpServerRace.LateSetClosesTwice | src/TcpConnection.cpp:133-140 | A closed connection reports DOWN once in every continuation; if a shutdown() sets its state back, some continuation reports it twice |
| TcpServerLoops.StepLeads | src/EventLoop.cpp:69-184 | Each step of the server is, for each of its loops, some steps of the loop protocol that run the same functors |
| TcpServerLoops.OffLoopCallIsQueued | src/EventLoop.cpp:114-131 | A call from another thread waits at the end of the queue of the connection's own loop, and nothing else changes |
| TcpServerLoops.LoopsAreEventLoops | src/EventLoop.cpp:69-184 | In every server run each loop is where a run of the loop protocol is, so no functor is lost, doubled or reordered and none waits behind a zero eventfd |
| ServerConnections.UpEffect | src/TcpConnection.cpp:54-224 | A handler or call that does not close keeps a live connection up and shows the server at most a half-close and a change of write interest |
| ServerConnections.DispatchWork | src/Channel.cpp:66-103 | A dispatch closes as often as the server model says, and closes last |
| ServerConnections.DoTogether | src/TcpServer.cpp:66-115 | Every step of server and connections together keeps them in agreement; every event comes when Connections allows it |
| ServerConnections.ServerRunsConnections | src/TcpServer.cpp:66-115 | In every interleaving the server goes through a run of its own and every connection through a legal run of Connections, connectDestroyed after the close, with the same state, mask and reports |
| ServerCallbacks.QueuedGrows | src/TcpConnection.cpp:86-128 | Events queue callbacks behind those queued before, and opening and closing queue none |
| ServerCallbacks.CallbacksWaitInOrder | src/TcpConnection.cpp:86-208 | Every run of server and connections keeps: the callbacks of a connection waiting on its loop are the last it has queued, in order, and no other loop has any |
| ServerCallbacks.CallbacksOfRun | src/TcpConnection.cpp:86-208 | The same from the start of the server, spelled out for each loop and connection |
| EchoServers.DispatchFits | example/testserver.cpp:38-42 | A dispatch of the echo server takes and sends back exactly what it reads |
| EchoServers.EveryConnectionEchoes | example/testserver.cpp:38-42 | In every run of the echo server on any number of loops, every connection's wire is a prefix of what was read on it, and outside its dispatches wire and output buffer are exactly that unless a reset lost bytes |
| TcpServerObjects.TcpServer.constructor | src/TcpServer.cpp:18-36 | No connections, ids from 1, empty queues |
| TcpServerObjects.LoopEnd.RunInLoop | src/EventLoop.cpp:101-111 | On the loop's own thread the functor runs at once, from any other it is queued |
| TcpServerObjects.TcpServer.NewConnection | src/TcpServer.cpp:66-100 | Map, id counter, loop choice and every functor queue equal `NewConnection` on values; connectEstablished is queued to the chosen loop or runs at once on the base loop |
| TcpServerObjects.TcpServer.RemoveConnection | src/TcpServer.cpp:103-106 | Equals `RemoveConnection` on values: the removal runs at once on the base loop and is queued from any other |
| TcpServerObjects.TcpServer.RemoveConnectionInLoop | src/TcpServer.cpp:108-115 | The entry of that name, and no other, is erased, and connectDestroyed is pushed onto the queue of the connection's loop |

## Left out

- TcpServerSteps.PollInv: for reports without urgent hang-ups; TcpServerRuns.ReportClosesOnce says what they break.
- TcpServerSteps.StepInv: for steps without urgent hang-ups and late sets of the state; TcpServerRuns.ReportClosesOnce and TcpServerRace.LateSetClosesTwice say what they break.
- ServerConnections.ServerRunsConnections: calls of send and shutdown there are on the connection's loop thread; TcpServers and OffLoopCalls have those from other threads.
- EventLoops.BatchTerminates: one schedule; EventLoops.BatchIsBounded is for every interleaving.
- EventLoops.OneIterationRunsAll: one schedule; EventLoops.EveryIterationRunsAll is for every interleaving.
- The destructors of TcpServer, EventLoop, EventLoopThread and Acceptor, racing with running loops: runs are those of a live server.
- Thread start-up in EventLoopThread and Thread: runs begin with the loops in or before loop().
- The accept, wakeup and timer channels in the poller tables of the server model: their descriptors stay open, so accept never returns them.
- Socket options, bind, listen, getsockname, InetAddress parsing, logging, timestamps, DefaultPoller.
- The epoll timeout, EINTR, the growth of the event array, and failures of epoll_ctl other than EEXIST and ENOENT.
- User callbacks beyond calling send, shutdown and taking input on their own connection, keeping and dropping pointers to connections, and queueing functors; exceptions.
- The wrap of size_t and of the connection id: lengths are unbounded, and the server accepts while the id is below INT_MAX.
- getAllLoops, hasChannel, peek and other plain accessors: they would only add easy members.
- TcpServerObjects.TcpServer.NewConnection: the user callbacks copied to the connection are not modelled.
- TcpServerObjects.LoopEnd.RunInLoop: on the loop's own thread it records the functor, and its caller goes on with it.
- EventLoopObjects.EventLoop.RunLoop: follows loop() for a given number of iterations unless quit_ ends it, since loop() need not end.
