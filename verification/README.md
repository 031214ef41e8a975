# A verified model of moony

moony is a reactor library: each thread runs one event loop; a loop polls the descriptors
registered with its poller, runs the handlers of the active channels, and then runs the
functors that any thread has queued on it. This project models five layers of it in Dafny
and proves what each promises to the next.

| file | models |
|---|---|
| `Buffers.dfy` | the byte queue in a growable array (`net/buffer`) |
| `Epoll.dfy`, `Polling.dfy` | channels, the poller and the kernel's interest set (`net/channel`, `net/poller`), as values and as objects |
| `ConnectionSpec.dfy`, `TcpConnections.dfy` | a connection on its own loop thread (`net/tcp_connection`), as a transition function and as an object over real buffers, channel and poller |
| `ConnectionLaws.dfy`, `ConnectionEvents.dfy` | what each call, and each reported event, does to the bytes, the mask and the half-close, said without the functions that compute it |
| `EventLoops.dfy` | the functor queue and the wakeup protocol between a loop thread and any other threads (`net/event_loop`) |
| `ThreadPools.dfy`, `Names.dfy`, `Servers.dfy` | round robin, connection names, and the handing over of connections between the base loop and the io loops (`net/event_loop_thread_pool`, `net/tcp_server`) |

Objects that the library updates in place are classes whose methods are specified by functions
on values; the lemmas about those functions speak of every run. What several threads do to
shared state is a step relation: a step is one access to that state with the private work
around it, a run is any sequence of steps, and steps that cannot happen where they stand are
skipped. The kernel is an adversary: the result of every `readv`, `write`, `epoll_wait` and
`accept4` is an argument, bounded only by what the call promises. The application is one too:
a callback is any sequence of sends and shutdowns.

## Main results

- *Ownership.* In every interleaving of the base loop and any number of io loops, a connection
  whose channel a poller knows is in the server's map, or in an executing
  `remove_connection_in_loop`, or in a queued `connection_destroyed` of its own loop; what has
  been freed is in no poller, no interest set and no list of active channels. Hang-ups may be
  reported again after a close, so `handle_close` and `connection_destroyed` may run more than
  once for a connection, and a descriptor may be reused once its connection is freed.
- *Dispatch.* The channels listed by `poll_wait` stay registered and their connections held
  until the dispatch loop ends, whatever any loop does.
- *Wakeups.* A loop thread in `poll_wait` with quit set has a wakeup stored in its eventfd or on
  its way to it, and so has one with functors queued, except in its first poll as described below;
  a quit that comes after `loop()` has reset the flag is never followed by another poll; functors
  run exactly once, in order, and a batch is what was queued before its swap.
- *Input.* What the message callbacks take, then what the input buffer holds, are the bytes read,
  in order, through growth and overflow reads.
- *Output.* The bytes given to the kernel, then those in the output buffer, are the payloads
  accepted, in order; the kernel watches for output exactly when output is waiting; `SHUT_WR` is
  issued at most once, after everything; high-water notifications count the upward crossings.
- *Kernel mirror.* `idx_`, `channels_` and the kernel's set agree after any run of mask changes
  and removals, and no `epoll_ctl` call ever fails.
- *Space.* A buffer never outgrows the larger of its first size and twice its longest content
  plus 7 bytes.

## Where the code departs from its intent

- `net/buffer/buffer.cc:29` adds `buffer_.size()` to the writer index where its comments mean the
  index to become `buffer_.size()`. Both forms are modelled, chosen by `repaired`. As written,
  `read_fd` keeps its invariant exactly when the bytes read fit the space behind the writer index
  (`Buffers.ReadKeepsShape`, `Buffers.Buffer.ReadFd`); otherwise its append copies beyond the
  array (`Buffers.OverflowEscapes`). Repaired, it appends what was read in every case.
- `net/channel/channel.h:52` tests `events_ & 0`, which is never true. Both readings are modelled,
  chosen by `NoneTest`; the mirror and everything above it hold for both. As written, a channel is
  never `k_deleted` (`Epoll.NeverDeleted`), and `disable_all` leaves the descriptor in the kernel
  with an empty mask (`Epoll.DisableAllLeavesKernel`).
- `net/event_loop/event_loop.cc:75` resets `quit_`, so a quit keeps the loop from ever entering
  `poll_wait` again exactly when it comes after that line, wherever the loop then stands
  (`EventLoops.QuitHonoured`). Functors that the loop thread queues before it calls `loop()` come
  with no wakeup (`net/event_loop/event_loop.cc:135-137`), so its first `poll_wait` may start with
  functors queued and no wakeup; from the first swap of the queue on it cannot happen.
  `EventLoops.NoLostWakeup` says exactly when there is a wakeup.
- `net/buffer/buffer.h:48-52` builds the string before it clips the length: asked for more than the
  readable bytes it returns stale bytes after them and empties the buffer, and asked for more than
  the array holds it would read beyond it, so there the length is a precondition
  (`Buffers.Buffer.RetrieveAsString`).
- `net/buffer/buffer.h:16-19` works only for a first size of at least 8, a precondition here.

## Model

| member | source | states |
|---|---|---|
| Buffers.Buffer.constructor | net/buffer/buffer.h:16-19 | a new buffer of at least 8 bytes is valid and empty |
| Buffers.Buffer.RetrieveAll | net/buffer/buffer.h:38-41 | empties the queue and resets both indices, keeping the array |
| Buffers.Buffer.Retrieve | net/buffer/buffer.h:30-36 | drops exactly min(len, readable) bytes from the front |
| Buffers.Buffer.RetrieveAsString | net/buffer/buffer.h:48-52 | up to the readable length, result then rest are the old contents; beyond it the contents are a prefix of the result and the queue is emptied |
| Buffers.Buffer.RetrieveAllAsString | net/buffer/buffer.h:44-46 | returns the whole contents and empties the queue |
| Buffers.Buffer.CopyDown | net/buffer/buffer.h:95-97 | the overlapping forward copy is right, since its destination starts before its source |
| Buffers.Buffer.Resize | net/buffer/buffer.h:92 | the new array starts with the whole old one |
| Buffers.Buffer.MakeSpace | net/buffer/buffer.h:89-101 | room for len bytes, contents unchanged; where it compacts, the reader index was strictly above 8 |
| Buffers.Buffer.EnsureWriteableBytes | net/buffer/buffer.h:54-58 | at least len writable bytes, contents unchanged |
| Buffers.Buffer.Append | net/buffer/buffer.h:61-65 | the contents grow by exactly the bytes, whether it grows, compacts or neither |
| Buffers.Buffer.Readv | net/buffer/buffer.cc:16-23 | the scatter read fills the tail first and the overflow area with the rest |
| Buffers.Buffer.TakeOverflow | net/buffer/buffer.cc:28-31 | the intended overflow branch appends tail and overflow area in order |
| Buffers.Buffer.ReadFd | net/buffer/buffer.cc:10-34 | the contents grow by exactly the bytes read, exactly when the branch is repaired or the bytes fit; otherwise the indices are those the code computes, and their invariant is broken |
| Buffers.ReadKeepsShape | net/buffer/buffer.cc:26-31 | read_fd keeps the index invariant iff it is repaired or the bytes read fit the tail |
| Buffers.ReadOverflowExample | net/buffer/buffer.cc:28-31 | 1017 bytes into a fresh buffer leave the written form with writer index 1033 of 1024 |
| Buffers.OverflowEscapes | net/buffer/buffer.cc:29-30 | after the written line 29 the size_t subtraction wraps, so append makes no space, copies beyond the array and advances the writer index past it |
| Buffers.AppendBound | net/buffer/buffer.h:89-93 | one growth stays within twice the readable bytes plus 7 |
| Buffers.StepBound | net/buffer/buffer.h:30-65 | each operation keeps readable length equal to the queue's and size within the bound |
| Buffers.CapacityBound | net/buffer/buffer.h:54-101 | over any run, size never exceeds max(first size, 2P + 7) for the peak content P |
| Buffers.CapacityBoundTight | net/buffer/buffer.h:90-92 | the bound is reached |
| Buffers.RunOp | net/buffer/buffer.h:30-65 | one operation on a real buffer does to its contents what it does to a byte queue |
| Buffers.RunOps | net/buffer/buffer.h:30-101 | any run on a real buffer refines the byte queue and stays within the space bound |
| Epoll.SetEventsExclusive | net/poller/epoll_poller.cc:60-81 | with the descriptor to itself, a channel's mask change is accepted and keeps the mirror |
| Epoll.SetEventsShared | net/poller/epoll_poller.cc:67-72 | with a shared descriptor it fails or breaks the mirror |
| Epoll.SetEventsMirror | net/poller/epoll_poller.cc:60-81 | a mask change is accepted and keeps the mirror iff no other known channel has the descriptor |
| Epoll.RemoveMirror | net/poller/epoll_poller.cc:84-97 | a removal never draws an error, and keeps the mirror iff no other known channel has the descriptor |
| Epoll.PerformMirrors | net/poller/epoll_poller.cc:60-97 | one operation under distinct descriptors is legal and keeps the mirror |
| Epoll.RunMirrors | net/poller/epoll_poller.cc:60-124 | after any run of mask changes and removals the mirror holds and no epoll_ctl call has failed |
| Epoll.NeverDeleted | net/poller/epoll_poller.cc:74-76 | with is_none_event as written no run leaves a channel k_deleted |
| Epoll.DisableAllLeavesKernel | net/channel/channel.h:47-52 | disable_all takes a registered descriptor out of the kernel iff is_none_event compares with 0 |
| Polling.Channel.constructor | net/channel/channel.cc:10-13 | a new channel has no events and is k_new |
| Polling.Channel.EnableReading | net/channel/channel.h:43 | adds the read bits; the kernel's set follows |
| Polling.Channel.DisableReading | net/channel/channel.h:44 | removes the read bits; the kernel's set follows |
| Polling.Channel.EnableWriting | net/channel/channel.h:45 | adds the write bit; the kernel's set follows |
| Polling.Channel.DisableWriting | net/channel/channel.h:46 | removes the write bit; the kernel's set follows |
| Polling.Channel.DisableAll | net/channel/channel.h:47 | clears the mask; the kernel's set follows |
| Polling.Channel.SetMask | net/channel/channel.cc:42-44 | a mask change through the loop's poller does what SetEvents says and is never refused |
| Polling.Channel.Remove | net/channel/channel.cc:35-37 | after it the channel is k_new and the kernel does not hold the descriptor |
| Polling.EpollPoller.Control | net/poller/epoll_poller.cc:110-124 | epoll_ctl's rules, and what a failure of each operation leads to |
| Polling.EpollPoller.UpdateChannel | net/poller/epoll_poller.cc:60-81 | the object does what the value model says |
| Polling.EpollPoller.RemoveChannel | net/poller/epoll_poller.cc:84-97 | the object does what the value model says |
| Polling.EpollPoller.FillActiveChannels | net/poller/epoll_poller.cc:100-107 | the list grows by the reported channels in order, each with its own mask, and each of them is registered |
| ConnectionSpec.Conservation | net/tcp_connection/tcp_connection.cc:75-200 | over any run, bytes taken by the kernel then bytes buffered are, in order, the payloads sent while connected, but for those the kernel refused because the peer is gone |
| ConnectionSpec.SendConserves | net/tcp_connection/tcp_connection.cc:75-124 | send_in_loop adds its whole payload to the stream, or nothing of it when the peer is gone |
| ConnectionSpec.DrainConserves | net/tcp_connection/tcp_connection.cc:175-192 | handle_write moves bytes from the buffer to the kernel and loses none |
| ConnectionSpec.StepConserves | net/tcp_connection/tcp_connection.cc:55-212 | each call adds exactly its payload to the stream |
| ConnectionSpec.RunInv | net/tcp_connection/tcp_connection.cc:55-212 | every run keeps the invariant tying state, mask, buffer and half-close |
| ConnectionSpec.NoStalledOutput | net/tcp_connection/tcp_connection.cc:108-123 | while connected or disconnecting, output is buffered iff writing is enabled |
| ConnectionSpec.HalfClose | net/tcp_connection/tcp_connection.cc:147-192 | SHUT_WR at most once; then the kernel has every accepted byte, and no later run writes or accepts another |
| ConnectionSpec.HalfCloseWhenDrained | net/tcp_connection/tcp_connection.cc:147-192 | not before shutdown; after it, issued iff the buffer is drained |
| ConnectionSpec.StateMovesForward | net/tcp_connection/tcp_connection.cc:128-212 | the state only moves through connecting, connected, disconnecting, disconnected |
| ConnectionSpec.DisconnectedIgnores | net/tcp_connection/tcp_connection.cc:55-67 | once disconnected, sends and shutdowns have no effect |
| ConnectionSpec.StaysKnown | net/tcp_connection/tcp_connection.cc:137-145 | only connection_destroyed takes the channel out of the poller |
| ConnectionSpec.StepNotes | net/tcp_connection/tcp_connection.cc:90-118 | a high-water callback is posted iff the call crosses the mark, with the new pending length; a completion only with nothing pending |
| ConnectionSpec.HighWaterCountsCrossings | net/tcp_connection/tcp_connection.cc:108-119 | over any run, high-water callbacks count the upward crossings of the mark |
| ConnectionSpec.DrainBetweenCrossings | net/tcp_connection/tcp_connection.cc:175-192 | between two crossings handle_write has drained the output below the mark |
| ConnectionSpec.StepShortens | net/tcp_connection/tcp_connection.cc:180-182 | only handle_write shortens the pending output |
| ConnectionSpec.CompletionExact | net/tcp_connection/tcp_connection.cc:87-93 | a call that gives the kernel bytes posts a completion iff it leaves nothing pending |
| ConnectionLaws.SendGives | net/tcp_connection/tcp_connection.cc:75-124 | a send while connected: what waits stays in front; else the kernel has what it took and the rest waits, all of it on EWOULDBLOCK; only EPIPE or ECONNRESET with nothing waiting drops the payload; writing is enabled iff something waits |
| ConnectionLaws.SendKeepsPayload | net/tcp_connection/tcp_connection.cc:75-124 | the whole payload is kept in order unless the kernel was asked and the peer is gone, and then nothing changes |
| ConnectionLaws.SendPosts | net/tcp_connection/tcp_connection.cc:87-118 | the callbacks a send posts, exactly |
| ConnectionLaws.SendIgnored | net/tcp_connection/tcp_connection.cc:55-56 | a send has no effect unless connected |
| ConnectionLaws.HandleWriteGives | net/tcp_connection/tcp_connection.cc:175-192 | connected or disconnecting, the kernel gets the next bytes of the buffer; when drained, writing is disabled, completion posted, and SHUT_WR issued iff disconnecting |
| ConnectionLaws.HandleWriteIdle | net/tcp_connection/tcp_connection.cc:193-200 | handle_write changes nothing where the kernel takes nothing or nothing waits |
| ConnectionLaws.WritesGive | net/tcp_connection/tcp_connection.cc:175-192 | however the kernel splits it, what is pending goes to it in order |
| ConnectionLaws.ShutdownGives | net/tcp_connection/tcp_connection.cc:147-159 | a shutdown while connected makes it disconnecting and issues SHUT_WR iff nothing waits, and changes nothing else |
| ConnectionLaws.ShutdownIgnored | net/tcp_connection/tcp_connection.cc:147-148 | in any other state it changes nothing |
| ConnectionLaws.ShutdownEndsSending | net/tcp_connection/tcp_connection.cc:55-66 | after it no payload is accepted, whatever follows |
| ConnectionLaws.ShutdownCompletes | net/tcp_connection/tcp_connection.cc:147-192 | after it, any writes that add up to what was waiting end with SHUT_WR issued, after all of it |
| ConnectionLaws.EstablishGives | net/tcp_connection/tcp_connection.cc:128-131 | connected, and registered for EPOLLIN and EPOLLPRI |
| ConnectionLaws.CloseGives | net/tcp_connection/tcp_connection.cc:203-207 | disconnected with an empty mask, bytes untouched |
| ConnectionLaws.DestroyGives | net/tcp_connection/tcp_connection.cc:137-145 | out of the poller, bytes untouched |
| ConnectionEvents.EventResults | net/channel/channel.cc:61-87 | an event ends the connection on a hang-up without input or an end of stream; otherwise the message callback acts iff bytes have come, and then what is pending is flushed iff room for output is reported, as far as the kernel takes it |
| ConnectionEvents.WritesOnce | net/channel/channel.cc:82-86 | handle_write runs iff EPOLLOUT is reported, once, after the rest, with the kernel's own answer |
| ConnectionEvents.EveryResult | net/channel/channel.cc:61-87 | in any sequence of events each has its own result |
| TcpConnections.TcpConnection.constructor | net/tcp_connection/tcp_connection.cc:25-48 | a new connection is connecting, with empty buffers and an unregistered channel of its loop |
| TcpConnections.TcpConnection.SendInLoop | net/tcp_connection/tcp_connection.cc:75-124 | the object does what the transition function says: the whole payload is kept, in order, by socket and buffer, unless the peer is gone |
| TcpConnections.TcpConnection.BufferRest | net/tcp_connection/tcp_connection.cc:108-123 | high-water test, append at the unwritten rest, and enable writing if it was not |
| TcpConnections.TcpConnection.Send | net/tcp_connection/tcp_connection.cc:55-59 | sends only while connected |
| TcpConnections.TcpConnection.Shutdown | net/tcp_connection/tcp_connection.cc:147-153 | while connected it becomes disconnecting, with SHUT_WR issued at once iff the buffer is empty |
| TcpConnections.TcpConnection.ShutdownInLoop | net/tcp_connection/tcp_connection.cc:155-159 | SHUT_WR unless writing is enabled |
| TcpConnections.TcpConnection.ConnectionEstablished | net/tcp_connection/tcp_connection.cc:128-134 | becomes connected and registered for reading, then the callback's acts |
| TcpConnections.TcpConnection.ConnectionDestroyed | net/tcp_connection/tcp_connection.cc:137-145 | leaves the poller and the kernel's set; the callback cannot change the connection any more |
| TcpConnections.TcpConnection.HandleWrite | net/tcp_connection/tcp_connection.cc:175-200 | what the kernel takes leaves the buffer; when drained, writing is disabled and a pending shutdown issued |
| TcpConnections.TcpConnection.HandleClose | net/tcp_connection/tcp_connection.cc:203-212 | disconnected with an empty mask, the callback's acts, and one call of the close callback |
| TcpConnections.TcpConnection.HandleRead | net/tcp_connection/tcp_connection.cc:161-173 | what the message callback takes, as much as it asks for, and what stays are, in order, what was held and what was read; end of stream closes; ok iff read_fd did not overrun |
| TcpConnections.TcpConnection.HandleInput | net/channel/channel.cc:64-80 | close callback, then read callback, by the reported mask; no byte read is lost; the server hears of a hang-up and of an end of stream, once each |
| TcpConnections.TcpConnection.HandleEvent | net/channel/channel.cc:52-87 | close, read and write callbacks in that order; its result by the reported mask and the kernel's answers alone; on EPOLLOUT the socket gets what the kernel takes of the buffer and the buffer keeps the others; no byte read is lost; one close call for a hang-up and for an end of stream |
| ConnectionEvents.ClipRead | net/buffer/buffer.cc:16-23 | a read is cut only where it exceeds tail and overflow area, and never to an end of stream |
| TcpConnections.TcpConnection.KernelWatchesOutput | net/tcp_connection/tcp_connection.cc:108-123 | until removal the kernel holds an open connection's descriptor with its mask, with EPOLLOUT iff output is buffered |
| TcpConnections.TcpConnection.Drive | net/tcp_connection/tcp_connection.cc:75-212 | a real connection through any sequence of events, overflow reads included: each event has its result; hence conservation of what is sent and of what is read, half-close, and one close call for each hang-up and end of stream; it runs to the end whenever read_fd is repaired |
| ConnectionEvents.DrivenOn | net/channel/channel.cc:61-87 | one event more: the acts, the bytes taken and held, and the close calls of a sequence of events follow from those of its events |
| TcpConnections.HandleBeside | net/event_loop/event_loop.cc:83-85 | an event of one connection leaves every other of its poller valid and as it was, so the handlers of the active channels can follow one another |
| Epoll.StillExclusive | net/poller/epoll_poller.cc:60-97 | what is done to one channel leaves another alone with its descriptor, if either has been registered |
| EventLoops.StepFifo | net/event_loop/event_loop.cc:128-207 | each step keeps executed, batch and queue equal to the history of pushes |
| EventLoops.ExactlyOnceFifo | net/event_loop/event_loop.cc:128-207 | in every interleaving functors run at most once, none is lost, in the order of their pushes |
| EventLoops.EveryPushCounts | net/event_loop/event_loop.cc:128-132 | the history of pushes is that of the queue_in_loop calls, from whichever thread |
| EventLoops.BatchIsFixed | net/event_loop/event_loop.cc:193-207 | from swap to end of batch exactly the functors queued before the swap run |
| EventLoops.StepWakeInv | net/event_loop/event_loop.cc:73-161 | each step keeps the wakeup invariant |
| EventLoops.NoLostWakeup | net/event_loop/event_loop.cc:73-161 | in poll_wait with quit set a wakeup is stored or on its way; with functors queued it is so iff the loop thread queued nothing before loop(), or the queue has been swapped since, or another thread has acted |
| EventLoops.FirstWakeup | net/event_loop/event_loop.cc:128-161 | up to the first swap there is a wakeup iff another thread has acted |
| EventLoops.PrimedExactly | net/event_loop/event_loop.cc:128-138 | the exception holds iff queue_in_loop ran on the loop thread before loop() and the queue has not been swapped since |
| EventLoops.NeverPrimedAgain | net/event_loop/event_loop.cc:193-200 | once over, the exception never comes back |
| EventLoops.QueuedBeforeLoopWaits | net/event_loop/event_loop.cc:135-137 | with only the loop thread acting, the first poll is covered iff it queued nothing before loop() |
| EventLoops.WakeArrives | net/event_loop/event_loop.cc:155-161 | a wakeup on its way leaves the eventfd readable, saturated or not |
| EventLoops.QuitStays | net/event_loop/event_loop.cc:79-92 | a quit set after the reset stays set, and a loop thread outside poll_wait is never in it again |
| EventLoops.QuitPollsOnce | net/event_loop/event_loop.cc:79-92 | with quit set, a poll_wait that the loop thread is in is the one it was in all along |
| EventLoops.QuitHonoured | net/event_loop/event_loop.cc:75-108 | from wherever a quit finds the loop thread, poll_wait is never entered again iff the quit comes after loop() has reset the flag |
| EventLoops.QuitEnds | net/event_loop/event_loop.cc:79-108 | a quit after the reset brings a wakeup to a loop thread in poll_wait, and the next test of quit_ leaves the loop |
| EventLoops.EventLoop.QueueInLoop | net/event_loop/event_loop.cc:128-138 | the functor is behind those already queued, and the eventfd written once more iff functors are being run |
| EventLoops.EventLoop.Quit | net/event_loop/event_loop.cc:102-108 | on the loop thread sets the flag and writes no wakeup |
| EventLoops.EventLoop.HandleRead | net/event_loop/event_loop.cc:143-149 | resets the eventfd counter |
| EventLoops.EventLoop.Others | net/event_loop/event_loop.cc:102-138 | other threads post, quit and wake, as an arbitrary environment says for this point of the history |
| EventLoops.EventLoop.Perform | net/event_loop/event_loop.cc:102-138 | a handler or functor queues what it asks to queue, and quits if it asks to, in order, whether functors are being run or not; other threads act before each step |
| EventLoops.EventLoop.Dispatch | net/event_loop/event_loop.cc:83-85 | the handlers of the active channels run in the reported order, all that they ask for done, and the wakeup channel handled wherever it is listed |
| EventLoops.EventLoop.DoPendingFunctions | net/event_loop/event_loop.cc:193-207 | runs the functors queued at its swap, all, in order, once each, with all that they do, whatever other threads do before each step |
| EventLoops.EventLoop.Turn | net/event_loop/event_loop.cc:79-92 | enters poll_wait with a wakeup stored or on its way if functors are queued, sees the wakeup channel iff asked about it with the counter positive, runs every handler, and runs at least those functors |
| EventLoops.EventLoop.Loop | net/event_loop/event_loop.cc:73-96 | takes exactly the steps of its turns, one for each poll result until quit is found set, and exits iff it is; all that handlers and functors ask for is queued, in order, and a quit among it is found; the functors run are those its turns took, and with those queued are all that were pushed |
| EventLoops.LoopDoes | net/event_loop/event_loop.cc:79-92 | the queue_in_loop and quit calls in the loop thread's steps are those of the handlers and functors of its turns, in order |
| EventLoops.QuitLasts | net/event_loop/event_loop.cc:79-108 | a quit asked for after loop() has begun is still set at any later point |
| EventLoops.InterleavedConcat | net/event_loop/event_loop.cc:73-207 | the history of consecutive pieces of loop thread code is that of the whole, other threads acting before each step |
| ThreadPools.EventLoopThreadPool.Start | net/event_loop_thread_pool/event_loop_thread_pool.cc:19-28 | one loop per thread, in order |
| ThreadPools.EventLoopThreadPool.GetNextLoop | net/event_loop_thread_pool/event_loop_thread_pool.cc:35-47 | the k-th call returns loop k mod n, or the base loop if there is none |
| ThreadPools.ServedExactly | net/event_loop_thread_pool/event_loop_thread_pool.cc:35-47 | how often each loop has been returned after k calls |
| ThreadPools.RoundRobinIsFair | net/event_loop_thread_pool/event_loop_thread_pool.cc:35-47 | any two loops have been returned equally often, give or take one |
| Names.DecimalInjective | net/tcp_server/tcp_server.cc:70 | distinct ids have distinct decimal texts |
| Names.DecimalLength | net/tcp_server/tcp_server.cc:69-70 | the number of digits between powers of ten |
| Names.IpPortLength | net/inetaddress/inetaddress.cc:23-30 | an address and port take at most 21 characters |
| Names.NameInjective | net/tcp_server/tcp_server.cc:69-72 | equal names come from equal ids when nothing is truncated |
| Names.LongAddressCollides | net/tcp_server/tcp_server.cc:69-70 | from 52 characters of address on, two ids share a name |
| Names.DecimalReads | net/tcp_server/tcp_server.cc:70 | the digits of an id read back as the id |
| Names.NameGives | net/tcp_server/tcp_server.cc:69-72 | with an address of at most 51 characters the name is the server's, the address and the id, uncut |
| Names.NamesDistinctIff | net/tcp_server/tcp_server.cc:69-72 | names are distinct over all int ids iff the address has at most 51 characters |
| Names.ServerNamesDistinct | net/tcp_server/tcp_server.cc:65-95 | every server's connection names are distinct |
| Servers.HandleCloseKeeps | net/tcp_connection/tcp_connection.cc:203-212 | handle_close, however often it runs, keeps the ownership invariant |
| Servers.CloseOnBaseKeeps | net/tcp_server/tcp_server.cc:112-126 | remove_connection run on the base loop keeps it |
| Servers.CloseOnIoKeeps | net/tcp_server/tcp_server.cc:112-118 | remove_connection posted from an io loop keeps it |
| Servers.QueueDestroyedKeeps | net/tcp_server/tcp_server.cc:127-130 | handing the connection to connection_destroyed on its own loop keeps it |
| Servers.RunNextKeeps | net/event_loop/event_loop.cc:202-204 | running any queued functor keeps it |
| Servers.ActKeeps | net/tcp_connection/tcp_connection.cc:55-200 | whatever a handler, callback or functor sends, shuts down or writes, on any connection of its loop, keeps it |
| Servers.AcceptKeeps | net/tcp_server/tcp_server.cc:65-110 | accepting a connection keeps it |
| Servers.NameIsNew | net/tcp_server/tcp_server.cc:69-95 | the name of a new connection is not in the map, so nothing is overwritten |
| Servers.EraseMoves | net/tcp_server/tcp_server.cc:126 | erase by name removes that connection and no other |
| Servers.StepKeeps | net/tcp_server/tcp_server.cc:65-130 | every step of every loop keeps the ownership invariant |
| Servers.RegisteredIsHeld | net/tcp_server/tcp_server.cc:91-130 | in every run a registered connection is in the map, in an executing removal, or in a queued destruction on its own loop |
| Servers.FreedIsGone | net/tcp_connection/tcp_connection.cc:137-145 | no poller, interest set or active list refers to a freed connection |
| Servers.PollersAgree | net/poller/epoll_poller.cc:60-124 | in every run every poller mirrors the kernel and no epoll_ctl call is fatal, with descriptors reused after a free |
| Servers.ActiveRegistered | net/poller/epoll_poller.cc:100-107 | every active channel is registered with its own loop's poller and its connection held |
| Servers.DispatchIsSafe | net/event_loop/event_loop.cc:79-92 | from poll_wait to the end of the dispatch loop every listed channel stays registered and held |
| Servers.EstablishedFirst | net/tcp_server/tcp_server.cc:107-109 | connection_established runs at most once, before any handler and before any functor that follows a close |
| Servers.StatesMoveForward | net/tcp_connection/tcp_connection.cc:128-212 | over any run of the server every connection's state only moves forward |
| Servers.QuietServer | net/tcp_server/tcp_server.cc:112-130 | with nothing queued or executing, the map holds exactly the registered, open connections, and every other has been freed |
| Servers.StepQueues | net/event_loop/event_loop.cc:128-204 | every loop runs its functors first in, first out: each step takes only the first, to run it, and adds at the end exactly what it queues there |
| Servers.EveryChannelHandled | net/event_loop/event_loop.cc:83-90 | every channel that poll_wait reports has its turn before the functors are taken |
| Servers.AcceptShows | net/tcp_server/tcp_server.cc:65-110 | a new connection has its own name, loop, channel and descriptor, is in the map, and is established at once on the base loop or queued for it on its io loop |
| Servers.EstablishedShows | net/tcp_connection/tcp_connection.cc:128-131 | running its functor establishes the connection as in the connection model |
| Servers.HandleCloseShows | net/tcp_connection/tcp_connection.cc:203-207 | handle_close changes state, mask and registration as in the connection model |
| Servers.DestroyedRunShows | net/tcp_connection/tcp_connection.cc:137-145 | connection_destroyed does as in the connection model |
| Servers.ActIsCall | net/tcp_connection/tcp_connection.cc:55-200 | each send, shutdown or handle_write of the connection model is what some act of the server model does to state, mask and notifications |
| Servers.ActSimulates | net/tcp_connection/tcp_connection.cc:55-200 | an act of the connection model is a step of the server model, notifications included |
| Servers.CallbackSimulates | net/tcp_connection/tcp_connection.cc:55-200 | any sequence of sends, shutdowns and handle_writes, however many notifications it posts, is a run of steps of the server model |
| Servers.EvenSpread | net/tcp_server/tcp_server.cc:67-68 | connections are spread over the io loops evenly, give or take one |

## Left out

- The connection is used on its own loop thread: `send` and `shutdown` called from other threads post functors that carry a raw `this` and a raw character pointer, and their lifetime is not part of this model.
- The server and its threads are modelled as interleavings of steps on values: update in place of the server's own members is not captured there, but the connection, channel, poller, buffer and loop objects are.
- The server is a live one: `~tcp_server`, `~event_loop` and the joining of threads are not part of this model.
- Servers.Accepted: adds to the map and to the poller's channels in one step, because only the base thread reads the map and the new channel is unknown to every other thread.
- Application code that keeps its own shared pointers to connections: they only prolong what the model shows to be long enough.
- The weak pointer of `channel::tie`: the model shows that the connection is held whenever its handlers run.
- The channels of `wakeup_fd_` and of the acceptor in the server model: they are registered once, with descriptors of their own, and never removed while the server lives.
- Epoll.Mask: has the five bits the library sets or tests, not the other bits of an event mask.
- Buffers.Shape: indices are unbounded, except where `size_t` wraps in the overflow branch of `read_fd`; allocation failure is not modelled. A payload longer than `INT_MAX` is outside the model of `send_in_loop`, whose length is an `int`.
- TcpConnections.TcpConnection.HandleEvent: the error callback only logs, so it is no act.
- TcpConnections.TcpConnection.Callback: acts on its own connection; what it does to others of its loop is in module Servers, as steps of their own.
- EventLoops.EventLoop.Loop: runs as many turns as it is given poll results, since the loop itself need not end.
- Logging, time stamps, socket options, `getsockopt`, the doubling of the event list in `poll_wait`, callback setters and `has_channel`'s callers: no state that a property here depends on.
