# neolib reactor core in Dafny

This project models the single-threaded bookkeeping of the neolib `neonet`
reactor:

- **Channel** (`include/net/Channel.h`, `src/net/Channel.cpp`):
  - the requested-event mask and its enable/disable operations, each followed by one `update()`;
  - the tie guard;
  - `handleEventWithGuard`'s mapping from the observed mask to the close, error, read and write callbacks;
  - `remove`, and the destructor's assertions;
  - the debugging text `eventsToString`.
- **EPoller** (`src/net/EPoller.cpp`):
  - the descriptor-to-channel map and the kNew/kAdded/kDeleted tag machine of `updateChannel` and `removeChannel`;
  - `hasChannel` and `fillActiveChannels`;
  - the event buffer of `epoll`, which doubles after a full batch.
- **EventLoop** (`src/net/EventLoop.cpp`):
  - `quit`, `runInLoop` and `queueInLoop`, with their wakeup decisions;
  - `doPendingFunctors`, which swaps the queue out and runs only that batch;
  - the guarded channel operations;
  - construction and teardown of the wakeup channel;
  - `loop`: clear, poll, dispatch in delivery order, drain, until the quit flag is seen.
- **Byte order** (`src/tools/Bytetransfrom.cpp`): `ntoh64` and `hton64`.

## How the model is organised

The three classes refer to one another, so they share the top-level module:

- `Channel` is in `channel.dfy`.
- `EPoller`, with the kernel oracle types `ReadyEvent` and `WaitResult`, is in `epoller.dfy`.
- `EventLoop` is in `event_loop.dfy`.

Their methods update fields in place with field-granular `modifies` clauses. Each method is proved against a pure specification in one of these modules:

- `EpollEvents` (`epoll_events.dfy`):
  - masks are `bv32` with Linux's `<sys/epoll.h>` bit values;
  - the mask operations;
  - `Dispatch`, the callbacks chosen for an observed mask.
- `Registration` (`registration.dfy`):
  - the tag steps;
  - the two `epoll_ctl` refusals it models: EEXIST on a repeated ADD, ENOENT on MOD/DEL of an unregistered descriptor;
  - the growth of the event buffer.
- `LoopTasks` (`loop_tasks.dfy`):
  - the task state: pending queue, drain flag, quit flag, wakeup count and log;
  - the step functions `QueueInLoop`, `Exec`, `Drain`, `HandleEventSpec`, `Cycle` and `RunLoop`;
  - the compositional effects the lemmas relate them to.
- `EventsText` (`events_text.dfy`): the rendering and a parser that inverts it.
- `ByteOrder` (`byte_order.dfy`): the two conversions, specified through the in-memory byte layout.

Modelling choices:

- A callback or task (`std::function<void()>`) is a `Functor`: an id plus the loop operations its body performs, in order. Those operations are queue a task, run a task, and quit.
- Running a task logs `Ran(id)`. Firing a callback logs `Fired(fd, kind)`.
- `wakeup()` is a counter.
- The calling thread is a `ThreadId` argument. `assertInLoopThread`, which only prints in the source, becomes a precondition.
- The kernel interest list is a ghost map from descriptor to (mask, pointer), and every `epoll_ctl` is appended to a ghost log together with whether the kernel accepted it.
- One `epoll_wait` is an oracle value `WaitResult`: the ready events in delivery order, or a failure.
- The `while (!m_quit)` loop of `loop` consumes one `WaitResult` of a script per iteration.

Three behaviours of the code are modelled as written:

- `doPendingFunctors` runs only the batch it swapped out. A task queued while that batch runs stays pending for the next cycle, and each such queueing issues a wakeup (src/net/EventLoop.cpp:138-140, 181-194). `LoopTasks.DrainEffect` states this.
- `updateChannel` issues an ADD for a kNew or kDeleted channel whatever its mask (src/net/EPoller.cpp:70-76). A fresh channel's `disableAll` therefore registers its descriptor with the empty mask (`Registration.UpdateStep`; `DestroyCtls` lists the calls this causes in the destructor).
- `loop` asserts `!m_looping` and that it runs on the loop thread (src/net/EventLoop.cpp:94-95). Nothing prevents entering it again after it returns. `EventLoop.Loop` requires `!looping` and `caller == threadId`.

## Model

| member | source | states |
|---|---|---|
| EpollEvents.EnableReading | include/net/Channel.h:57-60 | both read bits (EPOLLIN, EPOLLPRI) are set afterwards and every other bit, the write bit included, is unchanged |
| EpollEvents.DisableReading | include/net/Channel.h:61-64 | both read bits are clear afterwards and every other bit is unchanged |
| EpollEvents.EnableWriting | include/net/Channel.h:65-68 | EPOLLOUT is set afterwards and every other bit is unchanged |
| EpollEvents.DisableWriting | include/net/Channel.h:69-72 | EPOLLOUT is clear afterwards and every other bit is unchanged |
| EpollEvents.EnableReadingQueries | include/net/Channel.h:84-85 | after enableReading, isReading holds, isNoneEvent fails and isWriting is as before |
| EpollEvents.DisableReadingQueries | include/net/Channel.h:84-85 | after disableReading, isReading fails and isWriting is as before |
| EpollEvents.EnableWritingQueries | include/net/Channel.h:84-85 | after enableWriting, isWriting holds, isNoneEvent fails and isReading is as before |
| EpollEvents.DisableWritingQueries | include/net/Channel.h:84-85 | after disableWriting, isWriting fails and isReading is as before |
| EpollEvents.MaskIsUnionOfEnabledFlags | include/net/Channel.h:57-76 | after any sequence of the five interest calls on a fresh mask, the mask is exactly the read bits if the last call concerning reading enabled it, together with the write bit if the last call concerning writing enabled it |
| EpollEvents.Select | src/net/Channel.cpp:60-75 | each of close, error, read and write is selected iff its slot holds a callback and its condition holds; only installed callbacks are selected |
| EpollEvents.Dispatch | src/net/Channel.cpp:60-75 | close is chosen iff installed and HUP without IN; error iff installed and ERR; read iff installed and one of IN, PRI, RDHUP; write iff installed and OUT; nothing uninstalled is chosen |
| EpollEvents.DispatchOrder | src/net/Channel.cpp:60-75 | the chosen callbacks come in the strict order close, error, read, write, so each at most once |
| EpollEvents.HangupWithInputReadsInsteadOfClosing | src/net/Channel.cpp:60-71 | HUP together with IN does not close, and it runs the read callback when one is installed |
| EpollEvents.DispatchOnlyInstalled | src/net/Channel.cpp:60-75 | only installed callbacks fire, and an empty observed mask fires nothing |
| EventsText.NatToDecimal | src/net/Channel.cpp:89 | the decimal text of a natural number is non-empty and all digits |
| EventsText.IntToDecimal | src/net/Channel.cpp:89 | the text of the descriptor is non-empty and contains neither ':' nor a space |
| EventsText.DecimalRoundTrip | src/net/Channel.cpp:89 | reading the decimal digits back gives the number |
| EventsText.IntRoundTrip | src/net/Channel.cpp:89 | parsing the text of any int, negative ones included, gives that int |
| EventsText.FromShownBits | src/net/Channel.cpp:90-101 | the six displayed flags of a mask rebuild exactly its IN, PRI, OUT, HUP, RDHUP and ERR bits |
| EventsText.Name | src/net/Channel.cpp:90-101 | each of the six tokens starts with a letter that identifies its position |
| EventsText.TokensRoundTrip | src/net/Channel.cpp:90-101 | the token list, in the order IN PRI OUT HUP RDHUP ERR with trailing spaces, parses back to exactly the flags that were set |
| EventsText.EventsToStringRoundTrip | src/net/Channel.cpp:87-103 | the rendering `"<fd>: "` plus tokens determines the descriptor and exactly the displayed bits of the mask |
| Registration.Ctl | src/net/EPoller.cpp:104-122 | the kernel accepts an ADD iff the descriptor is unregistered, and a MOD or DEL iff it is registered; a rejected call changes nothing; an accepted ADD or MOD records the mask and pointer; an accepted DEL removes the entry |
| Registration.UpdatePreservesConsistency | src/net/EPoller.cpp:65-86 | from a consistent tag (mapped iff not kNew, in the kernel iff kAdded), updateChannel always issues an operation the kernel accepts and leaves the tag consistent |
| Registration.RemovePreservesConsistency | src/net/EPoller.cpp:88-96 | from a consistent tag, removeChannel issues a DEL exactly when the kernel holds the descriptor, and it leaves the channel in neither the map nor the kernel with tag kNew |
| Registration.RunCallsConsistent | src/net/EPoller.cpp:65-96 | over any sequence of updateChannel and removeChannel calls on a fresh channel, under the modelled kernel (EEXIST and ENOENT only) no call is rejected and the tag always agrees with map and kernel membership |
| Registration.Delivered | src/net/EPoller.cpp:36-37 | epoll_wait delivers all ready events or fills the buffer, never more than either |
| Registration.NextCapacityIsBufferSize | src/net/EPoller.cpp:42-44 | the buffer stays 16 times a power of two, never shrinks, and changes iff the returned count is positive and equals its size |
| Registration.CapacityAfterIsBufferSize | include/net/EPoller.h:81-86 | after any series of epoll_wait results, starting from kInitEventListSize = 16, the buffer is a reachable size of at least 16 |
| EPoller.constructor | src/net/EPoller.cpp:25-31 | the map, the kernel list and the ctl log start empty and the buffer has 16 slots |
| EPoller.HasChannelIffNotNew | src/net/EPoller.cpp:98-102 | for a tracked channel, hasChannel holds iff its tag is not kNew, so it is then kAdded or kDeleted |
| EPoller.Ctl | src/net/EPoller.cpp:104-122 | one epoll_ctl with the channel's current mask and pointer: the kernel list becomes Registration.Ctl's result and the call is logged with its outcome |
| EPoller.UpdateChannel | src/net/EPoller.cpp:65-86 | kNew: map entry inserted, tag kAdded, ADD; kDeleted: tag kAdded, ADD, map unchanged; kAdded with an empty mask: DEL, tag kDeleted, entry kept; kAdded otherwise: MOD, tag kept; exactly one accepted call is logged, and the map/tag/kernel invariant is preserved |
| EPoller.RemoveChannel | src/net/EPoller.cpp:88-96 | only the descriptor's map entry is erased, a DEL is issued (and accepted) iff the tag was kAdded, the tag becomes kNew, and the invariant is preserved |
| EPoller.DeliveredAreRegistered | src/net/EPoller.cpp:59 | every channel pointer the kernel hands back is a channel in the map |
| EPoller.FillActiveChannels | src/net/EPoller.cpp:56-63 | the result lists the channels of the first n events in delivery order, each stamped with its event's observed mask |
| EPoller.Epoll | src/net/EPoller.cpp:35-54 | a positive count n fills n active channels in delivery order with their masks and doubles the buffer iff n equals its size; zero or an error delivers nothing and keeps the size; the channels of events past the delivered count keep their observed mask |
| Channel.constructor | include/net/Channel.h:135-155 | a fresh channel has tag kNew, mask 0, revents 0, no tie, no dispatch in progress, is not added to the loop, and has no callbacks |
| Channel.SetReadCallback | include/net/Channel.h:42 | the read slot becomes LoopTasks.SetSlot of the argument: filled by a callback, emptied by an empty one; the other slots are kept |
| Channel.SetWriteCallback | include/net/Channel.h:43 | the write slot becomes LoopTasks.SetSlot of the argument: filled by a callback, emptied by an empty one; the other slots are kept |
| Channel.SetCloseCallback | include/net/Channel.h:44 | the close slot becomes LoopTasks.SetSlot of the argument: filled by a callback, emptied by an empty one; the other slots are kept |
| Channel.SetErrorCallback | include/net/Channel.h:45 | the error slot becomes LoopTasks.SetSlot of the argument: filled by a callback, emptied by an empty one; the other slots are kept |
| Channel.SetRevents | include/net/Channel.h:50 | the observed mask becomes the given one |
| Channel.Tie | src/net/Channel.cpp:29-32 | the channel is tied, and the owner is alive exactly when the pointer given is not empty |
| Channel.OwnerReleased | include/net/Channel.h:140 | the tied owner is gone, so locking the weak pointer now fails |
| Channel.Update | src/net/Channel.cpp:34-37 | the channel is marked as added to the loop and the EPoller performs exactly one updateChannel on it |
| Channel.EnableReading | include/net/Channel.h:57-60 | the mask becomes EpollEvents.EnableReading of the old mask, then one update with the new mask |
| Channel.DisableReading | include/net/Channel.h:61-64 | the mask becomes EpollEvents.DisableReading of the old mask, then one update |
| Channel.EnableWriting | include/net/Channel.h:65-68 | the mask becomes EpollEvents.EnableWriting of the old mask, then one update |
| Channel.DisableWriting | include/net/Channel.h:69-72 | the mask becomes EpollEvents.DisableWriting of the old mask, then one update |
| Channel.DisableAll | include/net/Channel.h:73-76 | the mask becomes 0, isNoneEvent holds, then one update |
| Channel.Remove | src/net/Channel.cpp:39-43 | only with an empty mask: the channel is marked as not added and the EPoller performs removeChannel on it |
| Channel.HandleEvent | src/net/Channel.cpp:45-55 | the loop state becomes LoopTasks.HandleEventSpec: nothing runs when tied to a dead owner, otherwise the Dispatch selection fires |
| Channel.HandleEventWithGuard | src/net/Channel.cpp:57-77 | eventHandling is raised while the callbacks Dispatch selects for the observed mask fire in its order (each step requires it), and lowered afterwards |
| Channel.TryCallback | src/net/Channel.cpp:60-75 | one guarded slot, only while eventHandling is raised: its callback fires iff its condition holds and the slot holds a callback |
| LoopTasks.ExecEffect | src/net/EventLoop.cpp:126 | running a task on the loop thread has exactly the compositional effect of the task: its start entry, then its body's entries, tasks and quit request |
| LoopTasks.RunBatchEffect | src/net/EventLoop.cpp:190-192 | running a batch in order has exactly the concatenated effects of its tasks |
| LoopTasks.DrainEffect | src/net/EventLoop.cpp:181-194 | a drain runs exactly the tasks pending at the swap, in order; the tasks they queue stay pending, with one wakeup each; the drain flag is lowered afterwards |
| LoopTasks.DrainPlainTasks | src/net/EventLoop.cpp:181-194 | draining tasks that queue nothing logs their ids in queue order and leaves the queue empty, with no wakeup |
| LoopTasks.BatchEffectSnoc | src/net/EventLoop.cpp:135 | appending a task to the queue appends its effect after the effects of the tasks already queued |
| LoopTasks.QueueOrder | src/net/EventLoop.cpp:132-136 | two tasks queued one after the other are pending in that order, and the next drain logs the earlier tasks' entries, then the first task's, then the second's |
| LoopTasks.QueueWakes | src/net/EventLoop.cpp:138-140 | queueInLoop wakes the loop iff the caller is off the loop thread or a drain is in progress, and it keeps the existing queue as a prefix |
| LoopTasks.RunInLoopEffect | src/net/EventLoop.cpp:124-130 | on the loop thread the task runs at once (and the queue is unchanged for a task that queues nothing); off it the task is appended and the loop woken |
| LoopTasks.QuitIdempotent | src/net/EventLoop.cpp:117-122 | quit sets the flag whatever it was, a second call leaves the same flag, and the queue and log are untouched |
| LoopTasks.FireAllEffect | src/net/Channel.cpp:60-75 | firing a list of callbacks has exactly their concatenated effects |
| LoopTasks.TaskTraceHasNoFired | src/net/EventLoop.cpp:190-192 | running a task never logs a callback of a channel |
| LoopTasks.FiringLogsKindsInOrder | src/net/Channel.cpp:60-75 | firing a list of callbacks logs exactly one callback entry per kind, in list order |
| LoopTasks.FireAllLogs | src/net/Channel.cpp:60-75 | firing installed callbacks adds exactly their callback entries to the log, in order |
| LoopTasks.HandleEventLogsDispatch | src/net/Channel.cpp:45-77 | a channel tied to a dead owner changes nothing; otherwise exactly the callbacks Dispatch selects are logged, in its order |
| LoopTasks.RunLoopStopsOnlyOnQuit | src/net/EventLoop.cpp:99-111 | the loop runs at most one iteration per poll result, it stops before the results run out only with the quit flag set, and a set flag at the head runs nothing |
| LoopTasks.RunLoopSnoc | src/net/EventLoop.cpp:99-111 | a loop that has not stopped runs one more cycle for one more poll result |
| LoopTasks.QuitInDrainEndsLoop | src/net/EventLoop.cpp:99-111 | a cycle whose callbacks or drained tasks request quit is the last iteration |
| TurnedTasksSnoc | src/net/EventLoop.cpp:99-111 | polling the next result into the current buffer and running one cycle extends the loop's history by one batch, with the buffer grown per epoll |
| WakeupHandler | src/net/EventLoop.cpp:70-78 | the wakeup channel's read callback performs no loop operation: running it only logs its start |
| EventLoop.constructor | src/net/EventLoop.cpp:54-81 | a fresh EPoller; the wakeup channel on the wakeup descriptor has its read callback set and reading enabled; under the modelled kernel, the kernel holds exactly that descriptor with the read mask after one accepted ADD; all flags are clear and the queue is empty |
| EventLoop.Destroy | src/net/EventLoop.cpp:83-91 | the wakeup channel's mask is cleared and it is removed: only its entries leave the map and the kernel, the ctl log grows by DestroyCtls, its tag is kNew, and its destructor's assertions hold |
| EventLoop.Wakeup | src/net/EventLoop.cpp:148-154 | one more wakeup is recorded |
| EventLoop.Quit | src/net/EventLoop.cpp:117-122 | the task state becomes LoopTasks.QuitLoop: the flag is set, with a wakeup only off the loop thread |
| EventLoop.QueueInLoop | src/net/EventLoop.cpp:132-141 | the task state becomes LoopTasks.QueueInLoop: the task is appended, with a wakeup iff off the loop thread or during a drain |
| EventLoop.RunInLoop | src/net/EventLoop.cpp:124-130 | the task state becomes LoopTasks.RunInLoop: run now on the loop thread, queued otherwise |
| EventLoop.RunFunctor | src/net/EventLoop.cpp:126 | running a task logs its start, then performs its body |
| EventLoop.FireCallback | src/net/Channel.cpp:61-62 | calling a channel's callback logs it, then performs its body |
| EventLoop.PerformBody | src/net/EventLoop.cpp:191 | a task's loop operations are performed in order |
| EventLoop.DoPendingFunctors | src/net/EventLoop.cpp:181-194 | the task state becomes LoopTasks.Drain: the swapped batch runs in order (see DrainEffect) |
| EventLoop.UpdateChannel | src/net/EventLoop.cpp:156-160 | only for this loop's channel on the loop thread: the EPoller performs updateChannel |
| EventLoop.RemoveChannel | src/net/EventLoop.cpp:162-166 | only for this loop's channel on the loop thread: the EPoller performs removeChannel, and the descriptor leaves map and kernel |
| EventLoop.Poll | src/net/EventLoop.cpp:100-102 | the active list is cleared, then exactly the delivered channels are listed in delivery order with their masks, undelivered events leave their channels' masks alone, and the buffer grows per epoll |
| EventLoop.DispatchActive | src/net/EventLoop.cpp:103-108 | with eventHandling raised (required), each active channel is dispatched in turn: the task state becomes LoopTasks.DispatchAll of their views |
| EventLoop.DispatchAndDrain | src/net/EventLoop.cpp:103-110 | dispatch with eventHandling raised, then lowered with no current channel, then drain: the task state becomes LoopTasks.Cycle |
| EventLoop.Iterate | src/net/EventLoop.cpp:99-111 | one iteration: the dispatched views are the delivered channels in order with their masks, ties and callbacks, the task state becomes LoopTasks.Cycle of them, and the buffer grows per epoll |
| EventLoop.Turn | src/net/EventLoop.cpp:99-111 | one iteration extends the loop history by the batch it dispatched |
| EventLoop.Turns | src/net/EventLoop.cpp:99-114 | iterations run while the quit flag is clear; the loop ends only on the flag, and then it stops looping |
| EventLoop.Loop | src/net/EventLoop.cpp:93-115 | only on the loop thread and when not looping: the quit flag is cleared, then the task state is LoopTasks.RunLoop of the dispatched batches, each the views of one poll result; it stops early only on quit, with looping false exactly then |
| LoopTasks.SetSlot | include/net/Channel.h:42-45 | a slot holds a callback iff the setter was given a non-empty one, which it then holds; every other slot is unchanged |
| LoopTasks.ClearedSlotNeverFires | src/net/Channel.cpp:61-74 | a slot emptied by a setter never fires, whatever the observed mask |
| LoopTasks.DispatchedEntries | src/net/EventLoop.cpp:104-107 | the callback entries of dispatching views in order: the Dispatch selection of every view not suppressed by its tie |
| LoopTasks.DispatchAllLogs | src/net/EventLoop.cpp:104-107 | dispatching the active channels logs exactly DispatchedEntries of their views: each channel's selected callbacks, channel by channel in delivery order |
| LoopTasks.BatchTraceHasNoFired | src/net/EventLoop.cpp:190-192 | a drained batch logs no channel callback |
| LoopTasks.CycleLogs | src/net/EventLoop.cpp:100-110 | the callbacks one loop iteration logs are exactly those its dispatch selects, in delivery order; the drain adds none |
| LoopTasks.QueueInLoop | src/net/EventLoop.cpp:132-141 | queueInLoop on the task state: append at the back, wake iff off the loop thread or during a drain |
| LoopTasks.QuitLoop | src/net/EventLoop.cpp:117-122 | quit on the task state: set the flag, wake only off the loop thread |
| LoopTasks.RunInLoop | src/net/EventLoop.cpp:124-130 | runInLoop on the task state: run at once on the loop thread, queue otherwise |
| LoopTasks.Exec | src/net/EventLoop.cpp:126 | running a task on the loop thread: log its start, then perform its body |
| LoopTasks.PerformUpTo | src/net/EventLoop.cpp:191 | the first k loop operations of a task body, in order |
| LoopTasks.RunBatch | src/net/EventLoop.cpp:190-192 | the `for` loop of doPendingFunctors: the batch's tasks run in order |
| LoopTasks.Drain | src/net/EventLoop.cpp:181-194 | doPendingFunctors: raise the flag, swap the queue out, run the swapped batch, lower the flag |
| LoopTasks.Fire | src/net/Channel.cpp:61-62 | calling one callback of a channel: log it, then perform its body |
| LoopTasks.FireAll | src/net/Channel.cpp:60-75 | calling a list of callbacks of a channel in order |
| LoopTasks.HandleEventSpec | src/net/Channel.cpp:45-77 | handleEvent on the task state: nothing when tied to a dead owner, otherwise the Dispatch selection fires |
| LoopTasks.DispatchAll | src/net/EventLoop.cpp:104-107 | handleEvent for each active channel in delivery order |
| LoopTasks.Cycle | src/net/EventLoop.cpp:100-110 | one iteration after the poll: dispatch, then drain |
| LoopTasks.RunLoop | src/net/EventLoop.cpp:99-111 | the iterations of the `while (!m_quit)` loop, one per poll result, stopping when the flag is seen at the head |
| DestroyCtls | src/net/EventLoop.cpp:87-88 | the epoll_ctl calls of disableAll then remove: one DEL if the channel was added, else an ADD with the empty mask then a DEL |
| NumEvents | src/net/EPoller.cpp:36-37 | the return value of epoll_wait: the delivered count, or -1 on failure |
| EventsText.EventsToString | src/net/Channel.cpp:87-103 | the rendering: the descriptor in decimal, ": ", then the tokens of the set bits among IN PRI OUT HUP RDHUP ERR, each with a trailing space |
| EPoller.HasChannel | src/net/EPoller.cpp:98-102 | on the owner thread: the map holds this very channel under its descriptor |
| EventLoop.HasChannel | src/net/EventLoop.cpp:168-172 | for this loop's channel on the loop thread: the EPoller's hasChannel |
| EventLoop.IsInLoopThread | include/net/EventLoop.h:85-87 | the caller is the loop's own thread |
| Channel.Destructible | src/net/Channel.cpp:21-27 | the destructor's assertions: not dispatching, not added to the loop, and, on the loop thread, unknown to the EPoller |
| Channel.IsNoneEvent | include/net/Channel.h:51 | the requested mask is empty |
| Channel.IsReading | include/net/Channel.h:85 | a read bit of the requested mask is set |
| Channel.IsWriting | include/net/Channel.h:84 | the write bit of the requested mask is set |
| EpollEvents.IsNoneEvent | include/net/Channel.h:51 | a mask equal to kNoneEvent |
| EpollEvents.IsReading | include/net/Channel.h:85 | a mask sharing a bit with kReadEvent |
| EpollEvents.IsWriting | include/net/Channel.h:84 | a mask sharing a bit with kWriteEvent |
| EpollEvents.ClosesOn | src/net/Channel.cpp:60 | HUP set and IN clear |
| EpollEvents.ErrsOn | src/net/Channel.cpp:64 | ERR set |
| EpollEvents.ReadsOn | src/net/Channel.cpp:68 | one of IN, PRI, RDHUP set |
| EpollEvents.WritesOn | src/net/Channel.cpp:72 | OUT set |
| EpollEvents.ApplyAll | include/net/Channel.h:57-76 | the mask after a sequence of enable/disable calls |
| Registration.UpdateStep | src/net/EPoller.cpp:65-86 | updateChannel's choice: ADD and kAdded for kNew or kDeleted whatever the mask; for kAdded, DEL and kDeleted on an empty mask, MOD and the same tag otherwise |
| Registration.RemoveStep | src/net/EPoller.cpp:88-96 | removeChannel's choice: DEL only for kAdded, and the tag becomes kNew |
| Registration.UpdateMap | src/net/EPoller.cpp:70-74 | updateChannel inserts the map entry only for a kNew channel |
| Registration.Perform | src/net/EPoller.cpp:65-96 | one updateChannel or removeChannel call on a channel's tag, map and kernel membership |
| Registration.RunCalls | src/net/EPoller.cpp:65-96 | a fresh channel after a sequence of those calls |
| Registration.NextCapacity | src/net/EPoller.cpp:42-44 | the buffer doubles when the returned count is positive and equals its size |
| Registration.CapacityAfter | src/net/EPoller.cpp:35-54 | the buffer size after a series of epoll_wait results, from 16 slots |
| ByteOrder.Bswap64 | src/tools/Bytetransfrom.cpp:18 | bswap_64: the bytes of the result, least significant first, are the bytes of the argument in reverse order |
| ByteOrder.Bswap64ReversesBytes | src/tools/Bytetransfrom.cpp:18 | bswap_64 reverses the eight bytes: byte i of the result is byte 7 - i of the argument |
| ByteOrder.Ntoh64 | src/tools/Bytetransfrom.cpp:16-21 | the result is the in-memory bytes of the argument read as a big-endian (network order) number, on either host |
| ByteOrder.Hton64 | src/tools/Bytetransfrom.cpp:23-28 | the result's in-memory bytes are the argument's bytes in network (big-endian) order, on either host |
| ByteOrder.Bswap64Involution | src/tools/Bytetransfrom.cpp:16-28 | swapping twice gives the original value |
| ByteOrder.NtohIsHton | src/tools/Bytetransfrom.cpp:16-28 | ntoh64 and hton64 compute the same function |
| ByteOrder.BigEndianHostIsIdentity | src/tools/Bytetransfrom.cpp:16-28 | on a big-endian host both conversions return their argument |
| ByteOrder.LittleEndianHostReversesBytes | src/tools/Bytetransfrom.cpp:17-18 | on a little-endian host byte i of either result is byte 7 - i of the argument |
| ByteOrder.RoundTrip | src/tools/Bytetransfrom.cpp:16-28 | converting to network order and back, or back and forth, gives the original value on either host |

## Left out

- Threads, the mutex, the atomic flags and the `__thread` loop pointer are not modelled. The calling thread is an argument and nothing interleaves.
- `wakeup()` writes to an eventfd and the wakeup channel's read callback reads it. The write is a counter here, and the read callback performs no loop operation (`WakeupHandler`).
- `epoll_create1`, `close` and the real `epoll_ctl`/`epoll_wait` are replaced by the ghost kernel list, the ctl log and the `WaitResult` oracle.
- The EINTR test in `epoll` only affects what is printed, so a failed wait is one case.
- `m_events` is modelled by its size only. The event records are the oracle's.
- All `std::cout` logging is left out, including the mask printed at the start of `handleEventWithGuard`, `printActiveChannels`, `operationToString` and `abortNotInLoopThread`'s message.
- The instance wrappers `reventsToString`/`eventsToString()` around the rendering are left out.
- `queueSize`, the getters, `IgnoreSigPipe`, the one-loop-per-thread check of the constructor, the syscall wrappers, Acceptor, TCPConnection and NetAddress are not part of this model.
- Callbacks and tasks are reduced to the loop operations they perform and the log. A callback that changes a channel or the poller is not modelled.
- `EventLoop.Loop`:
  - It runs over a finite script of poll results. If the script runs out before quit, the loop is still blocked in `epoll_wait` and still looping.
  - The channels' ties and callbacks are given as a ghost snapshot `statics`.
  - It requires that the kernel can deliver every script result, which is the oracle's contract.
- `EPoller.UpdateChannel` requires `Tracks(c)`: that `c` is the channel the map holds for its descriptor, which means one channel per descriptor. The source assumes this without checking; a second channel on the same descriptor would overwrite the map entry.
- `EPoller.RemoveChannel` requires `Tracks(c)` for the same reason.
- `Channel.Update` requires that the caller is on the loop thread and that the channel is tracked. The same holds for the enable/disable calls and `Channel.Remove`, as in `EventLoop::updateChannel`.
- `Registration.Ctl` models only the EEXIST and ENOENT refusals of `epoll_ctl`. A call refused for another reason is not modelled: EBADF on the -1 that a failed `eventfd` returns (src/net/EventLoop.cpp:33-38, only printed), EPERM, ENOMEM or ENOSPC. In the source such a refused ADD is only printed (src/net/EPoller.cpp:113-121), and the tag still becomes kAdded with the descriptor not in the kernel. `Registration.RunCallsConsistent`, `EPoller.UpdateChannel` and `EventLoop.constructor` hold for this idealised kernel only.
- `EventLoop.Destroy` does not model closing the wakeup descriptor or clearing the thread's loop pointer.
