/**
 * Channel (include/net/Channel.h, src/net/Channel.cpp): one descriptor's
 * requested events, observed events, registration tag and callbacks.
 *
 * The classes Channel, EPoller and EventLoop refer to one another, so they
 * share the top-level module; the pure definitions they are proved against
 * live in the modules EpollEvents, Registration and LoopTasks.
 *
 * A thread is identified by a ThreadId; a method that the source guards with
 * `assertInLoopThread` takes the calling thread and requires it to be the
 * loop's own.
 */

type ThreadId = nat

class Channel {
  const loop: EventLoop
  const fd: int
  /** kNew, kAdded or kDeleted, as set by EPoller. */
  var index: int
  var events: EpollEvents.Mask
  var revents: EpollEvents.Mask
  /** `m_isTied`, and whether the object the weak pointer refers to is still alive. */
  var tied: bool
  var ownerAlive: bool
  var eventHandling: bool
  var addedToLoop: bool
  /** The four callback slots; a slot without a key holds no callback. */
  var callbacks: map<EpollEvents.CallbackKind, LoopTasks.Functor>

  /** A fresh Channel: tag kNew, no interest, nothing observed, untied, idle, not added, no callbacks. */
  constructor(loop: EventLoop, fd: int)
    ensures this.loop == loop && this.fd == fd
    ensures index == Registration.New && events == EpollEvents.NoneEvent && revents == EpollEvents.NoneEvent
    ensures !tied && !eventHandling && !addedToLoop && callbacks == map[]
  {
    this.loop := loop;
    this.fd := fd;
    index := Registration.New;
    events := EpollEvents.NoneEvent;
    revents := EpollEvents.NoneEvent;
    tied := false;
    ownerAlive := false;
    eventHandling := false;
    addedToLoop := false;
    callbacks := map[];
  }

  function IsNoneEvent(): bool reads this`events { EpollEvents.IsNoneEvent(events) }
  function IsReading(): bool reads this`events { EpollEvents.IsReading(events) }
  function IsWriting(): bool reads this`events { EpollEvents.IsWriting(events) }

  /** What `handleEvent` depends on. */
  function View(): LoopTasks.ChannelView
    reads this`revents, this`tied, this`ownerAlive, this`callbacks
  {
    LoopTasks.ChannelView(fd, revents, tied, ownerAlive, callbacks)
  }

  method SetReadCallback(cb: Wrappers.Option<LoopTasks.Functor>)
    modifies this`callbacks
    ensures callbacks == LoopTasks.SetSlot(old(callbacks), EpollEvents.ReadCallback, cb)
  {
    callbacks := LoopTasks.SetSlot(callbacks, EpollEvents.ReadCallback, cb);
  }

  method SetWriteCallback(cb: Wrappers.Option<LoopTasks.Functor>)
    modifies this`callbacks
    ensures callbacks == LoopTasks.SetSlot(old(callbacks), EpollEvents.WriteCallback, cb)
  {
    callbacks := LoopTasks.SetSlot(callbacks, EpollEvents.WriteCallback, cb);
  }

  method SetCloseCallback(cb: Wrappers.Option<LoopTasks.Functor>)
    modifies this`callbacks
    ensures callbacks == LoopTasks.SetSlot(old(callbacks), EpollEvents.CloseCallback, cb)
  {
    callbacks := LoopTasks.SetSlot(callbacks, EpollEvents.CloseCallback, cb);
  }

  method SetErrorCallback(cb: Wrappers.Option<LoopTasks.Functor>)
    modifies this`callbacks
    ensures callbacks == LoopTasks.SetSlot(old(callbacks), EpollEvents.ErrorCallback, cb)
  {
    callbacks := LoopTasks.SetSlot(callbacks, EpollEvents.ErrorCallback, cb);
  }

  method SetRevents(revt: EpollEvents.Mask)
    modifies this`revents
    ensures revents == revt
  {
    revents := revt;
  }

  /**
   * `tie(obj)`: from now on dispatch happens only while the tied object is
   * alive; `alive` is false when `obj` is an empty pointer, whose `lock()`
   * always fails.
   */
  method Tie(alive: bool)
    modifies this`tied, this`ownerAlive
    ensures tied && ownerAlive == alive
  {
    tied := true;
    ownerAlive := alive;
  }

  /** The tied object has been destroyed elsewhere: locking the weak pointer now fails. */
  method OwnerReleased()
    modifies this`ownerAlive
    ensures !ownerAlive
  {
    ownerAlive := false;
  }

  /**
   * The outcome of one `update()`: the channel is marked as added and EPoller
   * has performed `updateChannel` on it, starting from the given tag, map,
   * kernel interest list and ctl log.
   */
  ghost predicate Updated(oldIndex: int, oldChannels: map<int, Channel>,
                          oldKernel: map<int, Registration.Interest<Channel>>, oldLog: seq<Registration.CtlCall>)
    reads this, loop, loop.poller, loop.poller.Registered()`index
  {
    addedToLoop && loop.Valid() && loop.poller.Tracks(this)
    && loop.poller.UpdatedBy(this, oldIndex, oldChannels, oldKernel, oldLog)
  }

  /** `update`: mark the channel as added and hand it to the loop's `updateChannel`. */
  method Update(caller: ThreadId)
    requires caller == loop.threadId && loop.Valid() && loop.poller.Tracks(this)
    modifies this`addedToLoop, this`index, loop.poller`channels, loop.poller`kernel, loop.poller`ctlLog
    ensures Updated(old(index), old(loop.poller.channels), old(loop.poller.kernel), old(loop.poller.ctlLog))
  {
    addedToLoop := true;
    loop.UpdateChannel(this, caller);
  }

  /** `enableReading`: set both read bits, then one update. */
  method EnableReading(caller: ThreadId)
    requires caller == loop.threadId && loop.Valid() && loop.poller.Tracks(this)
    modifies this`events, this`addedToLoop, this`index, loop.poller`channels, loop.poller`kernel, loop.poller`ctlLog
    ensures events == EpollEvents.EnableReading(old(events))
    ensures Updated(old(index), old(loop.poller.channels), old(loop.poller.kernel), old(loop.poller.ctlLog))
  {
    events := EpollEvents.EnableReading(events);
    Update(caller);
  }

  /** `disableReading`: clear both read bits, then one update. */
  method DisableReading(caller: ThreadId)
    requires caller == loop.threadId && loop.Valid() && loop.poller.Tracks(this)
    modifies this`events, this`addedToLoop, this`index, loop.poller`channels, loop.poller`kernel, loop.poller`ctlLog
    ensures events == EpollEvents.DisableReading(old(events))
    ensures Updated(old(index), old(loop.poller.channels), old(loop.poller.kernel), old(loop.poller.ctlLog))
  {
    events := EpollEvents.DisableReading(events);
    Update(caller);
  }

  /** `enableWriting`: set the write bit, then one update. */
  method EnableWriting(caller: ThreadId)
    requires caller == loop.threadId && loop.Valid() && loop.poller.Tracks(this)
    modifies this`events, this`addedToLoop, this`index, loop.poller`channels, loop.poller`kernel, loop.poller`ctlLog
    ensures events == EpollEvents.EnableWriting(old(events))
    ensures Updated(old(index), old(loop.poller.channels), old(loop.poller.kernel), old(loop.poller.ctlLog))
  {
    events := EpollEvents.EnableWriting(events);
    Update(caller);
  }

  /** `disableWriting`: clear the write bit, then one update. */
  method DisableWriting(caller: ThreadId)
    requires caller == loop.threadId && loop.Valid() && loop.poller.Tracks(this)
    modifies this`events, this`addedToLoop, this`index, loop.poller`channels, loop.poller`kernel, loop.poller`ctlLog
    ensures events == EpollEvents.DisableWriting(old(events))
    ensures Updated(old(index), old(loop.poller.channels), old(loop.poller.kernel), old(loop.poller.ctlLog))
  {
    events := EpollEvents.DisableWriting(events);
    Update(caller);
  }

  /** `disableAll`: clear the whole mask, then one update. */
  method DisableAll(caller: ThreadId)
    requires caller == loop.threadId && loop.Valid() && loop.poller.Tracks(this)
    modifies this`events, this`addedToLoop, this`index, loop.poller`channels, loop.poller`kernel, loop.poller`ctlLog
    ensures events == EpollEvents.NoneEvent && IsNoneEvent()
    ensures Updated(old(index), old(loop.poller.channels), old(loop.poller.kernel), old(loop.poller.ctlLog))
  {
    events := EpollEvents.NoneEvent;
    Update(caller);
  }

  /** `remove`: only with an empty mask; mark the channel as not added and hand it to `removeChannel`. */
  method Remove(caller: ThreadId)
    requires IsNoneEvent()
    requires caller == loop.threadId && loop.Valid() && loop.poller.Tracks(this)
    modifies this`addedToLoop, this`index, loop.poller`channels, loop.poller`kernel, loop.poller`ctlLog
    ensures !addedToLoop && loop.Valid() && loop.poller.Tracks(this)
    ensures loop.poller.RemovedBy(this, old(index), old(loop.poller.channels), old(loop.poller.kernel), old(loop.poller.ctlLog))
  {
    addedToLoop := false;
    loop.RemoveChannel(this, caller);
  }

  /** `handleEvent`: dispatch unless the channel is tied and the tied object is gone. */
  method HandleEvent()
    modifies this`eventHandling, loop`pending, loop`wakeups, loop`quit, loop`log
    ensures loop.State() == LoopTasks.HandleEventSpec(old(loop.State()), View())
    ensures eventHandling == (if LoopTasks.Suppressed(View()) then old(eventHandling) else false)
  {
    if tied {
      if ownerAlive {
        HandleEventWithGuard();
      }
    } else {
      HandleEventWithGuard();
    }
  }

  /**
   * `handleEventWithGuard`: with `eventHandling` raised, try close, error,
   * read and write in that order, each when its condition on `revents` holds
   * and its slot holds a callback.
   */
  method HandleEventWithGuard()
    modifies this`eventHandling, loop`pending, loop`wakeups, loop`quit, loop`log
    ensures loop.State() == LoopTasks.FireAll(old(loop.State()), View(), EpollEvents.Dispatch(revents, callbacks.Keys))
    ensures !eventHandling
  {
    eventHandling := true;
    ghost var s0 := loop.State();
    TryCallback(EpollEvents.CloseCallback, EpollEvents.ClosesOn(revents), s0, []);
    ghost var fired := EpollEvents.FireIf(EpollEvents.CloseCallback, callbacks.Keys, EpollEvents.ClosesOn(revents));
    assert [] + fired == fired;
    TryCallback(EpollEvents.ErrorCallback, EpollEvents.ErrsOn(revents), s0, fired);
    fired := fired + EpollEvents.FireIf(EpollEvents.ErrorCallback, callbacks.Keys, EpollEvents.ErrsOn(revents));
    TryCallback(EpollEvents.ReadCallback, EpollEvents.ReadsOn(revents), s0, fired);
    fired := fired + EpollEvents.FireIf(EpollEvents.ReadCallback, callbacks.Keys, EpollEvents.ReadsOn(revents));
    TryCallback(EpollEvents.WriteCallback, EpollEvents.WritesOn(revents), s0, fired);
    eventHandling := false;
  }

  /**
   * One step of `handleEventWithGuard`, always with `eventHandling` raised:
   * when `condition` holds and the `kind` slot holds a callback, call it; the
   * callbacks `fired` have run already.
   */
  method TryCallback(kind: EpollEvents.CallbackKind, condition: bool,
                     ghost s0: LoopTasks.TaskState, ghost fired: seq<EpollEvents.CallbackKind>)
    requires eventHandling
    requires forall i | 0 <= i < |fired| :: fired[i] in callbacks
    requires loop.State() == LoopTasks.FireAll(s0, View(), fired)
    modifies loop`pending, loop`wakeups, loop`quit, loop`log
    ensures forall i | 0 <= i < |fired + EpollEvents.FireIf(kind, callbacks.Keys, condition)| ::
              (fired + EpollEvents.FireIf(kind, callbacks.Keys, condition))[i] in callbacks
    ensures loop.State() == LoopTasks.FireAll(s0, View(), fired + EpollEvents.FireIf(kind, callbacks.Keys, condition))
  {
    if condition && kind in callbacks {
      loop.FireCallback(fd, kind, callbacks[kind]);
      LoopTasks.FireAllSnoc(s0, View(), fired, kind);
    } else {
      assert fired + [] == fired;
    }
  }

  /**
   * The destructor's assertions: not dispatching, not added to the loop, and,
   * when destroyed on the loop thread, unknown to the loop's EPoller.
   */
  ghost predicate Destructible(caller: ThreadId)
    reads this, loop.poller
  {
    !eventHandling && !addedToLoop
    && (caller == loop.threadId && loop.poller.ownerThread == loop.threadId ==> !loop.poller.HasChannel(this, caller))
  }
}
